/**
The trusted rules installer against a compare-and-apply host.  The durable store (`jobs`,
`nets`) changes only in transactions and the host only in `Apply`; a crash may come between
any two of them and forgets every call in progress.  Receipts and acknowledgements are
authentic, and the approved rules of an approval are fixed by its two modes.
*/
module Installer {
  import opened Base

  datatype Op = Bootstrap | Activate | Rollback

  datatype RuleSet = RuleSet(approval: nat, active: bool)

  datatype Status = Dispatched | Quarantined | Verified

  datatype Receipt = Receipt(job: nat, op: Op, rules: RuleSet, generation: nat)

  datatype Job = Job(approval: nat, op: Op, deadline: nat, expected: nat, status: Status, receipt: Option<Receipt>)

  datatype Stage = New | Booted | Active | Blocked

  datatype Net = Net(stage: Stage, generation: nat, blocked: bool)

  datatype Ack = Ack(job: nat, owner: nat, rules: RuleSet, generation: nat)

  datatype Host = Host(rules: Option<RuleSet>, owner: Option<nat>, generation: nat, trace: map<nat, Ack>)

  /** Where a call in progress stands; `Failing` means its exception handler is next. */
  datatype Phase = Sent | Acked(ack: Ack) | Owned(ack: Ack) | Checked(ack: Ack) | Failing

  /** `late` are the calls that have committed their receipt and may still raise. */
  datatype World = World(
    jobs: map<nat, Job>, nets: map<nat, Net>, live: map<nat, Phase>, host: Host, reached: seq<nat>, late: set<nat>)

  const GENESIS := World(map[], map[], map[], Host(None, None, 0, map[]), [], {})

  function RulesOf(approval: nat, op: Op): RuleSet { RuleSet(approval, op == Activate) }

  function StageOf(op: Op): Stage { if op == Activate then Active else Booted }

  predicate Pending(j: Job) { j.status == Dispatched || j.status == Quarantined }

  // ----- the host -----

  predicate CompareOk(h: Host, approval: nat, expected: nat) {
    && h.generation == expected
    && (if expected == 0 then h.owner.None? && h.rules.None? else h.owner == Some(approval))
  }

  function HostApply(h: Host, job: nat, approval: nat, op: Op): Host {
    var ack := Ack(job, approval, RulesOf(approval, op), h.generation + 1);
    Host(Some(ack.rules), Some(approval), h.generation + 1, h.trace[job := ack])
  }

  // ----- atomic steps -----

  datatype Action =
    | Register(a: nat)
    | Dispatch(job: nat, a: nat, op: Op, deadline: nat, guard: bool)   // guard: host identity, stop flag, time
    | Apply(job: nat, drift: bool, lost: bool)                         // identity drift refuses; the return may be lost
    | Own(job: nat)
    | ReadBack(job: nat)
    | Verify(job: nat)
    | Quarantine(job: nat)                                             // the exception handler's transaction
    | LateQuarantine(job: nat)                                         // the same, for a call that raised after its receipt
    | Vanish(job: nat)                                                 // one call ends alone, without its handler
    | Crash                                                            // all of them do
    | Recover(job: nat, a: nat)                                        // with the host's own trace for the job

  predicate CircuitOpen(w: World) { exists j | j in w.jobs :: Pending(w.jobs[j]) }

  predicate MayDispatch(w: World, a: nat, op: Op) {
    && a in w.nets
    && (if op == Rollback then 0 < w.nets[a].generation
        else !w.nets[a].blocked && !CircuitOpen(w) && w.nets[a].stage == (if op == Bootstrap then New else Booted))
  }

  predicate MayRecover(w: World, job: nat, a: nat) {
    && a in w.nets && job in w.jobs && Pending(w.jobs[job]) && w.jobs[job].approval == a
    && job in w.host.trace && w.host.trace[job].rules == RulesOf(a, w.jobs[job].op)
    && w.host.trace[job].generation == w.jobs[job].expected + 1
  }

  function Lift(w: World, job: nat, p: Phase): World { w.(live := w.live[job := p]) }

  function Do(w: World, action: Action): World {
    match action
    case Register(a) => if a in w.nets then w else w.(nets := w.nets[a := Net(New, 0, false)])
    case Dispatch(job, a, op, deadline, guard) =>
      if job in w.jobs || !guard || !MayDispatch(w, a, op) then w
      else w.(jobs := w.jobs[job := Job(a, op, deadline, w.nets[a].generation, Dispatched, None)],
              live := w.live[job := Sent])
    case Apply(job, drift, lost) =>
      if !(job in w.live && w.live[job] == Sent && job in w.jobs) then w
      else
        var j, w := w.jobs[job], w.(reached := w.reached + [job]);
        if drift || !CompareOk(w.host, j.approval, j.expected) then Lift(w, job, Failing)
        else
          var host := HostApply(w.host, job, j.approval, j.op);
          Lift(w.(host := host), job, if lost then Failing else Acked(host.trace[job]))
    case Own(job) =>
      if !(job in w.live && w.live[job].Acked? && job in w.jobs && w.jobs[job].approval in w.nets) then w
      else
        var a, ack := w.jobs[job].approval, w.live[job].ack;
        Lift(w.(nets := w.nets[a := w.nets[a].(generation := ack.generation)]), job, Owned(ack))
    case ReadBack(job) =>
      if !(job in w.live && w.live[job].Owned?) then w
      else
        var ack := w.live[job].ack;
        var same := w.host.owner == Some(ack.owner) && w.host.generation == ack.generation && w.host.rules == Some(ack.rules);
        Lift(w, job, if same then Checked(ack) else Failing)
    case Verify(job) =>
      if !(job in w.live && w.live[job].Checked? && job in w.jobs && w.jobs[job].approval in w.nets) then w
      else
        var j, ack := w.jobs[job], w.live[job].ack;
        w.(jobs := w.jobs[job := j.(status := Verified, receipt := Some(Receipt(job, j.op, ack.rules, ack.generation)))],
           nets := w.nets[j.approval := w.nets[j.approval].(stage := StageOf(j.op))],
           live := w.live - {job}, late := w.late + {job})
    case LateQuarantine(job) =>                   // the job keeps its receipt, its approval is blocked all the same
      if !(job in w.late && job in w.jobs && w.jobs[job].approval in w.nets) then w
      else
        var a := w.jobs[job].approval;
        w.(nets := w.nets[a := w.nets[a].(stage := Blocked, blocked := true)], late := w.late - {job})
    case Quarantine(job) =>
      if !(job in w.live && job in w.jobs && w.jobs[job].approval in w.nets) then w
      else
        var j := w.jobs[job];
        w.(jobs := if j.receipt.None? then w.jobs[job := j.(status := Quarantined)] else w.jobs,
           nets := w.nets[j.approval := w.nets[j.approval].(stage := Blocked, blocked := true)],
           live := w.live - {job})
    case Vanish(job) => w.(live := w.live - {job})
    case Crash => w.(live := map[], late := {})
    case Recover(job, a) =>
      if !MayRecover(w, job, a) then w
      else
        w.(jobs := w.jobs[job := w.jobs[job].(status := Quarantined)],
           nets := w.nets[a := Net(Blocked, w.host.trace[job].generation, true)])
  }

  function DoAll(w: World, actions: seq<Action>): World {
    if actions == [] then w else Do(DoAll(w, actions[..|actions| - 1]), actions[|actions| - 1])
  }

  /** One operator call at a time: a new call starts only when none is in progress. */
  predicate SerialStep(w: World, action: Action) {
    action.Dispatch? || action.Recover? ==> w.live == map[]
  }

  predicate Serial(w: World, actions: seq<Action>) {
    forall n | 0 <= n < |actions| :: SerialStep(DoAll(w, actions[..n]), actions[n])
  }

  lemma {:induction false} DoAllSplits(w: World, a: seq<Action>, b: seq<Action>)
    ensures DoAll(w, a + b) == DoAll(DoAll(w, a), b)
    decreases |b|
  {
    if b == [] {
      assert a + b == a;
    } else {
      assert (a + b)[..|a + b| - 1] == a + b[..|b| - 1];
      DoAllSplits(w, a, b[..|b| - 1]);
    }
  }

  // ----- the invariant -----

  /** Every approval that claims to be installed owns the host, at the stored generation, with
      exactly its rules for that stage. */
  predicate Settled(w: World) {
    forall a | a in w.nets && w.nets[a].stage in {Booted, Active} ::
      && w.host.owner == Some(a) && w.host.generation == w.nets[a].generation
      && w.host.rules == Some(RuleSet(a, w.nets[a].stage == Active))
  }

  predicate SingleCall(w: World) { forall j, k | j in w.live && k in w.live :: j == k }

  /** Bookkeeping of the job table and the calls in progress. */
  predicate JobBooks(w: World) {
    && (forall j | j in w.jobs :: w.jobs[j].approval in w.nets && (w.jobs[j].status == Verified <==> w.jobs[j].receipt.Some?))
    && (forall j | j in w.live :: j in w.jobs && w.jobs[j].status == Dispatched)
  }

  /** Each job reaches the host at most once. */
  predicate ReachBooks(w: World) {
    && (forall j | j in w.live :: w.live[j] == Sent <==> j !in w.reached)
    && (forall j | j in w.reached :: j in w.jobs)
    && (forall i, j | 0 <= i < j < |w.reached| :: w.reached[i] != w.reached[j])
  }

  function ExpectedAck(job: nat, j: Job): Ack { Ack(job, j.approval, RulesOf(j.approval, j.op), j.expected + 1) }

  /** The host journal records what was applied, for whom and at which generation. */
  predicate HostBooks(w: World) {
    && (forall j | j in w.host.trace :: j in w.reached && w.host.trace[j].generation <= w.host.generation
          && j in w.jobs && w.host.trace[j] == ExpectedAck(j, w.jobs[j])
          && (w.host.trace[j].generation == w.host.generation ==> w.host.owner == Some(w.host.trace[j].owner)))
    && (w.host.owner.None? <==> w.host.generation == 0) && (w.host.rules.None? <==> w.host.generation == 0)
    && (forall j | j in w.live && w.live[j] != Sent && w.live[j] != Failing ::
          j in w.host.trace && w.host.trace[j] == w.live[j].ack)
  }

  predicate Books(w: World) { JobBooks(w) && ReachBooks(w) && HostBooks(w) }

  /** No job is left behind: whatever is pending is a call still in progress. */
  predicate NothingLeftBehind(w: World) {
    forall j | j in w.jobs && Pending(w.jobs[j]) :: j in w.live
  }

  /** The host carries this acknowledged change, and no other approval claims to be installed. */
  predicate AtHost(w: World, a: nat, ack: Ack) {
    && w.host.owner == Some(a) && w.host.generation == ack.generation && w.host.rules == Some(ack.rules)
    && (forall b | b in w.nets && b != a :: w.nets[b].stage !in {Booted, Active})
  }

  /** Where the host stands while the only pending job is at phase `p`. */
  predicate Placed(w: World, job: nat, p: Phase)
    requires job in w.jobs && w.jobs[job].approval in w.nets
  {
    var a := w.jobs[job].approval;
    match p
    case Sent => Settled(w) && w.jobs[job].expected == w.nets[a].generation
    case Failing => true
    case Acked(ack) => AtHost(w, a, ack)
    case Owned(ack) => AtHost(w, a, ack) && w.nets[a].generation == ack.generation
    case Checked(ack) => AtHost(w, a, ack) && w.nets[a].generation == ack.generation
  }

  predicate Inv(w: World) {
    && Books(w) && SingleCall(w)
    && (NothingLeftBehind(w) ==>
          && (w.live == map[] ==> Settled(w))
          && (forall j | j in w.live :: Placed(w, j, w.live[j])))
  }

  lemma DispatchingKeeps(w: World, action: Action)
    requires Inv(w) && action.Dispatch? && SerialStep(w, action)
    ensures Inv(Do(w, action))
  {
  }

  lemma ApplyingReaches(w: World, action: Action)
    requires ReachBooks(w) && action.Apply?
    ensures ReachBooks(Do(w, action)) && w.reached <= Do(w, action).reached
    ensures Do(w, action) != w ==> action.job in Do(w, action).reached
  {
    hide CompareOk, HostApply;
    var after := Do(w, action);
    if after != w {
      assert after.reached == w.reached + [action.job];
      assert forall j :: j in after.reached <==> j in w.reached || j == action.job;
    }
  }

  lemma ApplyingBooks(w: World, action: Action)
    requires Books(w) && SingleCall(w) && action.Apply?
    ensures Books(Do(w, action)) && SingleCall(Do(w, action))
  {
    ApplyingReaches(w, action);
    assert forall j | j in w.reached :: j in Do(w, action).reached;
    hide ReachBooks;
  }

  lemma ApplyingKeeps(w: World, action: Action)
    requires Inv(w) && action.Apply?
    ensures Inv(Do(w, action))
  {
    hide ReachBooks;
    ApplyingBooks(w, action);
  }

  lemma OwningBooks(w: World, action: Action)
    requires Books(w) && SingleCall(w) && (action.Own? || action.ReadBack?)
    ensures Books(Do(w, action)) && SingleCall(Do(w, action))
  {
  }

  lemma OwningKeeps(w: World, action: Action)
    requires Inv(w) && action.Own?
    ensures Inv(Do(w, action))
  {
    hide ReachBooks;
    OwningBooks(w, action);
  }

  lemma ReadingBackKeeps(w: World, action: Action)
    requires Inv(w) && action.ReadBack?
    ensures Inv(Do(w, action))
  {
    hide ReachBooks;
    OwningBooks(w, action);
  }

  lemma VerifyingBooks(w: World, action: Action)
    requires Books(w) && SingleCall(w) && action.Verify?
    ensures Books(Do(w, action)) && SingleCall(Do(w, action))
  {
  }

  lemma VerifyingKeeps(w: World, action: Action)
    requires Inv(w) && action.Verify?
    ensures Inv(Do(w, action))
  {
    hide ReachBooks;
    VerifyingBooks(w, action);
  }

  lemma QuarantineKeeps(w: World, action: Action)
    requires Inv(w) && action.Quarantine?
    ensures Inv(Do(w, action))
  {
  }

  lemma RecoverKeeps(w: World, action: Action)
    requires Inv(w) && action.Recover? && SerialStep(w, action)
    ensures Inv(Do(w, action))
  {
  }

  lemma StepKeeps(w: World, action: Action)
    requires Inv(w) && SerialStep(w, action)
    ensures Inv(Do(w, action))
  {
    hide Inv, Do, SerialStep;
    match action
    case Register(_) => RegisterKeeps(w, action);
    case Dispatch(_, _, _, _, _) => DispatchingKeeps(w, action);
    case Apply(_, _, _) => ApplyingKeeps(w, action);
    case Own(_) => OwningKeeps(w, action);
    case ReadBack(_) => ReadingBackKeeps(w, action);
    case Verify(_) => VerifyingKeeps(w, action);
    case Quarantine(_) => QuarantineKeeps(w, action);
    case LateQuarantine(_) => BlockingKeeps(w, action);
    case Vanish(_) => VanishingKeeps(w, action);
    case Crash => CrashKeeps(w);
    case Recover(_, _) => RecoverKeeps(w, action);
  }

  lemma RegisterKeeps(w: World, action: Action)
    requires Inv(w) && action.Register?
    ensures Inv(Do(w, action))
  {
  }

  lemma BlockingKeeps(w: World, action: Action)
    requires Inv(w) && action.LateQuarantine?
    ensures Inv(Do(w, action))
  {
  }

  lemma VanishingKeeps(w: World, action: Action)
    requires Inv(w) && action.Vanish?
    ensures Inv(Do(w, action))
  {
  }

  lemma CrashKeeps(w: World)
    requires Inv(w)
    ensures Inv(Do(w, Crash))
  {
  }

  lemma SerialFront(w: World, actions: seq<Action>)
    requires Serial(w, actions) && actions != []
    ensures Serial(w, actions[..|actions| - 1])
    ensures SerialStep(DoAll(w, actions[..|actions| - 1]), actions[|actions| - 1])
  {
    var front := actions[..|actions| - 1];
    forall n | 0 <= n < |front|
      ensures SerialStep(DoAll(w, front[..n]), front[n])
    {
      assert front[..n] == actions[..n];
    }
  }

  lemma {:induction false} RunKeeps(w: World, actions: seq<Action>)
    requires Inv(w) && Serial(w, actions)
    ensures Inv(DoAll(w, actions))
  {
    hide Inv, SerialStep, Serial, Do;
    if actions != [] {
      SerialFront(w, actions);
      RunKeeps(w, actions[..|actions| - 1]);
      StepKeeps(DoAll(w, actions[..|actions| - 1]), actions[|actions| - 1]);
    }
  }

  // ----- theorems over whole runs -----

  /** In every serial run, crashes included: whenever no job is dispatched or quarantined, each
      approval that claims to be booted or active owns the host at the stored generation, with
      exactly its rules for that stage. */
  lemma InstalledMeansInstalled(actions: seq<Action>)
    requires Serial(GENESIS, actions)
    ensures var w := DoAll(GENESIS, actions); CircuitOpen(w) || Settled(w)
  {
    RunKeeps(GENESIS, actions);
  }

  /** What the later check of an installation compares, guards of host identity, stop flag and time
      aside: the stored stage, then the host read back against it. */
  predicate CheckPasses(w: World, a: nat, active: bool) {
    && StageSays(w, a, active) && w.host.owner == Some(a)
    && w.host.generation == w.nets[a].generation && w.host.rules == Some(RuleSet(a, active))
  }

  predicate StageSays(w: World, a: nat, active: bool) {
    a in w.nets && !w.nets[a].blocked && w.nets[a].stage == if active then Active else Booted
  }

  /** While nothing is pending, the stored stage alone decides the check: the independent readback
      can only agree with it. */
  lemma CheckIsDecidedByStage(actions: seq<Action>, a: nat, active: bool)
    requires Serial(GENESIS, actions) && !CircuitOpen(DoAll(GENESIS, actions))
    ensures CheckPasses(DoAll(GENESIS, actions), a, active) <==> StageSays(DoAll(GENESIS, actions), a, active)
  {
    InstalledMeansInstalled(actions);
  }

  // ----- theorems over every interleaving, overlapping calls included -----

  /** The host has had at most one owner, nothing stored or expected runs ahead of it, and a call
      quarantined while it runs has been applied. */
  predicate OwnerBooks(w: World) {
    && (forall j | j in w.live && j in w.jobs && w.jobs[j].status == Quarantined :: j in w.host.trace)
    && (forall j | j in w.late :: j in w.host.trace)
    && (forall j | j in w.jobs :: w.jobs[j].approval in w.nets && w.jobs[j].expected <= w.host.generation)
    && (forall a | a in w.nets :: w.nets[a].generation <= w.host.generation)
    && (forall j | j in w.host.trace :: w.host.owner == Some(w.host.trace[j].owner)
          && (w.host.trace[j].generation == w.host.generation ==> w.host.rules == Some(w.host.trace[j].rules)))
  }

  predicate LooseJobs(w: World) {
    && (forall j | j in w.jobs :: w.jobs[j].status == Verified <==> w.jobs[j].receipt.Some?)
    && (forall j | j in w.live :: j in w.jobs && w.jobs[j].receipt.None?)
    && (forall j | j in w.late :: j in w.jobs && w.jobs[j].receipt.Some?)
  }

  /** What holds however calls overlap: a receipt ends its job, a job reaches the host once, and the
      host journal is right about who applied what. */
  predicate LooseBooks(w: World) { LooseJobs(w) && ReachBooks(w) && HostBooks(w) && OwnerBooks(w) }

  lemma LooseStep(w: World, action: Action)
    requires LooseBooks(w)
    ensures LooseBooks(Do(w, action))
  {
    LooseJobsKept(w, action);
    LooseReach(w, action);
    LooseHost(w, action);
    LooseOwner(w, action);
  }

  lemma LooseJobsKept(w: World, action: Action)
    requires LooseBooks(w)
    ensures LooseJobs(Do(w, action))
  {
    hide ReachBooks, HostBooks, OwnerBooks, CircuitOpen, CompareOk, HostApply;
  }

  lemma LooseReach(w: World, action: Action)
    requires LooseBooks(w)
    ensures ReachBooks(Do(w, action)) && w.reached <= Do(w, action).reached
    ensures action.Apply? && Do(w, action) != w ==> action.job in Do(w, action).reached
  {
    hide HostBooks, OwnerBooks, MayDispatch, CompareOk, HostApply, Pending, CircuitOpen;
    if action.Apply? {
      ApplyingReaches(w, action);
    }
  }

  lemma LooseHost(w: World, action: Action)
    requires LooseBooks(w)
    ensures HostBooks(Do(w, action))
  {
    hide LooseBooks, HostBooks, Do;
    match action {
      case Apply(_, _, _) => LooseApply(w, action);
      case Dispatch(_, _, _, _, _) => HostAsDispatched(w, action);
      case _ => HostUntouched(w, action);
    }
  }

  lemma HostAsDispatched(w: World, action: Action)
    requires LooseBooks(w) && action.Dispatch?
    ensures HostBooks(Do(w, action))
  {
    hide MayDispatch, OwnerBooks;
  }

  lemma HostUntouched(w: World, action: Action)
    requires LooseBooks(w) && !action.Apply? && !action.Dispatch?
    ensures HostBooks(Do(w, action))
  {
    hide CircuitOpen, OwnerBooks, ReachBooks, MayRecover;
  }

  lemma LooseApply(w: World, action: Action)
    requires LooseBooks(w) && action.Apply?
    ensures HostBooks(Do(w, action))
  {
    var v, job := Do(w, action), action.job;
    LooseReach(w, action);
    if v.host != w.host {
      HostGrows(w, v, job);
    } else {
      hide ReachBooks, LooseJobs, OwnerBooks;
    }
  }

  lemma HostGrows(w: World, v: World, job: nat)
    requires HostBooks(w) && job in w.jobs && w.jobs[job].expected == w.host.generation && job !in w.host.trace
    requires v.host == HostApply(w.host, job, w.jobs[job].approval, w.jobs[job].op) && v.jobs == w.jobs
    requires v.live == w.live[job := Acked(v.host.trace[job])] || v.live == w.live[job := Failing]
    requires job in v.reached && forall j | j in w.reached :: j in v.reached
    ensures HostBooks(v)
  {
  }

  lemma LooseOwner(w: World, action: Action)
    requires LooseBooks(w)
    ensures OwnerBooks(Do(w, action))
  {
    hide LooseBooks, OwnerBooks, Do;
    match action {
      case Apply(_, _, _) => LooseOwnerApply(w, action);
      case Dispatch(_, _, _, _, _) => LooseOwnerDispatch(w, action);
      case Own(_) => LooseOwnerOwn(w, action);
      case _ => LooseOwnerRest(w, action);
    }
  }

  lemma LooseOwnerDispatch(w: World, action: Action)
    requires LooseBooks(w) && action.Dispatch?
    ensures OwnerBooks(Do(w, action))
  {
    hide ReachBooks, HostBooks, CircuitOpen;
  }

  lemma LooseOwnerRest(w: World, action: Action)
    requires LooseBooks(w) && !action.Apply? && !action.Dispatch? && !action.Own?
    ensures OwnerBooks(Do(w, action))
  {
    hide ReachBooks;
  }

  lemma LooseOwnerApply(w: World, action: Action)
    requires LooseBooks(w) && action.Apply?
    ensures OwnerBooks(Do(w, action))
  {
    hide ReachBooks;
  }

  lemma LooseOwnerOwn(w: World, action: Action)
    requires LooseBooks(w) && action.Own?
    ensures OwnerBooks(Do(w, action))
  {
    hide ReachBooks;
  }

  lemma {:induction false} LooseRun(actions: seq<Action>)
    ensures LooseBooks(DoAll(GENESIS, actions))
  {
    hide LooseBooks, Do;
    if actions == [] {
      LooseGenesis();
    } else {
      LooseRun(actions[..|actions| - 1]);
      LooseStep(DoAll(GENESIS, actions[..|actions| - 1]), actions[|actions| - 1]);
    }
  }

  lemma LooseGenesis()
    ensures LooseBooks(GENESIS)
  {
  }

  lemma {:induction false} LooseGoesOn(w: World, actions: seq<Action>)
    requires LooseBooks(w)
    ensures LooseBooks(DoAll(w, actions))
  {
    hide LooseBooks, Do;
    if actions != [] {
      LooseGoesOn(w, actions[..|actions| - 1]);
      LooseStep(DoAll(w, actions[..|actions| - 1]), actions[|actions| - 1]);
    }
  }

  /** Each request id reaches the host at most once, across replays, crashes and overlapping calls. */
  lemma AppliedAtMostOnce(actions: seq<Action>)
    ensures var r := DoAll(GENESIS, actions).reached; forall i, j | 0 <= i < j < |r| :: r[i] != r[j]
  {
    LooseRun(actions);
  }

  // ----- when a pending job can still end -----

  predicate LeftBehind(w: World, j: nat) { j in w.jobs && Pending(w.jobs[j]) && j !in w.live }

  predicate Carries(h: Host, ack: Ack) {
    h.owner == Some(ack.owner) && h.generation == ack.generation && h.rules == Some(ack.rules)
  }

  predicate PendingIn(w: World, j: nat) { j in w.jobs && Pending(w.jobs[j]) }

  /** Pending with no call left that could verify it: the call is gone or failing, the host's compare
      will refuse it, or the host has moved on before its readback. */
  predicate Stuck(w: World, j: nat) {
    && PendingIn(w, j)
    && (j in w.live ==>
          match w.live[j]
          case Sent => !CompareOk(w.host, w.jobs[j].approval, w.jobs[j].expected)
          case Acked(ack) => !Carries(w.host, ack)
          case Owned(ack) => !Carries(w.host, ack)
          case Checked(_) => false
          case Failing => true)
  }

  lemma StuckStep(w: World, action: Action, j: nat)
    requires LooseBooks(w) && Stuck(w, j)
    ensures Stuck(Do(w, action), j)
  {
    hide LooseBooks, Stuck, Do;
    if action.Apply? {
      StuckApply(w, action, j);
    } else {
      StuckRest(w, action, j);
    }
  }

  lemma StuckRest(w: World, action: Action, j: nat)
    requires LooseBooks(w) && Stuck(w, j) && !action.Apply?
    ensures Stuck(Do(w, action), j)
  {
    hide ReachBooks, CircuitOpen, MayDispatch, MayRecover, HostApply;
  }

  lemma StuckApply(w: World, action: Action, j: nat)
    requires LooseBooks(w) && Stuck(w, j) && action.Apply?
    ensures Stuck(Do(w, action), j)
  {
    hide ReachBooks, LooseJobs;
    assert Do(w, action).jobs == w.jobs;
    if action.job != j && j in w.live {
      assert Do(w, action).live[j] == w.live[j];
    }
  }

  lemma StuckIsPending(w: World, j: nat)
    requires Stuck(w, j)
    ensures PendingIn(w, j)
  {
  }

  /** What a dispatch can add while something is pending. */
  lemma OnlyRollbacks(w: World, action: Action, j: nat)
    requires PendingIn(w, j)
    ensures forall k | k in Do(w, action).jobs && k !in w.jobs :: Do(w, action).jobs[k].op == Rollback
    ensures forall k | k in w.jobs :: k in Do(w, action).jobs && Do(w, action).jobs[k].op == w.jobs[k].op
  {
    assert CircuitOpen(w);
    hide CompareOk, HostApply, MayRecover;
  }

  /** What is left for a call that is not stuck. */
  function Finish(w: World, j: nat): seq<Action> {
    if j !in w.live then []
    else
      match w.live[j]
      case Sent => [Apply(j, false, false), Own(j), ReadBack(j), Verify(j)]
      case Acked(_) => [Own(j), ReadBack(j), Verify(j)]
      case Owned(_) => [ReadBack(j), Verify(j)]
      case Checked(_) => [Verify(j)]
      case Failing => []
  }

  lemma DoAllFirst(w: World, action: Action, rest: seq<Action>)
    ensures DoAll(w, [action] + rest) == DoAll(Do(w, action), rest)
  {
    DoAllSplits(w, [action], rest);
    assert [action][..0] == [];
    assert DoAll(w, [action][..0]) == w;
    assert DoAll(w, [action]) == Do(w, action);
  }

  lemma {:induction false} FinishVerifies(w: World, j: nat)
    requires LooseBooks(w) && PendingIn(w, j) && !Stuck(w, j)
    ensures var v := DoAll(w, Finish(w, j)); j in v.jobs && v.jobs[j].status == Verified
    decreases |Finish(w, j)|
  {
    var first := Finish(w, j)[0];
    LooseStep(w, first);
    assert Finish(w, j) == [first] + Finish(w, j)[1..];
    DoAllFirst(w, first, Finish(w, j)[1..]);
    OneStepOn(w, j);
    if w.live[j].Checked? {
      assert Finish(w, j)[1..] == [];
    } else {
      hide LooseBooks, Do, Stuck;
      FinishVerifies(Do(w, first), j);
    }
  }

  lemma OneStepOn(w: World, j: nat)
    requires LooseBooks(w) && PendingIn(w, j) && !Stuck(w, j)
    ensures Finish(w, j) != []
    ensures var v := Do(w, Finish(w, j)[0]);
            if w.live[j].Checked? then j in v.jobs && v.jobs[j].status == Verified
            else PendingIn(v, j) && !Stuck(v, j) && Finish(v, j) == Finish(w, j)[1..]
  {
    hide ReachBooks, CircuitOpen, MayDispatch, MayRecover;
  }

  /** Exactly when a pending job stays pending whatever happens: for every reachable state, overlapping
      calls included, a dispatched or quarantined job is never verified in any continuation if and
      only if it is stuck. */
  lemma StaysPendingExact(w: World, j: nat)
    requires LooseBooks(w) && PendingIn(w, j)
    ensures (forall actions: seq<Action> :: PendingIn(DoAll(w, actions), j)) <==> Stuck(w, j)
  {
    if Stuck(w, j) {
      forall actions: seq<Action>
        ensures PendingIn(DoAll(w, actions), j)
      {
        CircuitIsPermanent(w, actions, j);
      }
    } else {
      FinishVerifies(w, j);
    }
  }

  /** For a quarantined job: the call is gone, failing, or acknowledged but not read back while the
      host no longer carries its change.  A job quarantined by `recover` under a running call that
      has read back, or still can, is verified after all. */
  lemma QuarantineStaysExact(w: World, j: nat)
    requires LooseBooks(w) && j in w.jobs && w.jobs[j].status == Quarantined
    ensures (forall actions: seq<Action> :: PendingIn(DoAll(w, actions), j)) <==>
            || j !in w.live
            || w.live[j] == Failing
            || ((w.live[j].Acked? || w.live[j].Owned?) && !Carries(w.host, w.live[j].ack))
  {
    StaysPendingExact(w, j);
  }

  predicate StillBlocked(v: World, a: nat) { a in v.nets && v.nets[a].blocked }

  /** What was asked of a job never changes, and neither does a receipt. */
  predicate SameRequest(j: Job, k: Job) {
    && (j.approval, j.op, j.deadline, j.expected) == (k.approval, k.op, k.deadline, k.expected)
    && (j.receipt.Some? ==> k == j)
  }

  /** What no step takes back: a job, what it asked for and its receipt, being left behind, and a
      blocked approval. */
  ghost predicate Irrevocable(w: World, v: World) {
    && (forall j | j in w.jobs :: j in v.jobs && SameRequest(w.jobs[j], v.jobs[j]))
    && (forall j | LeftBehind(w, j) :: LeftBehind(v, j))
    && (forall a | StillBlocked(w, a) :: StillBlocked(v, a))
  }

  lemma IrrevocableOn(u: World, v: World, w: World)
    requires Irrevocable(u, v) && Irrevocable(v, w)
    ensures Irrevocable(u, w)
  {
    hide LeftBehind, StillBlocked;
    forall j | j in u.jobs
      ensures j in w.jobs && SameRequest(u.jobs[j], w.jobs[j])
    {
      assert j in v.jobs && SameRequest(u.jobs[j], v.jobs[j]);
    }
  }

  lemma IrrevocableFirst(w: World)
    ensures Irrevocable(w, w)
  {
  }

  lemma StepIsIrrevocable(w: World, action: Action)
    requires LooseBooks(w)
    ensures Irrevocable(w, Do(w, action))
  {
    hide ReachBooks, HostBooks, OwnerBooks, MayDispatch, CompareOk, HostApply;
  }

  /** Permanent circuit: while a stuck job exists no bootstrap or activation is ever dispatched again,
      for any approval of the store, in any interleaving. */
  lemma {:induction false} CircuitIsPermanent(w: World, actions: seq<Action>, j: nat)
    requires LooseBooks(w) && Stuck(w, j)
    ensures Stuck(DoAll(w, actions), j)
    ensures forall k | k in DoAll(w, actions).jobs && k !in w.jobs :: DoAll(w, actions).jobs[k].op == Rollback
    ensures forall k | k in w.jobs :: k in DoAll(w, actions).jobs && DoAll(w, actions).jobs[k].op == w.jobs[k].op
  {
    hide Do, Stuck, LooseBooks;
    if actions != [] {
      var front := actions[..|actions| - 1];
      CircuitIsPermanent(w, front, j);
      LooseGoesOn(w, front);
      StuckStep(DoAll(w, front), actions[|actions| - 1], j);
      StuckIsPending(DoAll(w, front), j);
      OnlyRollbacks(DoAll(w, front), actions[|actions| - 1], j);
    }
  }

  /** When calls did not overlap before it, every quarantine is permanent, whatever interleaving
      follows; so is a dispatch that a crash or a failure left without its call. */
  lemma SerialQuarantine(before: seq<Action>, after: seq<Action>, j: nat)
    requires Serial(GENESIS, before) && PendingIn(DoAll(GENESIS, before), j)
    requires DoAll(GENESIS, before).jobs[j].status == Quarantined || j !in DoAll(GENESIS, before).live
    ensures var w, v := DoAll(GENESIS, before), DoAll(GENESIS, before + after);
            && PendingIn(v, j)
            && forall k | k in v.jobs && k !in w.jobs :: v.jobs[k].op == Rollback
  {
    RunKeeps(GENESIS, before);
    LooseRun(before);
    DoAllSplits(GENESIS, before, after);
    hide Do, LooseBooks;
    CircuitIsPermanent(DoAll(GENESIS, before), after, j);
  }

  lemma ReceiptStep(w: World, action: Action, job: nat)
    requires LooseBooks(w) && job in w.jobs && w.jobs[job].receipt.Some?
    ensures job in Do(w, action).jobs && Do(w, action).jobs[job] == w.jobs[job]
  {
    hide ReachBooks, CircuitOpen;
  }

  /** A verified job never changes again, so a replay of its id returns the same receipt: the job
      table after `before` and after any longer run agree on it. */
  lemma {:induction false} ReceiptIsFinal(before: seq<Action>, after: seq<Action>, job: nat)
    requires job in DoAll(GENESIS, before).jobs && DoAll(GENESIS, before).jobs[job].receipt.Some?
    ensures job in DoAll(GENESIS, before + after).jobs
    ensures DoAll(GENESIS, before + after).jobs[job] == DoAll(GENESIS, before).jobs[job]
    decreases |after|
  {
    hide Do;
    if after == [] {
      assert before + after == before;
    } else {
      var front := after[..|after| - 1];
      assert (before + after)[..|before + after| - 1] == before + front;
      ReceiptIsFinal(before, front, job);
      LooseRun(before + front);
      ReceiptStep(DoAll(GENESIS, before + front), after[|after| - 1], job);
    }
  }

  // ----- recovery after a lost acknowledgement -----

  /** Recover with the host's trace, then one undisturbed rollback. */
  function RecoveryRun(job: nat, a: nat, r: nat, deadline: nat): seq<Action> {
    [Recover(job, a), Dispatch(r, a, Rollback, deadline, true), Apply(r, false, false), Own(r), ReadBack(r), Verify(r)]
  }

  /** Rollback `r` is verified, and `a` is back on its bootstrap rules at the host's generation. */
  predicate RolledBack(v: World, a: nat, r: nat) {
    && r in v.jobs && v.jobs[r].status == Verified && a in v.nets && v.nets[a].stage == Booted
    && v.host.rules == Some(RuleSet(a, false)) && v.host.owner == Some(a)
    && v.host.generation == v.nets[a].generation
  }

  function AfterRecovery(w: World, job: nat, a: nat, r: nat, deadline: nat): World {
    var w1 := Do(Do(w, Recover(job, a)), Dispatch(r, a, Rollback, deadline, true));
    Do(Do(Do(Do(w1, Apply(r, false, false)), Own(r)), ReadBack(r)), Verify(r))
  }

  lemma RecoveryRunUnfolds(w: World, job: nat, a: nat, r: nat, deadline: nat)
    ensures DoAll(w, RecoveryRun(job, a, r, deadline)) == AfterRecovery(w, job, a, r, deadline)
  {
    hide Do;
    var run := RecoveryRun(job, a, r, deadline);
    assert run[..6] == run;
    assert run[..6][..5] == run[..5] && run[..5][..4] == run[..4] && run[..4][..3] == run[..3];
    assert run[..3][..2] == run[..2] && run[..2][..1] == run[..1] && run[..1][..0] == [];
    assert DoAll(w, run[..1]) == Do(w, run[0]);
    assert DoAll(w, run[..2]) == Do(DoAll(w, run[..1]), run[1]);
    assert DoAll(w, run[..3]) == Do(DoAll(w, run[..2]), run[2]);
    assert DoAll(w, run[..4]) == Do(DoAll(w, run[..3]), run[3]);
    assert DoAll(w, run[..5]) == Do(DoAll(w, run[..4]), run[4]);
  }

  /** The rollback that follows a recovery, beside whatever calls are running, takes effect if and only
      if the recovered job was the last one the host applied.  `recover` may write an older generation
      than it reads: for an earlier job the compare then refuses, and the host keeps what it had. */
  lemma RecoveryExact(w: World, job: nat, a: nat, r: nat, deadline: nat)
    requires LooseBooks(w) && MayRecover(w, job, a) && r !in w.jobs
    ensures var v := AfterRecovery(w, job, a, r, deadline);
            && (RolledBack(v, a, r) <==> w.host.generation == w.host.trace[job].generation)
            && (w.host.generation != w.host.trace[job].generation ==> v.host == w.host)
            && StillBlocked(v, a)
  {
    hide ReachBooks;
    var ack := w.host.trace[job];
    var w1 := Do(w, Recover(job, a));
    assert w1.host == w.host && w1.live == w.live && w1.jobs.Keys == w.jobs.Keys && w1.nets[a] == Net(Blocked, ack.generation, true);
    var w2 := Do(w1, Dispatch(r, a, Rollback, deadline, true));
    assert 0 < ack.generation && w2.host == w.host && w2.nets == w1.nets;
    assert w2.jobs[r] == Job(a, Rollback, deadline, ack.generation, Dispatched, None) && w2.live == w.live[r := Sent];
    hide LooseBooks, MayRecover, CircuitOpen;
    if w.host.generation == ack.generation {
      assert w.host.owner == Some(a) by { OwnerOfTrace(w, job, a); }
      SentRollsBack(w2, a, r);
    } else {
      SentIsRefused(w2, a, r);
    }
  }

  lemma OwnerOfTrace(w: World, job: nat, a: nat)
    requires LooseBooks(w) && MayRecover(w, job, a)
    ensures w.host.owner == Some(a)
  {
  }

  function AfterSent(w: World, r: nat): World {
    Do(Do(Do(Do(w, Apply(r, false, false)), Own(r)), ReadBack(r)), Verify(r))
  }

  /** A dispatched rollback that the host still expects goes through. */
  lemma SentRollsBack(w: World, a: nat, r: nat)
    requires r in w.live && w.live[r] == Sent && r in w.jobs && a in w.nets && StillBlocked(w, a)
    requires w.jobs[r].approval == a && w.jobs[r].op == Rollback && w.jobs[r].expected == w.host.generation > 0
    requires w.host.owner == Some(a)
    ensures RolledBack(AfterSent(w, r), a, r) && StillBlocked(AfterSent(w, r), a)
  {
    var ack := Ack(r, a, RuleSet(a, false), w.host.generation + 1);
    var w1 := Do(w, Apply(r, false, false));
    assert w1.live == w.live[r := Acked(ack)] && w1.host == HostApply(w.host, r, a, Rollback) && w1.nets == w.nets && w1.jobs == w.jobs;
    hide Do;
    AckedReadsBack(w1, r);
    CheckedVerifies(Do(Do(w1, Own(r)), ReadBack(r)), r);
  }

  /** One the host does not expect ends failing, and changes nothing else. */
  lemma SentIsRefused(w: World, a: nat, r: nat)
    requires r in w.live && w.live[r] == Sent && r in w.jobs && a in w.nets && StillBlocked(w, a)
    requires w.jobs[r].approval == a && w.jobs[r].expected != w.host.generation && w.jobs[r].status == Dispatched
    ensures AfterSent(w, r).host == w.host && StillBlocked(AfterSent(w, r), a) && !RolledBack(AfterSent(w, r), a, r)
  {
    var w1 := Do(w, Apply(r, false, false));
    assert w1.live[r] == Failing && w1.host == w.host && w1.nets == w.nets && w1.jobs == w.jobs;
    assert Do(w1, Own(r)) == w1 && Do(w1, ReadBack(r)) == w1 && Do(w1, Verify(r)) == w1;
  }

  /** The host belongs to `a` and is ahead of what is stored for it, what any call of it expects before
      its apply, and what any call may still store. */
  predicate Ahead(w: World, a: nat) {
    && a in w.nets && w.host.owner == Some(a) && w.nets[a].generation < w.host.generation
    && forall j | j in w.live ::
         j in w.jobs
         && (w.live[j] == Sent && w.jobs[j].approval == a ==> w.jobs[j].expected < w.host.generation)
         && (w.live[j].Acked? ==> w.live[j].ack.generation < w.host.generation)
  }

  lemma AheadStep(w: World, action: Action, a: nat)
    requires Ahead(w, a) && !action.Recover?
    ensures Ahead(Do(w, action), a) && Do(w, action).host == w.host
  {
    hide CircuitOpen, HostApply;
  }

  ghost predicate NoRecovery(actions: seq<Action>) { forall n | 0 <= n < |actions| :: !actions[n].Recover? }

  lemma {:induction false} AheadRun(w: World, actions: seq<Action>, a: nat)
    requires Ahead(w, a) && NoRecovery(actions)
    ensures Ahead(DoAll(w, actions), a) && DoAll(w, actions).host == w.host
  {
    if actions != [] {
      hide Ahead, Do;
      AheadRun(w, actions[..|actions| - 1], a);
      AheadStep(DoAll(w, actions[..|actions| - 1]), actions[|actions| - 1], a);
    }
  }

  lemma {:induction false} FreshId(used: set<nat>) returns (r: nat)
    ensures r !in used && forall x | x in used :: x < r
  {
    if used == {} {
      r := 0;
    } else {
      var x :| x in used;
      var r' := FreshId(used - {x});
      r := if x < r' then r' else x + 1;
      forall y | y in used
        ensures y < r
      {
        assert y == x || y in used - {x};
      }
    }
  }

  /** A rollback that the store allows and the host expects moves the host. */
  lemma RollbackMoves(w: World, a: nat, r: nat)
    requires a in w.nets && w.host.owner == Some(a) && 0 < w.nets[a].generation == w.host.generation && r !in w.jobs
    ensures DoAll(w, [Dispatch(r, a, Rollback, 0, true)] + [Apply(r, false, false)]).host != w.host
  {
    CallApplies(w, r, a, Rollback);
    DoAllFirst(w, Dispatch(r, a, Rollback, 0, true), [Apply(r, false, false)]);
    One(Do(w, Dispatch(r, a, Rollback, 0, true)), Apply(r, false, false));
  }

  lemma One(w: World, a: Action)
    ensures DoAll(w, [a]) == Do(w, a)
  {
    assert [a][..0] == [];
  }

  /** A call that could still move the host of a store that is not ahead. */
  lemma SomethingMoves(w: World, a: nat) returns (actions: seq<Action>)
    requires LooseBooks(w) && a in w.nets && w.host.owner == Some(a) && !Ahead(w, a)
    ensures NoRecovery(actions) && DoAll(w, actions).host != w.host
  {
    hide ReachBooks, CircuitOpen;
    if w.nets[a].generation == w.host.generation {
      var r := FreshId(w.jobs.Keys);
      RollbackMoves(w, a, r);
      actions := [Dispatch(r, a, Rollback, 0, true)] + [Apply(r, false, false)];
    } else {
      var j :| j in w.live && ((w.live[j] == Sent && w.jobs[j].approval == a && w.jobs[j].expected >= w.host.generation)
                               || (w.live[j].Acked? && w.live[j].ack.generation >= w.host.generation));
      if w.live[j] == Sent {
        One(w, Apply(j, false, false));
        actions := [Apply(j, false, false)];
      } else {
        OwningCatchesUp(w, a, j);
        var w1 := Do(w, Own(j));
        var r := FreshId(w.jobs.Keys);
        RollbackMoves(w1, a, r);
        DoAllFirst(w, Own(j), [Dispatch(r, a, Rollback, 0, true)] + [Apply(r, false, false)]);
        actions := [Own(j)] + ([Dispatch(r, a, Rollback, 0, true)] + [Apply(r, false, false)]);
      }
    }
  }

  lemma OwningCatchesUp(w: World, a: nat, j: nat)
    requires LooseBooks(w) && a in w.nets && w.host.owner == Some(a)
    requires j in w.live && w.live[j].Acked? && w.live[j].ack.generation >= w.host.generation
    ensures var v := Do(w, Own(j));
            && v.host == w.host && v.jobs == w.jobs && a in v.nets && 0 < v.nets[a].generation == v.host.generation
  {
    hide ReachBooks, CircuitOpen;
    assert w.host.trace[j] == ExpectedAck(j, w.jobs[j]);
  }

  /** Exactly when a host can no longer move without a recovery: for every reachable state, overlapping
      calls included, it stays put in every continuation that recovers nothing if and only if it is ahead. */
  lemma HostStaysExact(w: World, a: nat)
    requires LooseBooks(w) && a in w.nets && w.host.owner == Some(a)
    ensures (forall actions: seq<Action> | NoRecovery(actions) :: DoAll(w, actions).host == w.host) <==> Ahead(w, a)
  {
    if Ahead(w, a) {
      forall actions: seq<Action> | NoRecovery(actions)
        ensures DoAll(w, actions).host == w.host
      {
        AheadRun(w, actions, a);
      }
    } else {
      var actions := SomethingMoves(w, a);
    }
  }

  /** A job that the host has applied and that no call can finish any more. */
  predicate Lost(w: World, j: nat) { PendingIn(w, j) && (j in w.live ==> w.live[j] == Failing) }

  lemma LostStep(w: World, action: Action, j: nat)
    requires Lost(w, j)
    ensures Lost(Do(w, action), j) && ExpectedAck(j, Do(w, action).jobs[j]) == ExpectedAck(j, w.jobs[j])
  {
    hide CircuitOpen, HostApply, CompareOk;
  }

  lemma {:induction false} LostRun(w: World, actions: seq<Action>, j: nat)
    requires Lost(w, j)
    ensures j in w.jobs && Lost(DoAll(w, actions), j) && j in DoAll(w, actions).jobs
    ensures ExpectedAck(j, DoAll(w, actions).jobs[j]) == ExpectedAck(j, w.jobs[j])
  {
    if actions != [] {
      hide Do;
      LostRun(w, actions[..|actions| - 1], j);
      LostStep(DoAll(w, actions[..|actions| - 1]), actions[|actions| - 1], j);
    }
  }

  /** Right after the host has applied a change whose acknowledgement is lost. */
  lemma LostApply(w: World, job: nat)
    requires LooseBooks(w) && job in w.live && w.live[job] == Sent && job in w.jobs
    requires CompareOk(w.host, w.jobs[job].approval, w.jobs[job].expected)
    ensures var v, a := Do(w, Apply(job, false, true)), w.jobs[job].approval;
            && Ahead(v, a) && Lost(v, job) && v.jobs == w.jobs
            && v.host == HostApply(w.host, job, a, w.jobs[job].op)
  {
    hide ReachBooks, CircuitOpen;
  }

  /** A lost acknowledgement, in any run at all: the host applies `job`, its answer never arrives.
      Whatever follows short of a recovery, quarantine and automatic rollback, crashes and overlapping
      calls included, the host stays where it is; recovering with the host's trace and rolling back then
      leaves the host on the bootstrap rules at the stored generation, with the approval still blocked. */
  lemma LostAckRecovers(before: seq<Action>, job: nat, mid: seq<Action>, r: nat, deadline: nat)
    requires var w := DoAll(GENESIS, before);
             && job in w.live && w.live[job] == Sent && job in w.jobs
             && CompareOk(w.host, w.jobs[job].approval, w.jobs[job].expected)
    requires NoRecovery(mid) && r !in DoAll(GENESIS, before + ([Apply(job, false, true)] + mid)).jobs
    ensures var w, after := DoAll(GENESIS, before), DoAll(GENESIS, before + ([Apply(job, false, true)] + mid));
            var a := w.jobs[job].approval;
            var v := DoAll(after, RecoveryRun(job, a, r, deadline));
            && after.host == HostApply(w.host, job, a, w.jobs[job].op)
            && RolledBack(v, a, r) && StillBlocked(v, a)
  {
    hide Do, LooseBooks, Ahead, Lost, CompareOk, AfterRecovery, RolledBack, HostApply;
    var w := DoAll(GENESIS, before);
    var a, w1 := w.jobs[job].approval, Do(w, Apply(job, false, true));
    LooseRun(before);
    LostApply(w, job);
    DoAllSplits(GENESIS, before, [Apply(job, false, true)] + mid);
    DoAllFirst(w, Apply(job, false, true), mid);
    AheadRun(w1, mid, a);
    LostRun(w1, mid, job);
    LooseRun(before + ([Apply(job, false, true)] + mid));
    var after := DoAll(w1, mid);
    LostIsRecoverable(w, after, job);
    RecoveryExact(after, job, a, r, deadline);
    RecoveryRunUnfolds(after, job, a, r, deadline);
  }

  lemma LostIsRecoverable(w: World, after: World, job: nat)
    requires job in w.jobs && after.host == HostApply(w.host, job, w.jobs[job].approval, w.jobs[job].op)
    requires CompareOk(w.host, w.jobs[job].approval, w.jobs[job].expected)
    requires Lost(after, job) && ExpectedAck(job, after.jobs[job]) == ExpectedAck(job, w.jobs[job])
    requires LooseBooks(after)
    ensures MayRecover(after, job, w.jobs[job].approval) && after.host.trace[job].generation == after.host.generation
  {
    hide ReachBooks;
  }

  // ----- why calls must not overlap -----

  function CallSteps(r: nat, a: nat, op: Op): seq<Action> {
    [Dispatch(r, a, op, 0, true), Apply(r, false, false), Own(r), ReadBack(r)]
  }

  /** A call that nothing disturbs, up to its readback. */
  function AfterCall(w: World, r: nat, a: nat, op: Op): World {
    Do(Do(Do(Do(w, Dispatch(r, a, op, 0, true)), Apply(r, false, false)), Own(r)), ReadBack(r))
  }

  function AfterRollback(w: World, a: nat, r: nat): World { Do(AfterCall(w, r, a, Rollback), Verify(r)) }

  lemma CallStepsUnfold(w: World, r: nat, a: nat, op: Op)
    ensures DoAll(w, CallSteps(r, a, op)) == AfterCall(w, r, a, op)
  {
    hide Do;
    var run := CallSteps(r, a, op);
    assert run[..4] == run && run[..4][..3] == run[..3] && run[..3][..2] == run[..2] && run[..2][..1] == run[..1];
    assert run[..1][..0] == [] && DoAll(w, run[..1]) == Do(w, run[0]);
    assert DoAll(w, run[..2]) == Do(DoAll(w, run[..1]), run[1]);
    assert DoAll(w, run[..3]) == Do(DoAll(w, run[..2]), run[2]);
  }

  /** Dispatch and apply of an undisturbed call, beside whatever else is in progress. */
  lemma CallApplies(w: World, r: nat, a: nat, op: Op)
    requires MayDispatch(w, a, op) && CompareOk(w.host, a, w.nets[a].generation) && r !in w.jobs
    ensures var v, g := Do(Do(w, Dispatch(r, a, op, 0, true)), Apply(r, false, false)), w.host.generation;
            && v.host == HostApply(w.host, r, a, op) && v.nets == w.nets
            && v.jobs == w.jobs[r := Job(a, op, 0, g, Dispatched, None)]
            && v.live == w.live[r := Acked(Ack(r, a, RulesOf(a, op), g + 1))]
  {
    hide CircuitOpen;
    var w1 := Do(w, Dispatch(r, a, op, 0, true));
    assert w1.live == w.live[r := Sent] && w1.jobs[r] == Job(a, op, 0, w.host.generation, Dispatched, None);
  }

  /** Its ownership and readback. */
  lemma AckedReadsBack(w: World, r: nat)
    requires r in w.live && w.live[r].Acked? && r in w.jobs && w.jobs[r].approval in w.nets && Carries(w.host, w.live[r].ack)
    ensures var v, a, ack := Do(Do(w, Own(r)), ReadBack(r)), w.jobs[r].approval, w.live[r].ack;
            && v.host == w.host && v.jobs == w.jobs && v.live == w.live[r := Checked(ack)]
            && v.nets == w.nets[a := w.nets[a].(generation := ack.generation)]
  {
    var w1 := Do(w, Own(r));
    assert w1.live == w.live[r := Owned(w.live[r].ack)];
  }

  lemma CallReadsBack(w: World, r: nat, a: nat, op: Op)
    requires MayDispatch(w, a, op) && CompareOk(w.host, a, w.nets[a].generation) && r !in w.jobs
    ensures var v, g := AfterCall(w, r, a, op), w.host.generation;
            && v.host == HostApply(w.host, r, a, op)
            && v.nets == w.nets[a := w.nets[a].(generation := g + 1)]
            && v.jobs == w.jobs[r := Job(a, op, 0, g, Dispatched, None)]
            && v.live == w.live[r := Checked(Ack(r, a, RulesOf(a, op), g + 1))]
  {
    hide Do;
    CallApplies(w, r, a, op);
    AckedReadsBack(Do(Do(w, Dispatch(r, a, op, 0, true)), Apply(r, false, false)), r);
  }

  lemma CheckedVerifies(w: World, r: nat)
    requires r in w.live && w.live[r].Checked? && r in w.jobs && w.jobs[r].approval in w.nets
    ensures var v, j, ack := Do(w, Verify(r)), w.jobs[r], w.live[r].ack;
            && v.host == w.host && v.live == w.live - {r}
            && v.jobs == w.jobs[r := j.(status := Verified, receipt := Some(Receipt(r, j.op, ack.rules, ack.generation)))]
            && v.nets == w.nets[j.approval := w.nets[j.approval].(stage := StageOf(j.op))]
  {
  }

  /** An undisturbed rollback, beside whatever else is in progress. */
  lemma RollbackEffect(w: World, a: nat, r: nat)
    requires a in w.nets && 0 < w.nets[a].generation == w.host.generation && w.host.owner == Some(a)
    requires r !in w.jobs && r !in w.live
    ensures var v, g := AfterRollback(w, a, r), w.host.generation;
            && v.live == w.live && v.host == HostApply(w.host, r, a, Rollback)
            && v.jobs == w.jobs[r := Job(a, Rollback, 0, g, Verified, Some(Receipt(r, Rollback, RuleSet(a, false), g + 1)))]
            && v.nets == w.nets[a := w.nets[a].(stage := Booted, generation := g + 1)]
  {
    hide Do, AfterCall;
    CallReadsBack(w, r, a, Rollback);
    CheckedVerifies(AfterCall(w, r, a, Rollback), r);
    assert w.live[r := Checked(Ack(r, a, RuleSet(a, false), w.host.generation + 1))] - {r} == w.live;
  }

  /** What a world with one checked call and nothing left behind looks like. */
  lemma LoneCheckedCall(w: World, job: nat)
    requires Inv(w) && NothingLeftBehind(w) && job in w.live && w.live[job].Checked?
    ensures w.live.Keys == {job} && job in w.jobs && w.jobs[job].approval in w.nets
    ensures forall k | k in w.jobs && k != job :: w.jobs[k].status == Verified
    ensures var a := w.jobs[job].approval;
            0 < w.nets[a].generation == w.host.generation && w.host.owner == Some(a)
  {
    assert Placed(w, job, w.live[job]);
    hide ReachBooks, Settled;
  }

  /** Without the one-call-at-a-time rule the law fails.  One way: an activation that has passed its
      readback, a whole rollback from a second caller, then the activation's last transaction.  Both
      jobs end verified, no circuit is open, and the store says active while the host runs the
      bootstrap rules.  The other way, and exactly when either happens, is in InstallerOverlap. */
  lemma OverlapUnsettles(w: World, job: nat, r: nat)
    requires Inv(w) && NothingLeftBehind(w) && job in w.live && w.live[job].Checked?
    requires job in w.jobs && w.jobs[job].op == Activate && r !in w.jobs
    ensures var a := w.jobs[job].approval;
            var v := Do(AfterRollback(w, a, r), Verify(job));
            && !CircuitOpen(v) && !Settled(v)
            && a in v.nets && v.nets[a].stage == Active && v.host.rules == Some(RuleSet(a, false))
  {
    hide Inv, NothingLeftBehind, AfterRollback;
    LoneCheckedCall(w, job);
    RollbackEffect(w, w.jobs[job].approval, r);
  }

  // ----- the installer object -----

  /** What the outside does at one point of a call: nothing, an exception, or the end of the process. */
  datatype Fate = Fine | Raise | Die

  datatype Reply =
    | Denied
    | Replayed(status: Status, issued: Option<Receipt>)
    | Issued(receipt: Receipt)
    | Overturned(receipt: Receipt)            // stored, but the call raised after that and its approval is blocked
    | DiedLate(receipt: Receipt)              // stored, and then the process ended
    | Unknown
    | Died

  // One call as a whole.  Its points: 0 at the apply, 1 to 3 before the later transactions, 4 the host's
  // answer, 5 the handler, 6 the handler's rollback, 7 the return of a stored receipt.

  predicate Applies(w: World, a: nat, fate: nat -> Fate)
    requires a in w.nets
  {
    fate(0) == Fine && CompareOk(w.host, a, w.nets[a].generation)
  }

  predicate Owns(w: World, a: nat, fate: nat -> Fate)
    requires a in w.nets
  {
    Applies(w, a, fate) && fate(4) != Raise && fate(1) == Fine
  }

  predicate Commits(w: World, a: nat, fate: nat -> Fate)
    requires a in w.nets
  {
    Owns(w, a, fate) && fate(2) == Fine && fate(3) == Fine
  }

  /** The process ends before the commit and before anything raises. */
  predicate EndsEarly(w: World, a: nat, fate: nat -> Fate)
    requires a in w.nets
  {
    || fate(0) == Die
    || (Applies(w, a, fate) && fate(4) != Raise && fate(1) == Die)
    || (Owns(w, a, fate) && (fate(2) == Die || (fate(2) == Fine && fate(3) == Die)))
  }

  /** The call's exception handler blocks the approval. */
  predicate Blocks(w: World, a: nat, fate: nat -> Fate)
    requires a in w.nets
  {
    if Commits(w, a, fate) then fate(7) == Raise else !EndsEarly(w, a, fate) && fate(5) == Fine
  }

  /** The process ends during the call, without the automatic rollback. */
  predicate Ends(w: World, a: nat, fate: nat -> Fate)
    requires a in w.nets
  {
    EndsEarly(w, a, fate) || (if Commits(w, a, fate) then fate(7) == Die else fate(5) == Die)
  }

  function ReceiptOf(w: World, a: nat, op: Op, job: nat): Receipt
    requires a in w.nets
  {
    Receipt(job, op, RulesOf(a, op), w.nets[a].generation + 1)
  }

  /** The world a dispatched call leaves, its automatic rollback apart. */
  function Outcome(w: World, a: nat, op: Op, job: nat, deadline: nat, fate: nat -> Fate): World
    requires a in w.nets
  {
    var net, commits, blocks := w.nets[a], Commits(w, a, fate), Blocks(w, a, fate);
    World(
      w.jobs[job := Job(a, op, deadline, net.generation,
                        if commits then Verified else if blocks then Quarantined else Dispatched,
                        if commits then Some(ReceiptOf(w, a, op, job)) else None)],
      w.nets[a := Net(if blocks then Blocked else if commits then StageOf(op) else net.stage,
                      if Owns(w, a, fate) then net.generation + 1 else net.generation,
                      net.blocked || blocks)],
      map[],
      if Applies(w, a, fate) then HostApply(w.host, job, a, op) else w.host,
      if fate(0) == Die then w.reached else w.reached + [job],
      if Ends(w, a, fate) then {} else if !commits then w.late else if blocks then w.late - {job} else w.late + {job})
  }

  function Answer(w: World, a: nat, op: Op, job: nat, fate: nat -> Fate): Reply
    requires a in w.nets
  {
    if !Commits(w, a, fate) then if Ends(w, a, fate) then Died else Unknown
    else
      var receipt := ReceiptOf(w, a, op, job);
      if Ends(w, a, fate) then DiedLate(receipt) else if Blocks(w, a, fate) then Overturned(receipt) else Issued(receipt)
  }

  /** The world a whole call leaves: nothing changes for a known id or a refusal; a call whose handler
      blocked the approval attempts a rollback under the spare id unless the process ends first. */
  function Installed(w: World, a: nat, op: Op, job: nat, deadline: nat, guard: bool, fate: nat -> Fate, spare: nat): World
    decreases op != Rollback
  {
    if job in w.jobs || !guard || !MayDispatch(w, a, op) then w
    else
      var left := Outcome(w, a, op, job, deadline, fate);
      if op != Rollback && Blocks(w, a, fate) && fate(6) != Die
      then Installed(left, a, Rollback, spare, deadline, fate(6) == Fine, (n: nat) => fate(n + 8), spare)
      else left
  }

  /** A refusal exactly for a reused id or when the guard or the stored state forbids the call; a receipt
      exactly when the host accepts and nothing goes wrong at any point. */
  function Replies(w: World, a: nat, op: Op, job: nat, deadline: nat, guard: bool, fate: nat -> Fate): Reply {
    if job in w.jobs then
      var j := w.jobs[job];
      if (j.approval, j.op, j.deadline) == (a, op, deadline) then Replayed(j.status, j.receipt) else Denied
    else if !guard || !MayDispatch(w, a, op) then Denied
    else
      var reply := Answer(w, a, op, job, fate);
      if op == Rollback || !Blocks(w, a, fate) || fate(6) != Die then reply
      else if reply.Overturned? then DiedLate(reply.receipt) else Died
  }

  /** The receipt is recorded and true: host, store and stage all agree with it. */
  predicate Holds(w: World, job: nat, a: nat, op: Op, r: Receipt) {
    && Receipted(w, job, r) && r == Receipt(job, op, RulesOf(a, op), w.host.generation)
    && w.host.owner == Some(a) && w.host.rules == Some(RulesOf(a, op))
    && a in w.nets && w.nets[a].generation == w.host.generation && w.nets[a].stage == StageOf(op)
  }

  predicate Receipted(w: World, job: nat, r: Receipt) { job in w.jobs && w.jobs[job].receipt == Some(r) }

  lemma OutcomeMeans(w: World, a: nat, op: Op, job: nat, deadline: nat, fate: nat -> Fate)
    requires a in w.nets && job !in w.jobs
    ensures var v, reply := Outcome(w, a, op, job, deadline, fate), Answer(w, a, op, job, fate);
            && v.live == map[]
            && (reply.Issued? ==> Holds(v, job, a, op, reply.receipt))
            && (reply.Unknown? || reply.Died? ==> LeftBehind(v, job))
            && (reply.Overturned? ==> Receipted(v, job, reply.receipt) && StillBlocked(v, a))
            && (reply.DiedLate? ==> Receipted(v, job, reply.receipt))
  {
  }

  lemma AnswerMeans(w: World, a: nat, op: Op, job: nat, fate: nat -> Fate)
    requires a in w.nets
    ensures var reply := Answer(w, a, op, job, fate);
            && !reply.Denied? && !reply.Replayed?
            && (reply.Issued? <==> Commits(w, a, fate) && fate(7) == Fine)
            && (Blocks(w, a, fate) <==> reply.Overturned? || (reply.Unknown? && fate(5) == Fine))
  {
  }

  /** What an automatic rollback amounts to.  It is made, under a new id, exactly when the handler blocked
      the approval, nothing stops the guard and the store owns a generation; the host is then back on the
      bootstrap rules, one generation on, exactly when the rollback itself commits or its apply is reached. */
  lemma AutomaticRollback(w: World, a: nat, op: Op, job: nat, deadline: nat, fate: nat -> Fate, spare: nat)
    requires op != Rollback && job !in w.jobs && spare !in w.jobs && spare != job && MayDispatch(w, a, op)
    ensures var v, left := Installed(w, a, op, job, deadline, true, fate, spare), Outcome(w, a, op, job, deadline, fate);
            && (spare in v.jobs <==> Blocks(w, a, fate) && fate(6) == Fine && (0 < w.nets[a].generation || Owns(w, a, fate)))
            && (spare in v.jobs ==> v.jobs[spare].approval == a && v.jobs[spare].op == Rollback)
            && (v.host == left.host || v.host == HostApply(left.host, spare, a, Rollback))
            && (v.host != left.host <==> spare in v.jobs && fate(8) == Fine && CompareOk(left.host, a, left.nets[a].generation))
  {
    hide CircuitOpen, CompareOk;
    var left := Outcome(w, a, op, job, deadline, fate);
    var later := (n: nat) => fate(n + 8);
    assert left.nets[a].generation == if Owns(w, a, fate) then w.nets[a].generation + 1 else w.nets[a].generation;
    assert later(0) == fate(8);
    assert HostApply(left.host, spare, a, Rollback).generation != left.host.generation;
  }

  /** A call between its dispatch and its commit. */
  function During(w: World, a: nat, op: Op, job: nat, deadline: nat, asked: bool, applied: bool, owned: bool, p: Phase): World
    requires a in w.nets
  {
    var net := w.nets[a];
    World(
      w.jobs[job := Job(a, op, deadline, net.generation, Dispatched, None)],
      if owned then w.nets[a := net.(generation := net.generation + 1)] else w.nets,
      map[job := p], if applied then HostApply(w.host, job, a, op) else w.host,
      if asked then w.reached + [job] else w.reached, w.late)
  }

  function AckOf(w: World, a: nat, op: Op, job: nat): Ack
    requires a in w.nets
  {
    Ack(job, a, RulesOf(a, op), w.nets[a].generation + 1)
  }

  lemma DispatchStarts(w: World, a: nat, op: Op, job: nat, deadline: nat)
    requires w.live == map[] && job !in w.jobs && MayDispatch(w, a, op)
    ensures Do(w, Dispatch(job, a, op, deadline, true)) == During(w, a, op, job, deadline, false, false, false, Sent)
  {
    hide CircuitOpen;
  }

  lemma ApplyMoves(w: World, a: nat, op: Op, job: nat, deadline: nat, drift: bool, lost: bool)
    requires a in w.nets
    ensures var applied := !drift && CompareOk(w.host, a, w.nets[a].generation);
            Do(During(w, a, op, job, deadline, false, false, false, Sent), Apply(job, drift, lost))
              == During(w, a, op, job, deadline, true, applied, false, if applied && !lost then Acked(AckOf(w, a, op, job)) else Failing)
  {
  }

  lemma OwnMoves(w: World, a: nat, op: Op, job: nat, deadline: nat)
    requires a in w.nets
    ensures Do(During(w, a, op, job, deadline, true, true, false, Acked(AckOf(w, a, op, job))), Own(job))
              == During(w, a, op, job, deadline, true, true, true, Owned(AckOf(w, a, op, job)))
  {
  }

  lemma ReadBackMoves(w: World, a: nat, op: Op, job: nat, deadline: nat)
    requires a in w.nets && CompareOk(w.host, a, w.nets[a].generation)
    ensures Do(During(w, a, op, job, deadline, true, true, true, Owned(AckOf(w, a, op, job))), ReadBack(job))
              == During(w, a, op, job, deadline, true, true, true, Checked(AckOf(w, a, op, job)))
  {
  }

  /** The world of a committed call before its receipt is returned. */
  function Stored(w: World, a: nat, op: Op, job: nat, deadline: nat): World
    requires a in w.nets
  {
    World(
      w.jobs[job := Job(a, op, deadline, w.nets[a].generation, Verified, Some(ReceiptOf(w, a, op, job)))],
      w.nets[a := w.nets[a].(stage := StageOf(op), generation := w.nets[a].generation + 1)],
      map[], HostApply(w.host, job, a, op), w.reached + [job], w.late + {job})
  }

  lemma VerifyStores(w: World, a: nat, op: Op, job: nat, deadline: nat)
    requires a in w.nets
    ensures Do(During(w, a, op, job, deadline, true, true, true, Checked(AckOf(w, a, op, job))), Verify(job))
              == Stored(w, a, op, job, deadline)
  {
    assert map[job := Checked(AckOf(w, a, op, job))] - {job} == map[];
  }

  predicate Midway(v: World, w: World, a: nat, op: Op, job: nat, deadline: nat, fate: nat -> Fate)
    requires a in w.nets
  {
    job in v.live
    && v == During(w, a, op, job, deadline, fate(0) != Die, Applies(w, a, fate), Owns(w, a, fate), v.live[job])
  }

  lemma HandlerEnds(v: World, w: World, a: nat, op: Op, job: nat, deadline: nat, fate: nat -> Fate)
    requires a in w.nets && Midway(v, w, a, op, job, deadline, fate) && !Commits(w, a, fate) && !EndsEarly(w, a, fate)
    ensures Do(v, if fate(5) == Fine then Quarantine(job) else if fate(5) == Raise then Vanish(job) else Crash)
              == Outcome(w, a, op, job, deadline, fate)
  {
    assert v.live - {job} == map[];
    hide CompareOk, HostApply;
  }

  lemma DyingEnds(v: World, w: World, a: nat, op: Op, job: nat, deadline: nat, fate: nat -> Fate)
    requires a in w.nets && Midway(v, w, a, op, job, deadline, fate) && EndsEarly(w, a, fate)
    ensures Do(v, Crash) == Outcome(w, a, op, job, deadline, fate)
  {
    hide CompareOk, HostApply;
  }

  lemma DeliveryEnds(w: World, a: nat, op: Op, job: nat, deadline: nat, fate: nat -> Fate)
    requires a in w.nets && Commits(w, a, fate) && job !in w.late
    ensures var v := Stored(w, a, op, job, deadline);
            (match fate(7) case Fine => v case Raise => Do(v, LateQuarantine(job)) case Die => Do(v, Crash))
              == Outcome(w, a, op, job, deadline, fate)
  {
    assert (w.late + {job}) - {job} == w.late - {job};
    hide CompareOk, HostApply;
  }

  /** What an outcome of one call keeps through anything that follows. */
  lemma Carried(v: World, w: World, job: nat, a: nat)
    requires Irrevocable(v, w)
    ensures LeftBehind(v, job) ==> LeftBehind(w, job)
    ensures StillBlocked(v, a) ==> StillBlocked(w, a)
    ensures forall r | job in v.jobs && v.jobs[job].receipt == Some(r) :: job in w.jobs && w.jobs[job].receipt == Some(r)
  {
    hide LeftBehind, StillBlocked;
  }

  class TrustedInstaller {
    var w: World
    ghost var run: seq<Action>      // every atomic step since the store was created

    constructor ()
      ensures Valid() && w == GENESIS
    {
      w, run := GENESIS, [];
    }

    ghost predicate Valid()
      reads this
    {
      w == DoAll(GENESIS, run) && Serial(GENESIS, run)
    }

    method Step(action: Action)
      requires Valid() && SerialStep(w, action)
      modifies this
      ensures Valid() && w == Do(old(w), action)
      ensures Irrevocable(old(w), w)
    {
      hide Do, SerialStep, Irrevocable;
      ghost var longer := run + [action];
      assert longer[..|run|] == run;
      forall n | 0 <= n < |longer|
        ensures SerialStep(DoAll(GENESIS, longer[..n]), longer[n])
      {
        assert longer[..n] == run[..n] || n == |run|;
      }
      LooseRun(run);
      StepIsIrrevocable(w, action);
      w := Do(w, action);
      run := longer;
    }

    /** A step, counted from an earlier world. */
    method Advance(action: Action, ghost since: World)
      requires Valid() && SerialStep(w, action) && Irrevocable(since, w)
      modifies this
      ensures Valid() && w == Do(old(w), action) && Irrevocable(since, w)
    {
      hide Do, SerialStep, Irrevocable;
      Step(action);
      IrrevocableOn(since, old(w), w);
    }

    /** From the committed dispatch to the verified receipt; `Unknown` leaves the handler to run. */
    method Proceed(ghost before: World, a: nat, op: Op, job: nat, ghost deadline: nat, fate: nat -> Fate) returns (reply: Reply)
      requires Valid() && a in before.nets && w == During(before, a, op, job, deadline, false, false, false, Sent)
      modifies this
      ensures Valid() && Irrevocable(old(w), w)
      ensures reply == if Commits(before, a, fate) then Issued(ReceiptOf(before, a, op, job))
                       else if EndsEarly(before, a, fate) then Died else Unknown
      ensures reply.Issued? ==> w == Stored(before, a, op, job, deadline)
      ensures reply.Died? ==> w == Outcome(before, a, op, job, deadline, fate)
      ensures reply.Unknown? ==> Midway(w, before, a, op, job, deadline, fate)
    {
      hide CompareOk, CircuitOpen, MayDispatch, Serial, DoAll, Irrevocable, Do, HostApply, Outcome;
      IrrevocableFirst(w);
      ghost var ack := AckOf(before, a, op, job);
      var i := 0;
      while i < 4
        invariant 0 <= i < 4 && Valid() && Irrevocable(old(w), w)
        invariant i > 0 ==> Applies(before, a, fate) && fate(4) != Raise
        invariant i > 1 ==> fate(1) == Fine
        invariant i > 2 ==> fate(2) == Fine
        invariant w == During(before, a, op, job, deadline, i > 0, i > 0, i > 1,
                              match i case 0 => Sent case 1 => Acked(ack) case 2 => Owned(ack) case _ => Checked(ack))
      {
        if fate(i) == Die {
          DyingEnds(w, before, a, op, job, deadline, fate);
          Advance(Crash, old(w));
          return Died;
        }
        if fate(i) == Raise && i != 0 {
          return Unknown;
        }
        if i == 3 {
          VerifyStores(before, a, op, job, deadline);
          Advance(Verify(job), old(w));
          return Issued(w.jobs[job].receipt.value);
        }
        match i {
          case 0 => ApplyMoves(before, a, op, job, deadline, fate(i) == Raise, fate(4) == Raise);
          case 1 => OwnMoves(before, a, op, job, deadline);
          case _ => ReadBackMoves(before, a, op, job, deadline);
        }
        Advance(match i case 0 => Apply(job, fate(i) == Raise, fate(4) == Raise) case 1 => Own(job) case _ => ReadBack(job), old(w));
        if w.live[job] == Failing {
          return Unknown;
        }
        i := i + 1;
      }
      return Unknown;
    }

    /** One operator call.  A known id is answered from the store and changes nothing.  Otherwise the call is
        refused exactly when the guard or the stored state forbids it, and issues a receipt exactly when the
        host accepts and no point of the call goes wrong; every other outcome past the dispatch leaves the
        job pending for good, or verified with its receipt stored, after an automatic rollback. */
    method Install(a: nat, op: Op, job: nat, deadline: nat, guard: bool, fate: nat -> Fate, spare: nat)
      returns (reply: Reply)
      requires Valid() && w.live == map[]
      modifies this
      decreases op != Rollback
      ensures Valid() && w.live == map[] && Irrevocable(old(w), w)
      ensures w == Installed(old(w), a, op, job, deadline, guard, fate, spare)
      ensures reply == Replies(old(w), a, op, job, deadline, guard, fate)
      ensures job !in old(w).jobs ==> (reply == Denied <==> !guard || !MayDispatch(old(w), a, op))
      ensures job !in old(w).jobs && guard && MayDispatch(old(w), a, op) ==>
                (reply.Issued? <==> Commits(old(w), a, fate) && fate(7) == Fine)
      ensures reply.Denied? || reply.Replayed? ==> w == old(w)
      ensures reply.Issued? ==> Holds(w, job, a, op, reply.receipt)
      ensures reply.Unknown? || reply.Died? ==> LeftBehind(w, job)
      ensures reply.Overturned? ==> Receipted(w, job, reply.receipt) && StillBlocked(w, a)
      ensures reply.DiedLate? ==> Receipted(w, job, reply.receipt)
    {
      hide Serial, DoAll, CompareOk, CircuitOpen, HostApply, Irrevocable, Do, LeftBehind, StillBlocked, Outcome, Answer,
        Holds, Commits, EndsEarly, Blocks, Owns, Applies;
      IrrevocableFirst(w);
      if job in w.jobs {
        var j := w.jobs[job];
        return if (j.approval, j.op, j.deadline) == (a, op, deadline) then Replayed(j.status, j.receipt) else Denied;
      }
      if !guard || !MayDispatch(w, a, op) {
        return Denied;
      }
      ghost var before := w;
      OutcomeMeans(w, a, op, job, deadline, fate);
      AnswerMeans(w, a, op, job, fate);
      reply := Perform(a, op, job, deadline, fate);
      if op != Rollback && fate(6) != Die && (reply.Overturned? || (reply.Unknown? && fate(5) == Fine)) {
        ghost var performed := w;
        var automatic := Install(a, Rollback, spare, deadline, fate(6) == Fine, (n: nat) => fate(n + 8), spare);
        IrrevocableOn(before, performed, w);
        Carried(performed, w, job, a);
      } else if op != Rollback && reply.Overturned? {
        reply := DiedLate(reply.receipt);
      } else if op != Rollback && reply.Unknown? && fate(5) == Fine {
        reply := Died;
      }
    }

    /** The call without its automatic rollback. */
    method Perform(a: nat, op: Op, job: nat, deadline: nat, fate: nat -> Fate) returns (reply: Reply)
      requires Valid() && w.live == map[] && job !in w.jobs && MayDispatch(w, a, op)
      modifies this
      ensures Valid() && Irrevocable(old(w), w)
      ensures w == Outcome(old(w), a, op, job, deadline, fate) && reply == Answer(old(w), a, op, job, fate)
    {
      hide Serial, DoAll, CompareOk, CircuitOpen, HostApply, Irrevocable, LeftBehind, Do, Outcome, During, Stored;
      ghost var before := w;
      LooseRun(run);
      DispatchStarts(w, a, op, job, deadline);
      Step(Dispatch(job, a, op, deadline, true));
      ghost var sent := w;
      reply := Proceed(before, a, op, job, deadline, fate);
      ghost var settled := w;
      IrrevocableOn(before, sent, settled);
      if reply.Issued? {
        DeliveryEnds(before, a, op, job, deadline, fate);
        reply := Deliver(job, reply.receipt, fate(7));
        IrrevocableOn(before, settled, w);
      } else if reply.Unknown? {
        HandlerEnds(w, before, a, op, job, deadline, fate);
        Handle(job, fate(5));
        IrrevocableOn(before, settled, w);
        if fate(5) == Die {
          reply := Died;
        }
      }
    }

    /** After the commit: the receipt is returned, or the call raises and its handler blocks the approval
        of a job that stays verified, or the process ends. */
    method Deliver(job: nat, receipt: Receipt, fate: Fate) returns (reply: Reply)
      requires Valid()
      modifies this
      ensures Valid() && Irrevocable(old(w), w)
      ensures reply == match fate case Fine => Issued(receipt) case Raise => Overturned(receipt) case Die => DiedLate(receipt)
      ensures w == match fate case Fine => old(w) case Raise => Do(old(w), LateQuarantine(job)) case Die => Do(old(w), Crash)
    {
      hide Serial, DoAll, Do, Irrevocable;
      IrrevocableFirst(w);
      match fate {
        case Fine =>
          reply := Issued(receipt);
        case Raise =>
          Step(LateQuarantine(job));
          reply := Overturned(receipt);
        case Die =>
          Step(Crash);
          reply := DiedLate(receipt);
      }
    }

    /** The exception handler's transaction, which may itself fail or never run. */
    method Handle(job: nat, fate: Fate)
      requires Valid()
      modifies this
      ensures Valid() && Irrevocable(old(w), w)
      ensures w == Do(old(w), if fate == Fine then Quarantine(job) else if fate == Raise then Vanish(job) else Crash)
    {
      hide Serial, DoAll, Do, Irrevocable;
      Step(if fate == Fine then Quarantine(job) else if fate == Raise then Vanish(job) else Crash);
    }

    /** Ownership back from the host's own trace, then a rollback under a new id.  Never a permission:
        the approval stays blocked whatever the rollback does. */
    method RecoverJob(a: nat, job: nat, spare: nat, deadline: nat, guard: bool, fate: nat -> Fate) returns (reply: Reply)
      requires Valid() && w.live == map[]
      modifies this
      ensures Valid() && w.live == map[] && Irrevocable(old(w), w)
      ensures !old(MayRecover(w, job, a)) ==> reply == Denied && w == old(w)
      ensures old(MayRecover(w, job, a)) ==> LeftBehind(w, job) && StillBlocked(w, a)
      ensures old(MayRecover(w, job, a)) && spare !in old(w).jobs ==>
                && (reply == Denied <==> !guard)
                && (guard ==> spare in w.jobs && w.jobs[spare].approval == a && w.jobs[spare].op == Rollback)
                && (reply.Issued? <==> guard && fate(7) == Fine && Commits(Do(old(w), Recover(job, a)), a, fate))
      ensures reply.Issued? ==> Holds(w, spare, a, Rollback, reply.receipt)
    {
      hide Serial, DoAll, CircuitOpen, Holds, Commits, EndsEarly, Applies, Owns;
      if !MayRecover(w, job, a) {
        return Denied;
      }
      Step(Recover(job, a));
      reply := Install(a, Rollback, spare, deadline, guard, fate, spare);
    }
  }
}
