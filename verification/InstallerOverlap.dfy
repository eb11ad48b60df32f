/**
Installer calls that overlap: exactly when a closed circuit still means that what the store calls
installed is what the host runs.  The history of a run is the list of its effective steps.
*/
module InstallerOverlap {
  import opened Base
  import opened Installer

  datatype Event =
    | Applied(job: nat, active: bool)         // the host took the job's rules
    | Stored(job: nat)                        // its generation became the stored one
    | Passed(job: nat)                        // its readback agreed with the host
    | Recovered(job: nat)                     // `recover` wrote its generation back
    | Committed(job: nat, active: bool)       // its stage and receipt were stored
    | Revoked(job: nat)                       // its call raised after that, and blocked its approval

  function Happened(w: World, action: Action): seq<Event> {
    match action
    case Apply(j, _, _) => if j in w.jobs && Do(w, action).host != w.host then [Applied(j, w.jobs[j].op == Activate)] else []
    case Own(j) => if j in w.live && w.live[j].Acked? && j in w.jobs && w.jobs[j].approval in w.nets then [Stored(j)] else []
    case ReadBack(j) => if j in w.live && w.live[j].Owned? && Carries(w.host, w.live[j].ack) then [Passed(j)] else []
    case Verify(j) =>
      if j in w.live && w.live[j].Checked? && j in w.jobs && w.jobs[j].approval in w.nets
      then [Committed(j, w.jobs[j].op == Activate)] else []
    case Recover(j, a) => if MayRecover(w, j, a) then [Recovered(j)] else []
    case LateQuarantine(j) => if j in w.late && j in w.jobs && w.jobs[j].approval in w.nets then [Revoked(j)] else []
    case _ => []
  }

  function History(actions: seq<Action>): seq<Event> {
    if actions == [] then []
    else
      var front := actions[..|actions| - 1];
      History(front) + Happened(DoAll(GENESIS, front), actions[|actions| - 1])
  }

  // ----- what may go wrong between a readback and its commit -----

  predicate Writes(e: Event) { e.Stored? || e.Recovered? }

  predicate ModeWindow(log: seq<Event>, m: int, p: int, n: int) {
    && 0 <= m < p < n < |log|
    && log[m].Passed? && log[p].Applied? && log[n].Committed? && log[m].job == log[n].job
    && log[p].active != log[n].active
    && (forall i | p < i < |log| :: !log[i].Applied?) && (forall i | n < i < |log| :: !log[i].Committed?)
  }

  /** Between a call's readback and its commit, the last apply of all is of the other mode; no commit
      comes later. */
  ghost predicate StaleMode(log: seq<Event>) { exists m, p, n :: ModeWindow(log, m, p, n) }

  predicate GenerationWindow(log: seq<Event>, m: int, p: int, q: int, n: int) {
    && 0 <= m < p < q < n < |log|
    && log[m].Passed? && log[p].Applied? && log[q] == Recovered(log[m].job) && log[n].Committed?
    && log[n].job == log[m].job && (forall i | q < i < |log| :: !Writes(log[i]))
  }

  /** Between a call's readback and its commit another change reaches the host, and then `recover`
      writes the call's own, by then older, generation; nothing is stored over it later. */
  ghost predicate StaleGeneration(log: seq<Event>) { exists m, p, q, n :: GenerationWindow(log, m, p, q, n) }

  /** A call was revoked and nothing was committed after: nothing claims to be installed any more. */
  predicate Withdrawn(log: seq<Event>) {
    exists i | 0 <= i < |log| :: log[i].Revoked? && NoCommitAfter(log, i)
  }

  predicate NoCommitAfter(log: seq<Event>, i: int) { forall k | i < k < |log| && 0 <= k :: !log[k].Committed? }

  lemma WithdrawnGrows(log: seq<Event>, e: Event)
    ensures Withdrawn(log + [e]) <==> e.Revoked? || (Withdrawn(log) && !e.Committed?)
  {
    var longer := log + [e];
    if e.Revoked? {
      assert longer[|log|].Revoked? && NoCommitAfter(longer, |log|);
    } else if Withdrawn(log) && !e.Committed? {
      var i :| 0 <= i < |log| && log[i].Revoked? && NoCommitAfter(log, i);
      assert longer[i].Revoked? && NoCommitAfter(longer, i);
    }
    if Withdrawn(longer) && !e.Revoked? {
      var i :| 0 <= i < |longer| && longer[i].Revoked? && NoCommitAfter(longer, i);
      assert forall k | 0 <= k < |log| :: longer[k] == log[k];
      assert !longer[|log|].Committed? && log[i].Revoked? && NoCommitAfter(log, i);
    }
  }

  // ----- the last event of a kind -----

  datatype Kind = Applies | Stores | Commits

  predicate Is(k: Kind, e: Event) {
    match k
    case Applies => e.Applied?
    case Stores => Writes(e)
    case Commits => e.Committed?
  }

  function Last(k: Kind, log: seq<Event>): (r: int)
    ensures -1 <= r < |log| && (r >= 0 ==> Is(k, log[r]))
    ensures forall i | r < i < |log| :: !Is(k, log[i])
  {
    if log == [] then -1
    else if Is(k, log[|log| - 1]) then |log| - 1
    else Last(k, log[..|log| - 1])
  }

  lemma LastGrows(k: Kind, log: seq<Event>, e: Event)
    ensures Last(k, log + [e]) == if Is(k, e) then |log| else Last(k, log)
  {
    assert (log + [e])[..|log|] == log;
  }

  // ----- what the history says about the world -----

  function Mode(w: World, j: nat): bool
    requires j in w.host.trace
  {
    w.host.trace[j].rules.active
  }

  function Gen(w: World, j: nat): nat
    requires j in w.host.trace
  {
    w.host.trace[j].generation
  }

  predicate Names(w: World, e: Event) {
    && e.job in w.host.trace
    && (e.Applied? ==> e.active == Mode(w, e.job))
    && (e.Committed? ==> e.active == Mode(w, e.job) && e.job in w.jobs && w.jobs[e.job].status == Verified)
  }

  /** Every event is about a job the host applied. */
  predicate Named(w: World, log: seq<Event>) { forall i | 0 <= i < |log| :: Names(w, log[i]) }

  predicate PassedBefore(log: seq<Event>, j: nat, n: int) { exists m | 0 <= m < n && m < |log| :: log[m] == Passed(j) }

  predicate CommittedAfter(log: seq<Event>, j: nat, n: int) {
    exists i | 0 <= i < |log| && n < i :: log[i].Committed? && log[i].job == j
  }

  /** Commits follow readbacks, and both are on record. */
  predicate Ordered(w: World, log: seq<Event>) {
    && (forall j | j in w.live && w.live[j].Checked? :: PassedBefore(log, j, |log|))
    && (forall j | j in w.jobs && w.jobs[j].status == Verified :: CommittedAfter(log, j, -1))
    && (forall n | 0 <= n < |log| && log[n].Committed? :: PassedBefore(log, log[n].job, n))
  }

  /** A readback lies between the applies up to its generation and those after it; a job is applied
      before it is committed. */
  predicate Separated(w: World, log: seq<Event>)
    requires Named(w, log)
  {
    && (forall m, p | 0 <= m < |log| && 0 <= p < |log| && log[m].Passed? && log[p].Applied? ::
          p < m <==> Gen(w, log[p].job) <= Gen(w, log[m].job))
    && (forall p, n | 0 <= p < |log| && 0 <= n < |log| && log[p].Applied? && log[n].Committed? && log[p].job == log[n].job :: p < n)
  }

  /** The last apply is what the host runs. */
  predicate Hosted(w: World, log: seq<Event>)
    requires Named(w, log)
  {
    var p := Last(Applies, log);
    if p < 0 then w.host.generation == 0 else Gen(w, log[p].job) == w.host.generation
  }

  /** The last write is the stored generation of the host's owner. */
  predicate Kept(w: World, log: seq<Event>)
    requires Named(w, log)
  {
    var q := Last(Stores, log);
    && (forall a | a in w.nets && 0 < w.nets[a].generation :: w.host.owner == Some(a))
    && (forall a | a in w.nets && w.host.owner == Some(a) :: w.nets[a].generation == if q < 0 then 0 else Gen(w, log[q].job))
  }

  function StageBy(active: bool): Stage { if active then Active else Booted }

  /** Stages are claimed only by the last commit, and it stands unless something is pending or it was
      revoked; once it is, no stage is claimed at all. */
  predicate Claimed(w: World, log: seq<Event>) {
    var n := Last(Commits, log);
    && (forall a | a in w.nets && w.nets[a].stage in {Booted, Active} ::
          n >= 0 && w.host.owner == Some(a) && w.nets[a].stage == StageBy(log[n].active) && !Withdrawn(log))
    && (n >= 0 && !CircuitOpen(w) && !Withdrawn(log) ==>
          forall a | a in w.nets && w.host.owner == Some(a) :: w.nets[a].stage == StageBy(log[n].active))
  }

  predicate Told(w: World, log: seq<Event>) {
    Named(w, log) && Ordered(w, log) && Separated(w, log) && Hosted(w, log) && Kept(w, log) && Claimed(w, log)
  }

  lemma TraceGrows(w: World, action: Action)
    requires LooseBooks(w)
    ensures forall j | j in w.host.trace :: j in Do(w, action).host.trace && Do(w, action).host.trace[j] == w.host.trace[j]
  {
    hide CircuitOpen;
  }

  lemma NamedStep(w: World, log: seq<Event>, action: Action)
    requires LooseBooks(w) && Named(w, log)
    ensures Named(Do(w, action), log + Happened(w, action))
  {
    var v, now := Do(w, action), Happened(w, action);
    TraceGrows(w, action);
    forall i | 0 <= i < |log + now|
      ensures Names(v, (log + now)[i])
    {
      if i < |log| {
        NameStays(w, action, log[i]);
      } else {
        NewName(w, action);
      }
    }
  }

  lemma NameStays(w: World, action: Action, e: Event)
    requires LooseBooks(w) && Names(w, e)
    ensures Names(Do(w, action), e)
  {
    TraceGrows(w, action);
    hide ReachBooks, CircuitOpen, HostBooks, OwnerBooks;
  }

  lemma NewName(w: World, action: Action)
    requires LooseBooks(w) && Happened(w, action) != []
    ensures Names(Do(w, action), Happened(w, action)[0])
  {
    hide CircuitOpen;
  }

  lemma PassedStays(log: seq<Event>, now: seq<Event>, j: nat, n: int, k: int)
    requires PassedBefore(log, j, n) && n <= k
    ensures PassedBefore(log + now, j, k)
  {
    var m :| 0 <= m < n && m < |log| && log[m] == Passed(j);
    assert (log + now)[m] == Passed(j);
  }

  lemma CommittedStays(log: seq<Event>, now: seq<Event>, j: nat, n: int)
    requires CommittedAfter(log, j, n)
    ensures CommittedAfter(log + now, j, n)
  {
    var i :| 0 <= i < |log| && n < i && log[i].Committed? && log[i].job == j;
    assert (log + now)[i] == log[i];
  }

  lemma OrderedStep(w: World, log: seq<Event>, action: Action)
    requires LooseBooks(w) && Ordered(w, log)
    ensures Ordered(Do(w, action), log + Happened(w, action))
  {
    var v, now := Do(w, action), Happened(w, action);
    hide CircuitOpen, HostBooks, OwnerBooks, ReachBooks;
    forall j | j in v.live && v.live[j].Checked?
      ensures PassedBefore(log + now, j, |log + now|)
    {
      if j in w.live && w.live[j].Checked? {
        PassedStays(log, now, j, |log|, |log + now|);
      } else {
        assert now == [Passed(j)] && (log + now)[|log|] == Passed(j);
      }
    }
    forall j | j in v.jobs && v.jobs[j].status == Verified
      ensures CommittedAfter(log + now, j, -1)
    {
      if j in w.jobs && w.jobs[j].status == Verified {
        CommittedStays(log, now, j, -1);
      } else {
        assert |now| == 1 && (log + now)[|log|].Committed? && (log + now)[|log|].job == j;
      }
    }
    forall n | 0 <= n < |log + now| && (log + now)[n].Committed?
      ensures PassedBefore(log + now, (log + now)[n].job, n)
    {
      if n < |log| {
        PassedStays(log, now, log[n].job, n, n);
      } else {
        PassedStays(log, now, now[0].job, |log|, n);
      }
    }
  }

  /** An apply comes one generation above everything before it; a readback passes at the host's. */
  lemma Placement(w: World, action: Action)
    requires LooseBooks(w) && Happened(w, action) != []
    ensures var v, e := Do(w, action), Happened(w, action)[0];
            && (e.Applied? ==> e.job !in w.host.trace && e.job in v.host.trace && Gen(v, e.job) == w.host.generation + 1
                               && v.host.generation == w.host.generation + 1)
            && (!e.Applied? ==> v.host == w.host)
            && (e.Passed? ==> e.job in w.host.trace && Gen(w, e.job) == w.host.generation)
    ensures forall j | j in w.host.trace :: Gen(w, j) <= w.host.generation
  {
    hide CircuitOpen, MayDispatch;
  }

  lemma SeparatedStep(w: World, log: seq<Event>, action: Action)
    requires LooseBooks(w) && Named(w, log) && Separated(w, log)
    ensures Named(Do(w, action), log + Happened(w, action)) && Separated(Do(w, action), log + Happened(w, action))
  {
    NamedStep(w, log, action);
    TraceGrows(w, action);
    var v, now := Do(w, action), Happened(w, action);
    LastNow(Applies, w, log, action);
    if now == [] {
      assert log + now == log;
      SeparatedSame(w, v, log);
    } else {
      Placement(w, action);
      assert now == [now[0]];
      SeparatedMore(w, v, log, now[0]);
    }
    hide Do, Happened, LooseBooks, Named, Separated;
  }

  lemma SeparatedSame(w: World, v: World, log: seq<Event>)
    requires Named(w, log) && Separated(w, log) && Named(v, log)
    requires forall j | j in w.host.trace :: j in v.host.trace && v.host.trace[j] == w.host.trace[j]
    ensures Separated(v, log)
  {
    assert forall i | 0 <= i < |log| :: Names(w, log[i]);
  }

  lemma SeparatedMore(w: World, v: World, log: seq<Event>, e: Event)
    requires Named(w, log) && Separated(w, log) && Named(v, log + [e])
    requires forall j | j in w.host.trace :: j in v.host.trace && Gen(v, j) == Gen(w, j) <= w.host.generation
    requires e.Applied? ==> e.job !in w.host.trace && e.job in v.host.trace && Gen(v, e.job) == w.host.generation + 1
    requires e.Passed? ==> e.job in w.host.trace && Gen(w, e.job) == w.host.generation
    ensures Separated(v, log + [e])
  {
    var longer := log + [e];
    assert forall i | 0 <= i < |log| :: longer[i] == log[i] && Names(w, log[i]);
    forall m, p | 0 <= m < |longer| && 0 <= p < |longer| && longer[m].Passed? && longer[p].Applied?
      ensures p < m <==> Gen(v, longer[p].job) <= Gen(v, longer[m].job)
    {
    }
    forall p, n | 0 <= p < |longer| && 0 <= n < |longer| && longer[p].Applied? && longer[n].Committed? && longer[p].job == longer[n].job
      ensures p < n
    {
    }
  }

  lemma HostedStep(w: World, log: seq<Event>, action: Action)
    requires LooseBooks(w) && Named(w, log) && Hosted(w, log)
    ensures Named(Do(w, action), log + Happened(w, action)) && Hosted(Do(w, action), log + Happened(w, action))
  {
    NamedStep(w, log, action);
    TraceGrows(w, action);
    LastNow(Applies, w, log, action);
    if Happened(w, action) == [] {
      assert Do(w, action).host == w.host;
    } else {
      Placement(w, action);
    }
    hide Do, Happened, LooseBooks;
  }

  lemma OwnerKnown(w: World, j: nat)
    requires LooseBooks(w) && j in w.host.trace
    ensures w.host.owner.Some? && w.host.owner.value in w.nets && w.host.trace[j].owner == w.host.owner.value
    ensures j in w.jobs && w.jobs[j].approval == w.host.owner.value
  {
  }

  lemma LastNow(k: Kind, w: World, log: seq<Event>, action: Action)
    ensures var now := Happened(w, action);
            Last(k, log + now) == if now != [] && Is(k, now[0]) then |log| else Last(k, log)
    ensures |Happened(w, action)| <= 1
  {
    var now := Happened(w, action);
    if now == [] {
      assert log + now == log;
    } else {
      LastGrows(k, log, now[0]);
      assert log + now == log + [now[0]];
    }
  }

  /** An owner, once there, stays; so does every registered approval, and a new one is blank. */
  lemma Lasting(w: World, action: Action)
    requires LooseBooks(w)
    ensures var v := Do(w, action);
            && (w.host.owner.Some? ==> v.host.owner == w.host.owner)
            && (forall a | a in w.nets :: a in v.nets)
            && (forall a | a in v.nets && a !in w.nets :: v.nets[a] == Net(New, 0, false))
  {
    hide CircuitOpen, ReachBooks, MayDispatch;
  }

  lemma WritesBy(w: World, action: Action)
    requires LooseBooks(w) && Happened(w, action) != [] && Writes(Happened(w, action)[0])
    ensures var v, j := Do(w, action), Happened(w, action)[0].job;
            && j in w.host.trace
            && forall a | a in w.nets :: a in v.nets && v.nets[a].generation ==
                 if w.host.owner == Some(a) then Gen(w, j) else w.nets[a].generation
  {
    hide CircuitOpen, ReachBooks, MayDispatch;
  }

  lemma ElseKept(w: World, action: Action)
    requires Happened(w, action) == [] || !Writes(Happened(w, action)[0])
    ensures forall a | a in w.nets :: a in Do(w, action).nets && Do(w, action).nets[a].generation == w.nets[a].generation
  {
    hide CircuitOpen, MayDispatch, CompareOk, HostApply;
  }

  /** The only steps that touch a stored generation are the two that write one. */
  lemma StoredBy(w: World, action: Action)
    requires LooseBooks(w)
    ensures var v, now := Do(w, action), Happened(w, action);
            if now != [] && Writes(now[0])
            then now[0].job in w.host.trace
                 && forall a | a in w.nets :: a in v.nets && v.nets[a].generation ==
                      if w.host.owner == Some(a) then Gen(w, now[0].job) else w.nets[a].generation
            else forall a | a in w.nets :: a in v.nets && v.nets[a].generation == w.nets[a].generation
  {
    hide Do, Happened, LooseBooks;
    var now := Happened(w, action);
    if now != [] && Writes(now[0]) {
      WritesBy(w, action);
    } else {
      ElseKept(w, action);
    }
  }

  lemma KeptStep(w: World, log: seq<Event>, action: Action)
    requires LooseBooks(w) && Named(w, log) && Kept(w, log)
    ensures Named(Do(w, action), log + Happened(w, action)) && Kept(Do(w, action), log + Happened(w, action))
  {
    var v, now, q := Do(w, action), Happened(w, action), Last(Stores, log);
    NamedStep(w, log, action);
    TraceGrows(w, action);
    LastNow(Stores, w, log, action);
    StoredBy(w, action);
    Lasting(w, action);
    hide Do, Happened, Kept;
    if now != [] && Writes(now[0]) {
      OwnerKnown(w, now[0].job);
      NewStore(w, v, log, now[0]);
    } else {
      if q >= 0 {
        OwnerKnown(w, log[q].job);
      }
      SameStore(w, v, log, now);
    }
  }

  lemma NewStore(w: World, v: World, log: seq<Event>, e: Event)
    requires Named(w, log) && Kept(w, log) && Named(v, log + [e]) && Last(Stores, log + [e]) == |log|
    requires w.host.owner.Some? && v.host.owner == w.host.owner && w.host.owner.value in w.nets
    requires e.job in w.host.trace && Gen(v, e.job) == Gen(w, e.job)
    requires forall a | a in w.nets :: a in v.nets && v.nets[a].generation ==
               if w.host.owner == Some(a) then Gen(w, e.job) else w.nets[a].generation
    requires forall a | a in v.nets && a !in w.nets :: v.nets[a] == Net(New, 0, false)
    ensures Kept(v, log + [e])
  {
    hide Named;
  }

  lemma SameStore(w: World, v: World, log: seq<Event>, now: seq<Event>)
    requires Named(w, log) && Kept(w, log) && Named(v, log + now) && Last(Stores, log + now) == Last(Stores, log)
    requires w.host.owner.Some? ==> v.host.owner == w.host.owner
    requires Last(Stores, log) >= 0 ==>
               && w.host.owner.Some? && w.host.owner.value in w.nets
               && log[Last(Stores, log)].job in w.host.trace
               && Gen(v, log[Last(Stores, log)].job) == Gen(w, log[Last(Stores, log)].job)
    requires forall a | a in w.nets :: a in v.nets && v.nets[a].generation == w.nets[a].generation
    requires forall a | a in v.nets && a !in w.nets :: v.nets[a] == Net(New, 0, false)
    ensures Kept(v, log + now)
  {
    var q := Last(Stores, log);
    assert q >= 0 ==> (log + now)[q] == log[q];
    assert forall a | a in w.nets && 0 < w.nets[a].generation :: w.host.owner == Some(a);
    hide Named;
  }

  lemma PendingStays(w: World, action: Action, j: nat)
    requires LooseJobs(w) && PendingIn(w, j) && w.jobs[j].approval in w.nets
    ensures PendingIn(Do(w, action), j) || (Happened(w, action) != [] && Happened(w, action)[0].Committed?)
  {
    hide CircuitOpen, CompareOk, HostApply, MayDispatch;
  }

  /** Only a commit can close the circuit. */
  lemma CircuitStays(w: World, action: Action)
    requires LooseBooks(w) && CircuitOpen(w)
    ensures var now := Happened(w, action); (now != [] && now[0].Committed?) || CircuitOpen(Do(w, action))
  {
    hide Do, Happened, ReachBooks, HostBooks, LooseJobs;
    var j :| j in w.jobs && Pending(w.jobs[j]);
    PendingStays(w, action, j);
    if PendingIn(Do(w, action), j) {
      StillOpen(Do(w, action), j);
    }
  }

  lemma StillOpen(w: World, j: nat)
    requires PendingIn(w, j)
    ensures CircuitOpen(w)
  {
  }

  predicate Decides(now: seq<Event>) { now != [] && (now[0].Committed? || now[0].Revoked?) }

  lemma StagedNow(w: World, action: Action)
    requires LooseBooks(w) && Decides(Happened(w, action))
    ensures var v, e := Do(w, action), Happened(w, action)[0];
            && e.job in w.host.trace
            && forall a | a in w.nets :: a in v.nets && v.nets[a].stage ==
                 if w.host.owner != Some(a) then w.nets[a].stage else if e.Committed? then StageBy(e.active) else Blocked
  {
    hide ReachBooks, CircuitOpen, MayDispatch, CompareOk, HostApply;
  }

  lemma StagedElse(w: World, action: Action)
    requires LooseJobs(w) && (forall j | j in w.jobs :: w.jobs[j].approval in w.nets) && !Decides(Happened(w, action))
    ensures var v := Do(w, action);
            forall a | a in w.nets :: a in v.nets && (v.nets[a].stage == w.nets[a].stage
              || (v.nets[a].stage == Blocked && (action.Quarantine? || action.Recover?) && PendingIn(v, action.job)))
  {
    hide CircuitOpen, MayDispatch, CompareOk, HostApply;
  }

  /** The only steps that change a stage. */
  lemma StagedBy(w: World, action: Action)
    requires LooseBooks(w)
    ensures var v, now := Do(w, action), Happened(w, action);
            if Decides(now)
            then now[0].job in w.host.trace
                 && forall a | a in w.nets :: a in v.nets && v.nets[a].stage ==
                      if w.host.owner != Some(a) then w.nets[a].stage
                      else if now[0].Committed? then StageBy(now[0].active) else Blocked
            else forall a | a in w.nets :: a in v.nets && (v.nets[a].stage == w.nets[a].stage
                   || (v.nets[a].stage == Blocked && (action.Quarantine? || action.Recover?) && PendingIn(v, action.job)))
  {
    hide Do, Happened, ReachBooks, HostBooks;
    if Decides(Happened(w, action)) {
      StagedNow(w, action);
    } else {
      StagedElse(w, action);
    }
  }

  lemma ClaimedStep(w: World, log: seq<Event>, action: Action)
    requires LooseBooks(w) && Named(w, log) && Claimed(w, log)
    ensures Claimed(Do(w, action), log + Happened(w, action))
  {
    hide Do, Happened, LooseBooks, CircuitOpen, Claimed, PendingIn, Named, Withdrawn;
    var v, now, n := Do(w, action), Happened(w, action), Last(Commits, log);
    LastNow(Commits, w, log, action);
    StagedBy(w, action);
    Lasting(w, action);
    if now == [] {
      assert log + now == log;
    } else {
      assert now == [now[0]];
      WithdrawnGrows(log, now[0]);
    }
    if Decides(now) {
      OwnerKnown(w, now[0].job);
      NewClaim(w, v, log, now[0]);
    } else {
      if n >= 0 {
        NamesAt(w, log, n);
        OwnerKnown(w, log[n].job);
      }
      if CircuitOpen(w) {
        CircuitStays(w, action);
      }
      if (action.Quarantine? || action.Recover?) && PendingIn(v, action.job) {
        StillOpen(v, action.job);
      }
      SameClaim(w, v, log, now);
    }
  }

  lemma NamesAt(w: World, log: seq<Event>, i: int)
    requires Named(w, log) && 0 <= i < |log|
    ensures log[i].job in w.host.trace
  {
    assert Names(w, log[i]);
  }

  lemma NewClaim(w: World, v: World, log: seq<Event>, e: Event)
    requires Claimed(w, log) && (e.Committed? || e.Revoked?)
    requires Last(Commits, log + [e]) == (if e.Committed? then |log| else Last(Commits, log))
    requires Withdrawn(log + [e]) <==> e.Revoked?
    requires w.host.owner.Some? && v.host.owner == w.host.owner && w.host.owner.value in w.nets
    requires forall a | a in w.nets :: a in v.nets && v.nets[a].stage ==
               if w.host.owner != Some(a) then w.nets[a].stage else if e.Committed? then StageBy(e.active) else Blocked
    requires forall a | a in v.nets && a !in w.nets :: v.nets[a] == Net(New, 0, false)
    ensures Claimed(v, log + [e])
  {
    hide CircuitOpen, Withdrawn;
  }

  lemma SameClaim(w: World, v: World, log: seq<Event>, now: seq<Event>)
    requires Claimed(w, log) && Last(Commits, log + now) == Last(Commits, log) && (Withdrawn(log + now) <==> Withdrawn(log))
    requires w.host.owner.Some? ==> v.host.owner == w.host.owner
    requires Last(Commits, log) >= 0 ==> w.host.owner.Some? && w.host.owner.value in w.nets
    requires forall a | a in w.nets :: a in v.nets && (v.nets[a].stage == w.nets[a].stage
               || (v.nets[a].stage == Blocked && CircuitOpen(v)))
    requires CircuitOpen(w) ==> CircuitOpen(v)
    requires forall a | a in v.nets && a !in w.nets :: v.nets[a] == Net(New, 0, false)
    ensures Claimed(v, log + now)
  {
    hide CircuitOpen, Withdrawn;
    var n := Last(Commits, log);
    assert n >= 0 ==> (log + now)[n] == log[n];
  }

  lemma {:induction false} ToldRun(actions: seq<Action>)
    ensures LooseBooks(DoAll(GENESIS, actions)) && Told(DoAll(GENESIS, actions), History(actions))
  {
    LooseRun(actions);
    if actions != [] {
      var front, last := actions[..|actions| - 1], actions[|actions| - 1];
      ToldRun(front);
      var w, log := DoAll(GENESIS, front), History(front);
      hide Do, Happened, LooseBooks, Ordered, Separated, Hosted, Kept, Claimed;
      OrderedStep(w, log, last);
      SeparatedStep(w, log, last);
      HostedStep(w, log, last);
      KeptStep(w, log, last);
      ClaimedStep(w, log, last);
    }
  }

  // ----- runs in which no call gets stuck -----

  predicate Fluent(w: World) { forall j | j in w.jobs :: !Stuck(w, j) }

  predicate AckedCall(w: World) { exists h | h in w.live :: w.live[h].Acked? }

  /** A readback of `k`, then an apply, both before `q`. */
  predicate Overtaken(log: seq<Event>, k: nat, q: int) {
    exists m, p | 0 <= m < p < q && p < |log| :: log[m] == Passed(k) && log[p].Applied?
  }

  predicate Excused(w: World, log: seq<Event>, q: int)
    requires 0 <= q < |log|
  {
    var k := log[q].job;
    && log[q].Recovered? && Overtaken(log, k, q)
    && ((k in w.live && w.live[k].Checked?) || CommittedAfter(log, k, q))
  }

  /** The stored generation is the host's, unless an acknowledged change is still to be stored or a
      call overtaken after its readback was recovered. */
  predicate Current(w: World, log: seq<Event>)
    requires Named(w, log)
  {
    var q := Last(Stores, log);
    || (if q < 0 then w.host.generation == 0 else Gen(w, log[q].job) == w.host.generation)
    || AckedCall(w)
    || (q >= 0 && Excused(w, log, q))
  }

  lemma ExcuseStays(w: World, v: World, log: seq<Event>, now: seq<Event>, q: int)
    requires 0 <= q < |log| && Excused(w, log, q)
    requires forall k | k in w.live && w.live[k].Checked? ::
               (k in v.live && v.live[k].Checked?) || (now != [] && now[0].Committed? && now[0].job == k)
    ensures Excused(v, log + now, q)
  {
    var k := log[q].job;
    var m, p :| 0 <= m < p < q && p < |log| && log[m] == Passed(k) && log[p].Applied?;
    assert (log + now)[q] == log[q] && (log + now)[m] == Passed(k) && (log + now)[p] == log[p];
    if CommittedAfter(log, k, q) {
      CommittedStays(log, now, k, q);
    } else if !(k in v.live && v.live[k].Checked?) {
      assert (log + now)[|log|] == now[0];
    }
  }

  /** When no call gets stuck, calls end only by committing. */
  lemma FluentLive(w: World, action: Action)
    requires LooseBooks(w) && LooseBooks(Do(w, action)) && Fluent(Do(w, action))
    ensures var v := Do(w, action);
            && (forall j | j in v.live :: v.live[j] != Failing)
            && (forall j | j in w.live :: j in v.live || (action == Verify(j) && w.live[j].Checked?))
  {
    var v := Do(w, action);
    hide CircuitOpen, MayDispatch, OwnerBooks, HostBooks, ReachBooks;
    forall j | j in v.live
      ensures v.live[j] != Failing
    {
      assert !Stuck(v, j);
    }
    forall j | j in w.live && j !in v.live
      ensures action == Verify(j) && w.live[j].Checked?
    {
      assert !Stuck(v, j);
    }
  }

  /** How one step can move one call. */
  lemma Moved(w: World, action: Action, k: nat)
    requires k in w.live && k in w.jobs && k in Do(w, action).live
    ensures var p, q := w.live[k], Do(w, action).live[k];
            || p == q
            || (p == Sent && (q.Acked? || q == Failing))
            || (p.Acked? && q.Owned? && Happened(w, action) == [Stored(k)])
            || (p.Owned? && (q.Checked? || q == Failing))
  {
    hide CircuitOpen, MayDispatch, CompareOk, HostApply, MayRecover;
  }

  lemma Gone(w: World, action: Action, k: nat)
    requires k in w.live && k in w.jobs && w.jobs[k].approval in w.nets && action == Verify(k) && w.live[k].Checked?
    ensures Happened(w, action) == [Committed(k, w.jobs[k].op == Activate)]
  {
  }

  /** A call past its readback stays there until it commits. */
  lemma CheckedStays(w: World, action: Action, k: nat)
    requires LooseBooks(w) && LooseBooks(Do(w, action)) && Fluent(Do(w, action)) && k in w.live && w.live[k].Checked?
    ensures var v, now := Do(w, action), Happened(w, action);
            (k in v.live && v.live[k].Checked?) || (now != [] && now[0].Committed? && now[0].job == k)
  {
    FluentLive(w, action);
    if k in Do(w, action).live {
      Moved(w, action, k);
    } else {
      Gone(w, action, k);
    }
    hide Do, Happened, Fluent;
  }

  lemma AppliedIsAcked(w: World, action: Action)
    requires LooseBooks(w) && LooseBooks(Do(w, action)) && Fluent(Do(w, action))
    requires Happened(w, action) != [] && Happened(w, action)[0].Applied?
    ensures AckedCall(Do(w, action))
  {
    FluentLive(w, action);
    var v := Do(w, action);
    assert action.job in v.live && v.live[action.job].Acked?;
  }

  lemma AckedStays(w: World, action: Action)
    requires LooseBooks(w) && LooseBooks(Do(w, action)) && Fluent(Do(w, action)) && AckedCall(w)
    requires Happened(w, action) == [] || !Happened(w, action)[0].Stored?
    ensures AckedCall(Do(w, action))
  {
    var h :| h in w.live && w.live[h].Acked?;
    FluentLive(w, action);
    Moved(w, action, h);
    AckedIs(Do(w, action), h);
    hide Do, Happened, Fluent, AckedCall;
  }

  lemma AckedIs(v: World, h: nat)
    requires h in v.live && v.live[h].Acked?
    ensures AckedCall(v)
  {
  }

  lemma StoredIsCurrent(w: World, action: Action)
    requires LooseBooks(w) && Fluent(w) && Happened(w, action) != [] && Happened(w, action)[0].Stored?
    ensures var j := Happened(w, action)[0].job; j in w.host.trace && Gen(w, j) == w.host.generation
  {
    assert !Stuck(w, action.job);
  }

  /** A call that passed its readback and is no longer the host's last change has been overtaken. */
  lemma PassedIsOvertaken(w: World, log: seq<Event>, k: nat)
    requires LooseBooks(w) && Told(w, log) && k in w.live && w.live[k].Checked?
    requires k in w.host.trace && Gen(w, k) != w.host.generation
    ensures Overtaken(log, k, |log|)
  {
    var m :| 0 <= m < |log| && log[m] == Passed(k);
    var p := Last(Applies, log);
    assert Gen(w, k) <= w.host.generation;
    assert p >= 0 && Names(w, log[p]) && p != m;
    assert !(p < m);
  }

  lemma OvertakenStays(log: seq<Event>, e: Event, k: nat)
    requires Overtaken(log, k, |log|)
    ensures Overtaken(log + [e], k, |log|)
  {
    var m, p :| 0 <= m < p < |log| && log[m] == Passed(k) && log[p].Applied?;
    assert (log + [e])[m] == Passed(k) && (log + [e])[p] == log[p];
  }

  /** `recover` writes the host's own generation, or the job has been overtaken after its readback. */
  lemma RecoveredIsExcused(w: World, log: seq<Event>, action: Action)
    requires LooseBooks(w) && Told(w, log) && Fluent(w) && action.Recover? && Happened(w, action) != []
    ensures var k, v := action.job, Do(w, action);
            && Happened(w, action) == [Recovered(k)] && k in w.host.trace && v.host == w.host
            && (Gen(w, k) == w.host.generation || Excused(v, log + [Recovered(k)], |log|))
  {
    var k, v, longer := action.job, Do(w, action), log + [Recovered(action.job)];
    assert longer[|log|] == Recovered(k) && v.live == w.live;
    RecoverableIsChecked(w, k, action.a);
    if Gen(w, k) != w.host.generation {
      PassedIsOvertaken(w, log, k);
      OvertakenStays(log, Recovered(k), k);
    }
    hide LooseBooks, Told, Fluent, CommittedAfter, Overtaken;
  }

  lemma RecoverableIsChecked(w: World, k: nat, a: nat)
    requires LooseBooks(w) && Fluent(w) && MayRecover(w, k, a)
    ensures k in w.host.trace && (Gen(w, k) == w.host.generation || (k in w.live && w.live[k].Checked?))
  {
    assert !Stuck(w, k);
  }

  lemma CurrentStep(w: World, log: seq<Event>, action: Action)
    requires LooseBooks(w) && LooseBooks(Do(w, action)) && Fluent(w) && Fluent(Do(w, action))
    requires Told(w, log) && Current(w, log) && Named(Do(w, action), log + Happened(w, action))
    ensures Current(Do(w, action), log + Happened(w, action))
  {
    hide Do, Happened, LooseBooks, Fluent, Excused, AckedCall, Ordered, Separated, Hosted, Kept, Claimed, Named, Current;
    var v, now := Do(w, action), Happened(w, action);
    LastNow(Stores, w, log, action);
    TraceGrows(w, action);
    if now != [] && now[0].Applied? {
      AppliedIsAcked(w, action);
      CurrentByCall(v, log + now);
    } else {
      SameHost(w, action);
      if now != [] && now[0].Stored? {
        StoredIsCurrent(w, action);
        CurrentByStore(v, log + now, |log|);
      } else if now != [] && now[0].Recovered? {
        RecoverOnly(w, action);
        RecoveredIsExcused(w, log, action);
        CurrentByStore(v, log + now, |log|);
      } else {
        CurrentStays(w, log, action);
      }
    }
  }

  lemma RecoverOnly(w: World, action: Action)
    requires Happened(w, action) != [] && Happened(w, action)[0].Recovered?
    ensures action.Recover?
  {
  }

  lemma CurrentByCall(v: World, log: seq<Event>)
    requires Named(v, log) && AckedCall(v)
    ensures Current(v, log)
  {
  }

  lemma CurrentByStore(v: World, log: seq<Event>, q: int)
    requires Named(v, log) && 0 <= q < |log| && Last(Stores, log) == q
    requires (Names(v, log[q]) && Gen(v, log[q].job) == v.host.generation) || Excused(v, log, q)
    ensures Current(v, log)
  {
  }

  /** Any other step leaves host and writes alone. */
  lemma CurrentStays(w: World, log: seq<Event>, action: Action)
    requires LooseBooks(w) && LooseBooks(Do(w, action)) && Fluent(Do(w, action)) && Do(w, action).host == w.host
    requires Happened(w, action) == [] || Happened(w, action)[0].Passed? || Happened(w, action)[0].Committed? || Happened(w, action)[0].Revoked?
    requires Named(w, log) && Current(w, log) && Named(Do(w, action), log + Happened(w, action))
    ensures Current(Do(w, action), log + Happened(w, action))
  {
    hide Do, Happened, LooseBooks, Fluent, Excused, AckedCall, Named, Current;
    var v, now, q := Do(w, action), Happened(w, action), Last(Stores, log);
    LastNow(Stores, w, log, action);
    if AckedCall(w) {
      AckedStays(w, action);
    }
    if q >= 0 && Excused(w, log, q) {
      forall k | k in w.live && w.live[k].Checked?
        ensures (k in v.live && v.live[k].Checked?) || (now != [] && now[0].Committed? && now[0].job == k)
      {
        CheckedStays(w, action, k);
      }
      ExcuseStays(w, v, log, now, q);
    }
    CurrentSame(w, v, log, now);
  }

  lemma CurrentSame(w: World, v: World, log: seq<Event>, now: seq<Event>)
    requires Named(w, log) && Current(w, log) && Named(v, log + now) && v.host == w.host
    requires Last(Stores, log + now) == Last(Stores, log)
    requires AckedCall(w) ==> AckedCall(v)
    requires var q := Last(Stores, log); q >= 0 && Excused(w, log, q) ==> Excused(v, log + now, q)
    ensures Current(v, log + now)
  {
    hide AckedCall, Excused;
    var q := Last(Stores, log);
    assert q >= 0 ==> (log + now)[q] == log[q];
  }

  lemma SameHost(w: World, action: Action)
    requires LooseBooks(w) && (Happened(w, action) == [] || !Happened(w, action)[0].Applied?)
    ensures Do(w, action).host == w.host
  {
  }

  /** A run that ends with a closed circuit never had a stuck call. */
  lemma FluentRun(actions: seq<Action>, n: nat)
    requires n <= |actions| && !CircuitOpen(DoAll(GENESIS, actions))
    ensures Fluent(DoAll(GENESIS, actions[..n]))
  {
    var w := DoAll(GENESIS, actions[..n]);
    assert actions == actions[..n] + actions[n..];
    DoAllSplits(GENESIS, actions[..n], actions[n..]);
    LooseRun(actions[..n]);
    forall j | j in w.jobs
      ensures !Stuck(w, j)
    {
      if Stuck(w, j) {
        CircuitIsPermanent(w, actions[n..], j);
        StuckIsPending(DoAll(GENESIS, actions), j);
        StillOpen(DoAll(GENESIS, actions), j);
      }
    }
  }

  lemma {:induction false} CurrentRun(actions: seq<Action>, n: nat)
    requires n <= |actions| && !CircuitOpen(DoAll(GENESIS, actions))
    ensures Named(DoAll(GENESIS, actions[..n]), History(actions[..n]))
    ensures Current(DoAll(GENESIS, actions[..n]), History(actions[..n]))
  {
    hide Do, Happened, LooseBooks, Fluent, CircuitOpen, Ordered, Separated, Hosted, Kept, Claimed;
    ToldRun(actions[..n]);
    if n > 0 {
      hide Current, Named;
      var before := actions[..n - 1];
      CurrentRun(actions, n - 1);
      FluentRun(actions, n - 1);
      FluentRun(actions, n);
      ToldRun(before);
      assert actions[..n][..n - 1] == before;
      CurrentStep(DoAll(GENESIS, before), History(before), actions[n - 1]);
    }
  }

  // ----- the exact condition -----

  /** What a closed circuit says: every call has been committed. */
  lemma ClosedIsQuiet(w: World)
    requires LooseBooks(w) && !CircuitOpen(w)
    ensures w.live == map[] && forall j | j in w.jobs :: w.jobs[j].status == Verified
  {
    forall j | j in w.jobs
      ensures w.jobs[j].status == Verified
    {
      assert !Pending(w.jobs[j]);
    }
    assert forall j | j in w.live :: false;
  }

  lemma LastIs(k: Kind, log: seq<Event>, n: int)
    requires 0 <= n < |log| && Is(k, log[n]) && forall i | n < i < |log| :: !Is(k, log[i])
    ensures Last(k, log) == n
  {
  }

  /** A call overtaken by the last apply, in the other mode, was read back before it. */
  lemma OtherModeIsLater(w: World, log: seq<Event>, m: nat, n: nat, p: nat)
    requires LooseBooks(w) && Named(w, log) && Separated(w, log) && Hosted(w, log) && p == Last(Applies, log)
    requires m < |log| && n < |log| && p < |log| && log[m].Passed? && log[n].Committed? && log[m].job == log[n].job
    requires log[p].active != log[n].active
    ensures m < p
  {
    hide LooseBooks;
    assert Names(w, log[n]) && Names(w, log[p]) && Names(w, log[m]);
    OtherMode(w, log[m].job, log[p].job);
  }

  lemma OtherMode(w: World, j: nat, k: nat)
    requires LooseBooks(w) && j in w.host.trace && k in w.host.trace && Mode(w, j) != Mode(w, k)
    ensures Gen(w, k) == w.host.generation ==> Gen(w, j) < w.host.generation
  {
    hide ReachBooks;
  }

  lemma ReadBackFirst(w: World, log: seq<Event>, n: nat) returns (m: nat)
    requires Ordered(w, log) && n < |log| && log[n].Committed?
    ensures m < n && log[m] == Passed(log[n].job)
  {
    assert PassedBefore(log, log[n].job, n);
    m :| 0 <= m < n && log[m] == Passed(log[n].job);
  }

  lemma ModeOnlyIf(w: World, log: seq<Event>)
    requires LooseBooks(w) && Told(w, log) && !CircuitOpen(w) && Last(Commits, log) >= 0 && Last(Applies, log) >= 0
    requires log[Last(Applies, log)].active != log[Last(Commits, log)].active
    ensures StaleMode(log)
  {
    hide LooseBooks, Ordered, Separated, Hosted, Kept, Claimed, Named, CircuitOpen;
    var p, n := Last(Applies, log), Last(Commits, log);
    var m := ReadBackFirst(w, log, n);
    OtherModeIsLater(w, log, m, n, p);
    AppliedIsCommitted(w, log, p, n);
    assert ModeWindow(log, m, p, n);
  }

  lemma AppliedIsCommitted(w: World, log: seq<Event>, p: nat, n: nat)
    requires LooseBooks(w) && Named(w, log) && Ordered(w, log) && Separated(w, log) && !CircuitOpen(w)
    requires p < |log| && log[p].Applied? && n == Last(Commits, log)
    ensures p < n
  {
    ClosedIsQuiet(w);
    assert Names(w, log[p]);
    OwnerKnown(w, log[p].job);
    hide LooseBooks, CircuitOpen;
    assert CommittedAfter(log, log[p].job, -1);
    var i :| 0 <= i < |log| && log[i].Committed? && log[i].job == log[p].job;
    assert p < i <= n;
  }

  lemma ModeIf(log: seq<Event>)
    requires StaleMode(log)
    ensures Last(Applies, log) >= 0 && Last(Commits, log) >= 0
    ensures log[Last(Applies, log)].active != log[Last(Commits, log)].active
  {
    var m, p, n :| ModeWindow(log, m, p, n);
    LastIs(Applies, log, p);
    LastIs(Commits, log, n);
  }

  lemma GenerationOnlyIf(w: World, log: seq<Event>)
    requires LooseBooks(w) && Named(w, log) && Current(w, log) && !CircuitOpen(w) && Last(Stores, log) >= 0
    requires Gen(w, log[Last(Stores, log)].job) != w.host.generation
    ensures StaleGeneration(log)
  {
    var q := Last(Stores, log);
    ClosedIsQuiet(w);
    assert !AckedCall(w);
    ExcuseShows(w, log, q);
    hide LooseBooks, Named, CircuitOpen, Excused, StaleGeneration;
  }

  lemma ExcuseShows(w: World, log: seq<Event>, q: int)
    requires 0 <= q < |log| && q == Last(Stores, log)
    ensures Excused(w, log, q) && w.live == map[] ==> StaleGeneration(log)
  {
    if Excused(w, log, q) && w.live == map[] {
      var k := log[q].job;
      var m, p :| 0 <= m < p < q && log[m] == Passed(k) && log[p].Applied?;
      var n :| 0 <= n < |log| && q < n && log[n].Committed? && log[n].job == k;
      hide Excused;
      assert GenerationWindow(log, m, p, q, n);
    }
  }

  lemma GenerationIf(w: World, log: seq<Event>)
    requires LooseBooks(w) && Named(w, log) && Separated(w, log) && StaleGeneration(log)
    ensures Last(Stores, log) >= 0 && Gen(w, log[Last(Stores, log)].job) != w.host.generation
    ensures Last(Commits, log) >= 0
  {
    var m, p, q, n :| GenerationWindow(log, m, p, q, n);
    LastIs(Stores, log, q);
    LaterIsHigher(w, log, m, p);
    hide LooseBooks, Named, Separated;
  }

  lemma LaterIsHigher(w: World, log: seq<Event>, m: nat, p: nat)
    requires LooseBooks(w) && Named(w, log) && Separated(w, log)
    requires m < p < |log| && log[m].Passed? && log[p].Applied?
    ensures Gen(w, log[m].job) < w.host.generation
  {
    assert Names(w, log[p]) && Names(w, log[m]);
    assert Gen(w, log[m].job) < Gen(w, log[p].job) <= w.host.generation;
    hide ReachBooks;
  }

  lemma Installed(w: World, log: seq<Event>)
    requires LooseBooks(w) && Named(w, log) && Claimed(w, log) && !CircuitOpen(w) && Last(Commits, log) >= 0 && !Withdrawn(log)
    ensures var a := w.host.owner;
            && a.Some? && a.value in w.nets && w.nets[a.value].stage == StageBy(log[Last(Commits, log)].active)
            && w.host.generation > 0
            && forall b | b in w.nets && w.nets[b].stage in {Booted, Active} :: Some(b) == a
  {
    NamesAt(w, log, Last(Commits, log));
    OwnerKnown(w, log[Last(Commits, log)].job);
    hide ReachBooks, CircuitOpen, Withdrawn, Named;
  }

  lemma RulesAre(w: World, log: seq<Event>)
    requires LooseBooks(w) && Named(w, log) && Hosted(w, log) && Last(Applies, log) >= 0 && w.host.owner.Some?
    ensures w.host.rules == Some(RuleSet(w.host.owner.value, log[Last(Applies, log)].active))
  {
    var p := Last(Applies, log);
    assert Names(w, log[p]);
    OwnerKnown(w, log[p].job);
    hide ReachBooks;
  }

  lemma SettledIs(w: World, log: seq<Event>)
    requires LooseBooks(w) && Told(w, log) && Current(w, log) && !CircuitOpen(w)
    ensures var n, p, q := Last(Commits, log), Last(Applies, log), Last(Stores, log);
            if n < 0 || Withdrawn(log) then Settled(w)
            else p >= 0 && q >= 0
                 && (Settled(w) <==> log[p].active == log[n].active && Gen(w, log[q].job) == w.host.generation)
  {
    var n, p, q := Last(Commits, log), Last(Applies, log), Last(Stores, log);
    hide Withdrawn;
    if n >= 0 && !Withdrawn(log) {
      Installed(w, log);
      StoresSomething(w, log);
      assert p >= 0;
      RulesAre(w, log);
      SettledFor(w, log);
    }
    hide LooseBooks, CircuitOpen, Ordered, Separated, Named, Settled;
  }

  lemma StoresSomething(w: World, log: seq<Event>)
    requires LooseBooks(w) && Named(w, log) && Current(w, log) && !CircuitOpen(w) && w.host.generation > 0
    ensures Last(Stores, log) >= 0
  {
    ClosedIsQuiet(w);
    hide LooseBooks, CircuitOpen;
  }

  lemma SettledFor(w: World, log: seq<Event>)
    requires Named(w, log) && Kept(w, log) && w.host.owner.Some? && w.host.owner.value in w.nets
    requires Last(Commits, log) >= 0 && Last(Applies, log) >= 0 && Last(Stores, log) >= 0
    requires w.nets[w.host.owner.value].stage == StageBy(log[Last(Commits, log)].active)
    requires w.host.rules == Some(RuleSet(w.host.owner.value, log[Last(Applies, log)].active))
    requires forall b | b in w.nets && w.nets[b].stage in {Booted, Active} :: Some(b) == w.host.owner
    ensures log[Last(Stores, log)].job in w.host.trace
    ensures Settled(w) <==> && log[Last(Applies, log)].active == log[Last(Commits, log)].active
                            && Gen(w, log[Last(Stores, log)].job) == w.host.generation
  {
    assert Names(w, log[Last(Stores, log)]);
    assert w.nets[w.host.owner.value].generation == Gen(w, log[Last(Stores, log)].job);
    hide Named, Kept;
  }

  /** For every interleaving, overlapping calls and crashes included, that ends with nothing dispatched
      or quarantined: what the store calls installed is what the host runs, unless one of two things
      happened between some call's readback and its commit.  Either the last change of all reached the
      host there and was of the other mode; or another change reached the host there and `recover` then
      wrote the overtaken call's generation, with nothing stored after it.  Neither matters once a call
      that raised after its commit has withdrawn the claim. */
  lemma SettledExact(actions: seq<Action>)
    requires !CircuitOpen(DoAll(GENESIS, actions))
    ensures var log := History(actions);
            Settled(DoAll(GENESIS, actions)) <==> Withdrawn(log) || (!StaleMode(log) && !StaleGeneration(log))
  {
    hide Settled, LooseBooks, Ordered, Separated, Hosted, Kept, Claimed, Named, Current, CircuitOpen, StaleMode, StaleGeneration, Withdrawn;
    var w, log := DoAll(GENESIS, actions), History(actions);
    assert actions[..|actions|] == actions;
    ToldRun(actions);
    CurrentRun(actions, |actions|);
    SettledIs(w, log);
    if StaleMode(log) {
      ModeIf(log);
    }
    if StaleGeneration(log) {
      GenerationIf(w, log);
    }
    if Last(Commits, log) >= 0 && !Settled(w) {
      if log[Last(Applies, log)].active != log[Last(Commits, log)].active {
        ModeOnlyIf(w, log);
      } else {
        GenerationOnlyIf(w, log);
      }
    }
  }
}
