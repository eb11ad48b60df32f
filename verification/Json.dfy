/**
The two bounded JSON parsers: recursive descent with a cursor, a node budget and limits on depth,
strings, arrays and numbers.  They accept subsets of sections 4 to 7 of RFC 8259 without exponents;
the `Nft` one has neither fractions nor booleans, the `Topology` one has both and keeps fractions
as exact tokens.  The parser works on the decoded characters, the entry point on bytes.
*/
module Json {
  import opened Base
  import opened JsonText
  import Utf = Utf8

  datatype Dialect = Nft | Topology

  const MAX_DEPTH := 32
  const MAX_OBJECTS := 128
  const MAX_EXPRESSIONS := 64
  const MAX_ROWS := 1024
  const MAX_DIGITS := 19
  const INT_MIN := -0x8000_0000_0000_0000
  const INT_MAX := 0x7FFF_FFFF_FFFF_FFFF

  function MaxBytes(d: Dialect): nat { if d == Nft then 262144 else 1048576 }

  function MaxNodes(d: Dialect): nat { if d == Nft then 32768 else 65536 }

  function MaxStringBytes(d: Dialect): nat { if d == Nft then 256 else 512 }

  datatype Reason =
    | Invalid | SizeInvalid | EncodingInvalid | NodesLimit | DepthLimit | StringLimit | ArrayLimit
    | IntegerInvalid | DecimalInvalid | DuplicateKey

  datatype Value =
    | Null
    | Bool(b: bool)
    | Int(n: int)
    | Dec(token: string)
    | Str(s: string)
    | Arr(items: seq<Value>)
    | Obj(members: seq<Member>)

  datatype Member = Member(key: string, value: Value)

  datatype Step = Key(key: string) | Index(i: nat)

  /** How many elements an array at this path may have. */
  function ArrayLimitAt(d: Dialect, path: seq<Step>): nat {
    if d == Topology then MAX_ROWS
    else if path == [Key("nftables")] then MAX_OBJECTS
    else if path != [] && path[|path| - 1] == Key("expr") then MAX_EXPRESSIONS
    else MaxNodes(d)
  }

  // ----- characters -----

  predicate IsSpace(c: char) { c == ' ' || c == '\t' || c == '\r' || c == '\n' }

  /** Length of a character in UTF-8. */
  function Utf8(c: char): nat {
    var n := c as int;
    if n < 0x80 then 1 else if n < 0x800 then 2 else if n < 0x1_0000 then 3 else 4
  }

  function Utf8Size(s: string): nat {
    if s == [] then 0 else Utf8Size(s[..|s| - 1]) + Utf8(s[|s| - 1])
  }

  function HexValue(c: char): Option<nat> {
    if '0' <= c <= '9' then Some(c as int - '0' as int)
    else if 'a' <= c <= 'f' then Some(c as int - 'a' as int + 10)
    else if 'A' <= c <= 'F' then Some(c as int - 'A' as int + 10)
    else None
  }

  function ShortEscape(c: char): Option<char> {
    match c
    case '\"' => Some('\"')
    case '\\' => Some('\\')
    case '/' => Some('/')
    case 'b' => Some('\U{8}')
    case 'f' => Some('\U{c}')
    case 'n' => Some('\n')
    case 'r' => Some('\r')
    case 't' => Some('\t')
    case _ => None
  }

  // ----- the grammar, as functions of text and cursor -----

  datatype Got<+T> = Got(value: T, at: nat)

  function SkipSpace(text: string, at: nat): (end: nat)
    requires at <= |text|
    ensures at <= end <= |text| && (end < |text| ==> !IsSpace(text[end]))
    decreases |text| - at
  {
    if at < |text| && IsSpace(text[at]) then SkipSpace(text, at + 1) else at
  }

  function Take(text: string, at: nat, c: char): (r: Result<nat, Reason>)
    requires at <= |text|
    ensures r.Ok? ==> at < r.value <= |text|
  {
    var here := SkipSpace(text, at);
    if here < |text| && text[here] == c then Ok(here + 1) else Err(Invalid)
  }

  function Hex4(text: string, at: nat): (r: Result<Got<nat>, Reason>)
    requires at <= |text|
    ensures r.Ok? ==> r.value.at == at + 4 <= |text| && r.value.value < 0x1_0000
  {
    if at + 4 > |text| then Err(Invalid)
    else
      var a, b, c, d := HexValue(text[at]), HexValue(text[at + 1]), HexValue(text[at + 2]), HexValue(text[at + 3]);
      if a.None? || b.None? || c.None? || d.None? then Err(Invalid)
      else Ok(Got(a.value * 4096 + b.value * 256 + c.value * 16 + d.value, at + 4))
  }

  /** What follows a backslash, surrogate pairs included. */
  function Escape(text: string, at: nat): (r: Result<Got<char>, Reason>)
    requires at <= |text|
    ensures r.Ok? ==> at < r.value.at <= |text|
  {
    if at >= |text| then Err(Invalid)
    else if text[at] != 'u' then
      match ShortEscape(text[at])
      case Some(c) => Ok(Got(c, at + 1))
      case None => Err(Invalid)
    else
      match Hex4(text, at + 1)
      case Err(reason) => Err(reason)
      case Ok(Got(high, next)) =>
        if 0xD800 <= high <= 0xDBFF then
          if !(next + 2 <= |text| && text[next] == '\\' && text[next + 1] == 'u') then Err(Invalid)
          else
            match Hex4(text, next + 2)
            case Err(reason) => Err(reason)
            case Ok(Got(low, end)) =>
              if 0xDC00 <= low <= 0xDFFF then Ok(Got((0x1_0000 + (high - 0xD800) * 1024 + low - 0xDC00) as char, end))
              else Err(Invalid)
        else if 0xDC00 <= high <= 0xDFFF then Err(Invalid)
        else Ok(Got(high as char, next))
  }

  /** The rest of a string after its opening quote; `sofar` has been read, `size` is its UTF-8 length. */
  function Chars(d: Dialect, text: string, at: nat, sofar: string, size: nat): (r: Result<Got<string>, Reason>)
    requires at <= |text|
    ensures r.Ok? ==> at < r.value.at <= |text|
    decreases |text| - at
  {
    if at >= |text| then Err(Invalid)
    else if text[at] == '\"' then Ok(Got(sofar, at + 1))
    else if text[at] as int < 32 then Err(Invalid)
    else
      var one := if text[at] == '\\' then Escape(text, at + 1) else Ok(Got(text[at], at + 1));
      match one
      case Err(reason) => Err(reason)
      case Ok(Got(c, next)) =>
        if size + Utf8(c) > MaxStringBytes(d) then Err(StringLimit)
        else Chars(d, text, next, sofar + [c], size + Utf8(c))
  }

  function String(d: Dialect, text: string, at: nat): (r: Result<Got<string>, Reason>)
    requires at <= |text|
    ensures r.Ok? ==> at < r.value.at <= |text|
  {
    match Take(text, at, '\"')
    case Err(reason) => Err(reason)
    case Ok(next) => Chars(d, text, next, "", 0)
  }

  /** A fraction after the digits that end at `point`; the token keeps its trailing zeros. */
  function Fraction(text: string, at: nat, point: nat): (r: Result<Got<Value>, Reason>)
    requires at <= point < |text|
    ensures r.Ok? ==> point < r.value.at <= |text| && r.value.value.Dec? && ValidToken(r.value.value.token)
  {
    var end := SkipDigits(text, point + 1);
    if end - point - 1 > 6 || !ValidToken(text[at..end]) || (end < |text| && (text[end] == 'e' || text[end] == 'E'))
    then Err(DecimalInvalid)
    else Ok(Got(Dec(text[at..end]), end))
  }

  function Number(d: Dialect, text: string, at: nat): (r: Result<Got<Value>, Reason>)
    requires at < |text|
    ensures r.Ok? ==>
              && at < r.value.at <= |text|
              && match r.value.value
                 case Int(n) => INT_MIN <= n <= INT_MAX
                 case Dec(token) => d == Topology && ValidToken(token)
                 case _ => false
  {
    var negative := text[at] == '-';
    var start := if negative then at + 1 else at;
    var end := SkipDigits(text, start);
    if end - start > MAX_DIGITS then Err(IntegerInvalid)
    else if end == start || (end - start > 1 && text[start] == '0') then Err(Invalid)
    else if d == Topology && end < |text| && text[end] == '.' then Fraction(text, at, end)
    else if end < |text| && (text[end] == '.' || text[end] == 'e' || text[end] == 'E')
    then Err(if d == Nft then IntegerInvalid else DecimalInvalid)
    else
      var n := DigitsValue(text[start..end]);
      var value: int := if negative then 0 - n else n;
      if INT_MIN <= value <= INT_MAX then Ok(Got(Int(value), end)) else Err(IntegerInvalid)
  }

  /** Result of reading a value: what was read, the cursor and the node counter after it. */
  datatype Read<+T> = Read(value: T, at: nat, nodes: nat)

  function ReadValue(d: Dialect, text: string, at: nat, nodes: nat, depth: nat, path: seq<Step>): (r: Result<Read<Value>, Reason>)
    requires at <= |text|
    ensures r.Ok? ==> at < r.value.at <= |text| && nodes < r.value.nodes <= MaxNodes(d)
    decreases MAX_DEPTH + 1 - depth, |text| - at, 2
  {
    if depth > MAX_DEPTH then Err(DepthLimit)
    else if nodes >= MaxNodes(d) then Err(NodesLimit)
    else
      var nodes, here := nodes + 1, SkipSpace(text, at);
      if here >= |text| then Err(Invalid)
      else
        var ch := text[here];
        if ch == '\"' then
          match String(d, text, here)
          case Err(reason) => Err(reason)
          case Ok(Got(s, end)) => Ok(Read(Str(s), end, nodes))
        else if ch == '{' then
          var next := SkipSpace(text, here + 1);
          if next < |text| && text[next] == '}' then Ok(Read(Obj([]), next + 1, nodes))
          else
            match ReadMembers(d, text, next, nodes, depth, path, [])
            case Err(reason) => Err(reason)
            case Ok(Read(ms, end, n)) => Ok(Read(Obj(ms), end, n))
        else if ch == '[' then
          var next := SkipSpace(text, here + 1);
          if next < |text| && text[next] == ']' then Ok(Read(Arr([]), next + 1, nodes))
          else
            match ReadItems(d, text, next, nodes, depth, path, [])
            case Err(reason) => Err(reason)
            case Ok(Read(vs, end, n)) => Ok(Read(Arr(vs), end, n))
        else if ch == '-' || IsDigit(ch) then
          match Number(d, text, here)
          case Err(reason) => Err(reason)
          case Ok(Got(v, end)) => Ok(Read(v, end, nodes))
        else if Starts(text, here, "null") then Ok(Read(Null, here + 4, nodes))
        else if d == Topology && Starts(text, here, "true") then Ok(Read(Bool(true), here + 4, nodes))
        else if d == Topology && Starts(text, here, "false") then Ok(Read(Bool(false), here + 5, nodes))
        else if Starts(text, here, "true") || Starts(text, here, "false") || Starts(text, here, "NaN") || Starts(text, here, "Infinity")
        then Err(IntegerInvalid)
        else Err(Invalid)
  }

  predicate HasKey(ms: seq<Member>, key: string) { exists i | 0 <= i < |ms| :: ms[i].key == key }

  function ReadMembers(d: Dialect, text: string, at: nat, nodes: nat, depth: nat, path: seq<Step>, sofar: seq<Member>)
    : (r: Result<Read<seq<Member>>, Reason>)
    requires at <= |text| && depth <= MAX_DEPTH && nodes <= MaxNodes(d)
    ensures r.Ok? ==> at < r.value.at <= |text| && nodes < r.value.nodes <= MaxNodes(d)
    decreases MAX_DEPTH + 1 - depth, |text| - at, 1
  {
    if nodes >= MaxNodes(d) then Err(NodesLimit)
    else
      match String(d, text, at)
      case Err(reason) => Err(reason)
      case Ok(Got(key, afterKey)) =>
        if HasKey(sofar, key) then Err(DuplicateKey)
        else
          match Take(text, afterKey, ':')
          case Err(reason) => Err(reason)
          case Ok(colon) =>
            match ReadValue(d, text, colon, nodes + 1, depth + 1, path + [Key(key)])
            case Err(reason) => Err(reason)
            case Ok(Read(v, end, n)) =>
              var next := SkipSpace(text, end);
              if next < |text| && text[next] == '}' then Ok(Read(sofar + [Member(key, v)], next + 1, n))
              else
                match Take(text, next, ',')
                case Err(reason) => Err(reason)
                case Ok(comma) => ReadMembers(d, text, comma, n, depth, path, sofar + [Member(key, v)])
  }

  function ReadItems(d: Dialect, text: string, at: nat, nodes: nat, depth: nat, path: seq<Step>, sofar: seq<Value>)
    : (r: Result<Read<seq<Value>>, Reason>)
    requires at <= |text| && depth <= MAX_DEPTH && nodes <= MaxNodes(d)
    ensures r.Ok? ==> at < r.value.at <= |text| && nodes < r.value.nodes <= MaxNodes(d)
    decreases MAX_DEPTH + 1 - depth, |text| - at, 1
  {
    if |sofar| >= ArrayLimitAt(d, path) then Err(ArrayLimit)
    else
      match ReadValue(d, text, at, nodes, depth + 1, path + [Index(|sofar|)])
      case Err(reason) => Err(reason)
      case Ok(Read(v, end, n)) =>
        var next := SkipSpace(text, end);
        if next < |text| && text[next] == ']' then Ok(Read(sofar + [v], next + 1, n))
        else
          match Take(text, next, ',')
          case Err(reason) => Err(reason)
          case Ok(comma) => ReadItems(d, text, comma, n, depth, path, sofar + [v])
  }

  /** The whole document. */
  function Parse(d: Dialect, text: string): Result<Value, Reason> {
    if !(0 < Utf8Size(text) <= MaxBytes(d)) then Err(SizeInvalid)
    else if text != [] && text[0] == '\U{FEFF}' then Err(EncodingInvalid)
    else
      match ReadValue(d, text, 0, 0, 1, [])
      case Err(reason) => Err(reason)
      case Ok(Read(v, end, _)) => if SkipSpace(text, end) == |text| then Ok(v) else Err(Invalid)
  }

  /** The document as bytes: bounded before anything else, then strict UTF-8. */
  function ParseBytes(d: Dialect, raw: seq<Byte>): Result<Value, Reason> {
    if !(0 < |raw| <= MaxBytes(d)) then Err(SizeInvalid)
    else
      match Utf.Decode(raw)
      case None => Err(EncodingInvalid)
      case Some(text) => Parse(d, text)
  }

  // ----- size and limits of a value -----

  /** Values plus object keys. */
  function Nodes(v: Value): nat
    decreases v
  {
    match v
    case Arr(items) => 1 + ItemNodes(items)
    case Obj(members) => 1 + MemberNodes(members)
    case _ => 1
  }

  function ItemNodes(items: seq<Value>): nat
    decreases items
  {
    if items == [] then 0 else Nodes(items[0]) + ItemNodes(items[1..])
  }

  function MemberNodes(members: seq<Member>): nat
    decreases members
  {
    if members == [] then 0 else 1 + Nodes(members[0].value) + MemberNodes(members[1..])
  }

  /** Within the limits of the parser, at this depth and path. */
  predicate Fits(d: Dialect, v: Value, depth: nat, path: seq<Step>)
    decreases v
  {
    && depth <= MAX_DEPTH
    && match v
       case Null => true
       case Bool(_) => d == Topology
       case Int(n) => INT_MIN <= n <= INT_MAX
       case Dec(token) => d == Topology && ValidToken(token)
       case Str(s) => Utf8Size(s) <= MaxStringBytes(d)
       case Arr(items) => |items| <= ArrayLimitAt(d, path) && ItemsFit(d, items, depth + 1, path, 0)
       case Obj(members) => MembersFit(d, members, depth + 1, path) && DistinctKeys(members)
  }

  predicate ItemsFit(d: Dialect, items: seq<Value>, depth: nat, path: seq<Step>, from: nat)
    decreases items
  {
    items == [] || (Fits(d, items[0], depth, path + [Index(from)]) && ItemsFit(d, items[1..], depth, path, from + 1))
  }

  predicate MembersFit(d: Dialect, members: seq<Member>, depth: nat, path: seq<Step>)
    decreases members
  {
    members == []
    || (&& Utf8Size(members[0].key) <= MaxStringBytes(d) && Fits(d, members[0].value, depth, path + [Key(members[0].key)])
        && MembersFit(d, members[1..], depth, path))
  }

  predicate DistinctKeys(members: seq<Member>) {
    forall i, j | 0 <= i < j < |members| :: members[i].key != members[j].key
  }

  // ----- lemmas about the readers -----

  lemma Utf8SizeCons(c: char, s: string)
    ensures Utf8Size([c] + s) == Utf8(c) + Utf8Size(s)
    decreases |s|
  {
    if s == [] {
      assert [c] + s == [c] && [c][..0] == [];
    } else {
      var front := s[..|s| - 1];
      assert ([c] + s)[..|s|] == [c] + front;
      Utf8SizeCons(c, front);
    }
  }

  lemma CharsEnd(d: Dialect, text: string, at: nat, sofar: string, size: nat)
    requires Starts(text, at, "\"")
    ensures at < |text| && Chars(d, text, at, sofar, size) == Ok(Got(sofar, at + 1))
  {
    OneChar(text, at, '\"');
  }

  // ----- integers -----

  /** What may follow a printed integer. */
  predicate Delimited(text: string, end: nat) {
    end < |text| ==> !IsDigit(text[end]) && text[end] != '.' && text[end] != 'e' && text[end] != 'E'
  }

  lemma DecimalRoundTrip(text: string, at: nat, token: string)
    requires Starts(text, at, token) && ValidToken(token) && Delimited(text, at + |token|)
    ensures at < |text| && IsDigit(text[at])
    ensures Number(Topology, text, at) == Ok(Got(Dec(token), at + |token|))
  {
    hide ValidToken, DigitsValue, SkipDigits, Starts;
    TokenParts(token);
    var whole, fraction := Whole(token), FractionOf(token);
    StartsSplits(text, at, whole, "." + fraction);
    StartsSplits(text, at + |whole|, ".", fraction);
    OneChar(text, at + |whole|, '.');
    FirstChar(text, at, whole);
    SkipDigitsOver(text, at, whole);
    SkipDigitsOver(text, at + |whole| + 1, fraction);
    Slice(text, at, token);
  }

  lemma Int64Short(m: nat)
    requires m <= 0x8000_0000_0000_0000
    ensures |Digits(m)| <= MAX_DIGITS
  {
    Pow10Of19();
    DigitsShort(m, 19);
  }

  lemma OneChar(text: string, at: nat, c: char)
    requires Starts(text, at, [c])
    ensures at < |text| && text[at] == c
  {
    assert text[at..at + 1][0] == c;
  }

  lemma FirstChar(text: string, at: nat, word: string)
    requires Starts(text, at, word) && word != []
    ensures at < |text| && text[at] == word[0]
  {
    assert text[at..at + |word|][0] == word[0];
  }

  lemma NotThere(text: string, at: nat, word: string)
    requires at < |text| && word != [] && text[at] != word[0]
    ensures !Starts(text, at, word)
  {
    assert at + |word| <= |text| ==> text[at..at + |word|][0] == text[at];
  }

  lemma Slice(text: string, at: nat, word: string)
    requires Starts(text, at, word)
    ensures at + |word| <= |text| && text[at..at + |word|] == word
  {
  }

  lemma NoSpaceAt(text: string, at: nat)
    requires at < |text| && !IsSpace(text[at])
    ensures SkipSpace(text, at) == at
  {
  }

  lemma NewKey(sofar: seq<Member>, members: seq<Member>)
    requires members != [] && DistinctKeys(sofar + members)
    ensures !HasKey(sofar, members[0].key)
  {
    var all := sofar + members;
    assert all[|sofar|] == members[0];
    assert forall i | 0 <= i < |sofar| :: all[i] == sofar[i];
  }

  // ----- whatever is accepted is within the limits -----

  lemma Utf8SizeSnoc(s: string, c: char)
    ensures Utf8Size(s + [c]) == Utf8Size(s) + Utf8(c)
  {
    assert (s + [c])[..|s|] == s;
  }

  lemma {:induction false} CharsFit(d: Dialect, text: string, at: nat, sofar: string, size: nat)
    requires at <= |text| && size == Utf8Size(sofar) <= MaxStringBytes(d)
    ensures var r := Chars(d, text, at, sofar, size); r.Ok? ==> Utf8Size(r.value.value) <= MaxStringBytes(d)
    decreases |text| - at
  {
    hide Escape, Utf8, Utf8Size;
    if at < |text| && text[at] != '\"' && text[at] as int >= 32 {
      var one := if text[at] == '\\' then Escape(text, at + 1) else Ok(Got(text[at], at + 1));
      if one.Ok? && size + Utf8(one.value.value) <= MaxStringBytes(d) {
        Utf8SizeSnoc(sofar, one.value.value);
        CharsFit(d, text, one.value.at, sofar + [one.value.value], size + Utf8(one.value.value));
      }
    }
  }

  lemma StringFits(d: Dialect, text: string, at: nat)
    requires at <= |text|
    ensures var r := String(d, text, at); r.Ok? ==> Utf8Size(r.value.value) <= MaxStringBytes(d)
  {
    var quote := Take(text, at, '\"');
    if quote.Ok? {
      CharsFit(d, text, quote.value, "", 0);
    }
  }

  /** Every accepted value respects every limit at its place, and the node counter has moved by
      exactly its values and keys. */
  lemma {:induction false} ReadFits(d: Dialect, text: string, at: nat, nodes: nat, depth: nat, path: seq<Step>)
    requires at <= |text|
    ensures var r := ReadValue(d, text, at, nodes, depth, path);
            r.Ok? ==> Fits(d, r.value.value, depth, path) && r.value.nodes == nodes + Nodes(r.value.value)
    decreases MAX_DEPTH + 1 - depth, |text| - at, 2
  {
    hide String, Number, Utf8Size, ArrayLimitAt, ReadItems, ReadMembers, DistinctKeys;
    if depth <= MAX_DEPTH && nodes < MaxNodes(d) {
      var here := SkipSpace(text, at);
      if here < |text| {
        StringFits(d, text, here);
        if text[here] == '[' || text[here] == '{' {
          var next := SkipSpace(text, here + 1);
          NoKeys();
          ItemsReadFit(d, text, next, nodes + 1, depth, path, []);
          MembersReadFit(d, text, next, nodes + 1, depth, path, []);
          WholeSlices(d, text, next, nodes + 1, depth, path);
        }
      }
    }
  }

  lemma NoKeys()
    ensures DistinctKeys([])
  {
  }

  lemma WholeSlices(d: Dialect, text: string, at: nat, nodes: nat, depth: nat, path: seq<Step>)
    requires at <= |text| && depth <= MAX_DEPTH && nodes <= MaxNodes(d)
    ensures var r := ReadItems(d, text, at, nodes, depth, path, []); r.Ok? ==> r.value.value[0..] == r.value.value
    ensures var r := ReadMembers(d, text, at, nodes, depth, path, []); r.Ok? ==> r.value.value[0..] == r.value.value
  {
  }

  lemma {:induction false} ItemsReadFit(d: Dialect, text: string, at: nat, nodes: nat, depth: nat, path: seq<Step>, sofar: seq<Value>)
    requires at <= |text| && depth <= MAX_DEPTH && nodes <= MaxNodes(d)
    ensures var r := ReadItems(d, text, at, nodes, depth, path, sofar);
            r.Ok? ==>
              && sofar <= r.value.value && |r.value.value| <= ArrayLimitAt(d, path)
              && ItemsFit(d, r.value.value[|sofar|..], depth + 1, path, |sofar|)
              && r.value.nodes == nodes + ItemNodes(r.value.value[|sofar|..])
    decreases MAX_DEPTH + 1 - depth, |text| - at, 1
  {
    hide ReadValue, SkipSpace, Fits, Nodes, ArrayLimitAt;
    var r := ReadItems(d, text, at, nodes, depth, path, sofar);
    if r.Ok? {
      ReadFits(d, text, at, nodes, depth + 1, path + [Index(|sofar|)]);
      var one := ReadValue(d, text, at, nodes, depth + 1, path + [Index(|sofar|)]).value;
      var next, grown := SkipSpace(text, one.at), sofar + [one.value];
      if !(next < |text| && text[next] == ']') {
        var comma := Take(text, next, ',').value;
        ItemsReadFit(d, text, comma, one.nodes, depth, path, grown);
        var rest := r.value.value[|sofar|..];
        assert rest[1..] == r.value.value[|grown|..];
        assert rest[0] == grown[|sofar|];
      } else {
        assert grown[|sofar|..] == [one.value] && [one.value][1..] == [];
      }
    }
  }

  lemma {:induction false} MembersReadFit(d: Dialect, text: string, at: nat, nodes: nat, depth: nat, path: seq<Step>, sofar: seq<Member>)
    requires at <= |text| && depth <= MAX_DEPTH && nodes <= MaxNodes(d) && DistinctKeys(sofar)
    ensures var r := ReadMembers(d, text, at, nodes, depth, path, sofar);
            r.Ok? ==>
              && sofar <= r.value.value && DistinctKeys(r.value.value)
              && MembersFit(d, r.value.value[|sofar|..], depth + 1, path)
              && r.value.nodes == nodes + MemberNodes(r.value.value[|sofar|..])
    decreases MAX_DEPTH + 1 - depth, |text| - at, 1
  {
    hide ReadValue, SkipSpace, Fits, Nodes, String, Utf8Size;
    var r := ReadMembers(d, text, at, nodes, depth, path, sofar);
    if r.Ok? {
      var key := String(d, text, at).value;
      StringFits(d, text, at);
      var colon := Take(text, key.at, ':').value;
      ReadFits(d, text, colon, nodes + 1, depth + 1, path + [Key(key.value)]);
      var one := ReadValue(d, text, colon, nodes + 1, depth + 1, path + [Key(key.value)]).value;
      var next, grown := SkipSpace(text, one.at), sofar + [Member(key.value, one.value)];
      assert DistinctKeys(grown);
      if !(next < |text| && text[next] == '}') {
        var comma := Take(text, next, ',').value;
        MembersReadFit(d, text, comma, one.nodes, depth, path, grown);
        var rest := r.value.value[|sofar|..];
        assert rest[1..] == r.value.value[|grown|..];
        assert rest[0] == grown[|sofar|];
      } else {
        var m := Member(key.value, one.value);
        assert grown[|sofar|..] == [m] && [m][1..] == [];
      }
    }
  }

  // ----- the parser object -----

  class Parser {
    const d: Dialect
    const text: string
    var at: nat
    var nodes: nat

    constructor (d: Dialect, text: string)
      ensures this.d == d && this.text == text && at == 0 && nodes == 0
    {
      this.d, this.text := d, text;
      at, nodes := 0, 0;
    }

    method Count() returns (r: Result<(), Reason>)
      modifies this`nodes
      ensures r.Ok? <==> old(nodes) < MaxNodes(d)
      ensures nodes == old(nodes) + (if r.Ok? then 1 else 0)
      ensures r.Err? ==> r.error == NodesLimit
    {
      if nodes >= MaxNodes(d) {
        return Err(NodesLimit);
      }
      nodes := nodes + 1;
      return Ok(());
    }

    method Whitespace()
      requires at <= |text|
      modifies this`at
      ensures at == SkipSpace(text, old(at))
    {
      while at < |text| && IsSpace(text[at])
        invariant at <= |text| && SkipSpace(text, at) == SkipSpace(text, old(at))
      {
        at := at + 1;
      }
    }

    method TakeChar(c: char) returns (r: Result<(), Reason>)
      requires at <= |text|
      modifies this`at
      ensures at <= |text|
      ensures match Take(text, old(at), c)
              case Ok(next) => r == Ok(()) && at == next
              case Err(reason) => r == Err(reason)
    {
      Whitespace();
      if at >= |text| || text[at] != c {
        return Err(Invalid);
      }
      at := at + 1;
      return Ok(());
    }

    /** The string loop: one character or escape per round, bounded before it is kept. */
    method StringValue() returns (r: Result<string, Reason>)
      requires at <= |text|
      modifies this`at
      ensures at <= |text|
      ensures match String(d, text, old(at))
              case Ok(got) => r == Ok(got.value) && at == got.at
              case Err(reason) => r == Err(reason)
    {
      hide Escape, Utf8;
      var quote := TakeChar('\"');
      if quote.Err? {
        return Err(quote.error);
      }
      var chars, size: nat := "", 0;
      while at < |text|
        invariant at <= |text| && Chars(d, text, at, chars, size) == String(d, text, old(at))
      {
        var ch := text[at];
        if ch == '\"' {
          at := at + 1;
          return Ok(chars);
        }
        if ch as int < 32 {
          return Err(Invalid);
        }
        var next := at + 1;
        if ch == '\\' {
          var escaped := Escape(text, at + 1);
          if escaped.Err? {
            return Err(escaped.error);
          }
          ch, next := escaped.value.value, escaped.value.at;
        }
        if size + Utf8(ch) > MaxStringBytes(d) {
          return Err(StringLimit);
        }
        chars, size, at := chars + [ch], size + Utf8(ch), next;
      }
      return Err(Invalid);
    }

    /** Consumes digits; refuses as soon as there are more than `most`. */
    method TakeDigits(most: nat) returns (ok: bool)
      requires at <= |text|
      modifies this`at
      ensures old(at) <= at <= |text|
      ensures ok <==> SkipDigits(text, old(at)) - old(at) <= most
      ensures ok ==> at == SkipDigits(text, old(at))
    {
      var start := at;
      while at < |text| && IsDigit(text[at])
        invariant start <= at <= |text| && at - start <= most
        invariant SkipDigits(text, at) == SkipDigits(text, start)
        decreases |text| - at
      {
        at := at + 1;
        if at - start > most {
          return false;
        }
      }
      return true;
    }

    method NumberValue() returns (r: Result<Value, Reason>)
      requires at < |text|
      modifies this`at
      ensures at <= |text|
      ensures match Number(d, text, old(at))
              case Ok(got) => r == Ok(got.value) && at == got.at
              case Err(reason) => r == Err(reason)
    {
      hide DigitsValue, ValidToken, SkipDigits;
      var start := at;
      if text[at] == '-' {
        at := at + 1;
      }
      var digits := at;
      var short := TakeDigits(MAX_DIGITS);
      if !short {
        return Err(IntegerInvalid);
      }
      if at == digits || (at - digits > 1 && text[digits] == '0') {
        return Err(Invalid);
      }
      if d == Topology && at < |text| && text[at] == '.' {
        r := FractionValue(start);
        return;
      }
      if at < |text| && (text[at] == '.' || text[at] == 'e' || text[at] == 'E') {
        return Err(if d == Nft then IntegerInvalid else DecimalInvalid);
      }
      assert forall i | digits <= i < at :: IsDigit(text[i]);
      var n: int := DigitsValue(text[digits..at]);
      var value := if start < digits then 0 - n else n;
      if INT_MIN <= value <= INT_MAX {
        return Ok(Int(value));
      }
      return Err(IntegerInvalid);
    }

    method FractionValue(start: nat) returns (r: Result<Value, Reason>)
      requires start <= at < |text|
      modifies this`at
      ensures at <= |text|
      ensures match Fraction(text, start, old(at))
              case Ok(got) => r == Ok(got.value) && at == got.at
              case Err(reason) => r == Err(reason)
    {
      hide ValidToken, SkipDigits;
      at := at + 1;
      var short := TakeDigits(6);
      if !short {
        return Err(DecimalInvalid);
      }
      var token := text[start..at];
      if !ValidToken(token) {
        return Err(DecimalInvalid);
      }
      if at < |text| && (text[at] == 'e' || text[at] == 'E') {
        return Err(DecimalInvalid);
      }
      return Ok(Dec(token));
    }

    method Value(depth: nat, path: seq<Step>) returns (r: Result<Value, Reason>)
      requires at <= |text|
      modifies this
      ensures at <= |text|
      ensures match ReadValue(d, text, old(at), old(nodes), depth, path)
              case Ok(read) => r == Ok(read.value) && at == read.at && nodes == read.nodes
              case Err(reason) => r == Err(reason)
      decreases MAX_DEPTH + 1 - depth, 1
    {
      hide ReadMembers, ReadItems, Number, String;
      if depth > MAX_DEPTH {
        return Err(DepthLimit);
      }
      var counted := Count();
      if counted.Err? {
        return Err(counted.error);
      }
      Whitespace();
      if at >= |text| {
        return Err(Invalid);
      }
      var ch := text[at];
      if ch == '\"' {
        var s := StringValue();
        return match s case Ok(x) => Ok(Str(x)) case Err(reason) => Err(reason);
      }
      if ch == '{' {
        at := at + 1;
        Whitespace();
        if at < |text| && text[at] == '}' {
          at := at + 1;
          return Ok(Obj([]));
        }
        var members := Members(depth, path);
        return match members case Ok(x) => Ok(Obj(x)) case Err(reason) => Err(reason);
      }
      if ch == '[' {
        at := at + 1;
        Whitespace();
        if at < |text| && text[at] == ']' {
          at := at + 1;
          return Ok(Arr([]));
        }
        var items := Items(depth, path);
        return match items case Ok(x) => Ok(Arr(x)) case Err(reason) => Err(reason);
      }
      if ch == '-' || IsDigit(ch) {
        r := NumberValue();
        return;
      }
      if Starts(text, at, "null") {
        at := at + 4;
        return Ok(Null);
      }
      if d == Topology && Starts(text, at, "true") {
        at := at + 4;
        return Ok(Bool(true));
      }
      if d == Topology && Starts(text, at, "false") {
        at := at + 5;
        return Ok(Bool(false));
      }
      if Starts(text, at, "true") || Starts(text, at, "false") || Starts(text, at, "NaN") || Starts(text, at, "Infinity") {
        return Err(IntegerInvalid);
      }
      return Err(Invalid);
    }

    method Members(depth: nat, path: seq<Step>) returns (r: Result<seq<Member>, Reason>)
      requires at <= |text| && depth <= MAX_DEPTH && nodes <= MaxNodes(d)
      modifies this
      ensures at <= |text|
      ensures match ReadMembers(d, text, old(at), old(nodes), depth, path, [])
              case Ok(read) => r == Ok(read.value) && at == read.at && nodes == read.nodes
              case Err(reason) => r == Err(reason)
      decreases MAX_DEPTH + 1 - depth, 0
    {
      hide ReadValue, String, HasKey, Take, SkipSpace;
      var result: seq<Member> := [];
      while true
        invariant at <= |text| && nodes <= MaxNodes(d)
        invariant ReadMembers(d, text, at, nodes, depth, path, result) == ReadMembers(d, text, old(at), old(nodes), depth, path, [])
        decreases |text| - at
      {
        var counted := Count();
        if counted.Err? {
          return Err(counted.error);
        }
        var key := StringValue();
        if key.Err? {
          return Err(key.error);
        }
        if HasKey(result, key.value) {
          return Err(DuplicateKey);
        }
        var colon := TakeChar(':');
        if colon.Err? {
          return Err(colon.error);
        }
        var value := Value(depth + 1, path + [Key(key.value)]);
        if value.Err? {
          return Err(value.error);
        }
        result := result + [Member(key.value, value.value)];
        Whitespace();
        if at < |text| && text[at] == '}' {
          at := at + 1;
          return Ok(result);
        }
        var comma := TakeChar(',');
        if comma.Err? {
          return Err(comma.error);
        }
      }
    }

    method Items(depth: nat, path: seq<Step>) returns (r: Result<seq<Value>, Reason>)
      requires at <= |text| && depth <= MAX_DEPTH && nodes <= MaxNodes(d)
      modifies this
      ensures at <= |text|
      ensures match ReadItems(d, text, old(at), old(nodes), depth, path, [])
              case Ok(read) => r == Ok(read.value) && at == read.at && nodes == read.nodes
              case Err(reason) => r == Err(reason)
      decreases MAX_DEPTH + 1 - depth, 0
    {
      hide ReadValue, ArrayLimitAt, Take, SkipSpace;
      var result: seq<Value> := [];
      while true
        invariant at <= |text| && nodes <= MaxNodes(d)
        invariant ReadItems(d, text, at, nodes, depth, path, result) == ReadItems(d, text, old(at), old(nodes), depth, path, [])
        decreases |text| - at
      {
        if |result| >= ArrayLimitAt(d, path) {
          return Err(ArrayLimit);
        }
        var value := Value(depth + 1, path + [Index(|result|)]);
        if value.Err? {
          return Err(value.error);
        }
        result := result + [value.value];
        Whitespace();
        if at < |text| && text[at] == ']' {
          at := at + 1;
          return Ok(result);
        }
        var comma := TakeChar(',');
        if comma.Err? {
          return Err(comma.error);
        }
      }
    }
  }
}
