/**
The grammar of the two bounded JSON parsers, by concatenation: a document is a tree, its text is
the concatenation of its parts and its value is read off the tree.  The parsers accept exactly the
texts of lawful documents whose values are within the limits.
*/
module JsonGrammar {
  import opened Base
  import opened JsonText
  import opened Json
  import Utf = Utf8

  /** One character of a string as it may be written. */
  datatype Piece =
    | Plain(c: char)
    | Short(letter: char)                 // a backslash and a letter
    | Code(hex: string)                   // backslash u and four digits
    | Pair(high: string, low: string)     // two of those, for a character beyond U+FFFF

  datatype Doc =
    | NullDoc
    | BoolDoc(b: bool)
    | IntDoc(minus: bool, digits: string)
    | DecDoc(whole: string, fraction: string)
    | StrDoc(pieces: seq<Piece>)
    | EmptyArr(space: string)
    | ArrDoc(items: seq<Item>)
    | EmptyObj(space: string)
    | ObjDoc(entries: seq<Entry>)

  datatype Item = Item(before: string, doc: Doc, after: string)

  datatype Entry = Entry(before: string, key: seq<Piece>, after: string, item: Item)

  /** What a letter after a backslash stands for. */
  function Shorts(): map<char, char> {
    map['\"' := '\"', '\\' := '\\', '/' := '/', 'b' := '\U{8}', 'f' := '\U{c}', 'n' := '\n', 'r' := '\r', 't' := '\t']
  }

  function HexDigits(): map<char, nat> {
    map['0' := 0, '1' := 1, '2' := 2, '3' := 3, '4' := 4, '5' := 5, '6' := 6, '7' := 7, '8' := 8, '9' := 9,
        'a' := 10, 'b' := 11, 'c' := 12, 'd' := 13, 'e' := 14, 'f' := 15,
        'A' := 10, 'B' := 11, 'C' := 12, 'D' := 13, 'E' := 14, 'F' := 15]
  }

  predicate Spaces(s: string) { forall i | 0 <= i < |s| :: s[i] in {' ', '\t', '\r', '\n'} }

  predicate IsHex(h: string) { |h| == 4 && forall i | 0 <= i < 4 :: h[i] in HexDigits() }

  function HexNumber(h: string): (n: nat)
    requires IsHex(h)
    ensures n < 0x1_0000
  {
    HexAgrees(h[0]);
    HexAgrees(h[1]);
    HexAgrees(h[2]);
    HexAgrees(h[3]);
    HexDigits()[h[0]] * 4096 + HexDigits()[h[1]] * 256 + HexDigits()[h[2]] * 16 + HexDigits()[h[3]]
  }

  predicate LawfulPiece(p: Piece) {
    match p
    case Plain(c) => ' ' <= c && c != '\"' && c != '\\'
    case Short(letter) => letter in Shorts()
    case Code(hex) => IsHex(hex) && !(0xD800 <= HexNumber(hex) <= 0xDFFF)
    case Pair(high, low) =>
      IsHex(high) && IsHex(low) && 0xD800 <= HexNumber(high) <= 0xDBFF && 0xDC00 <= HexNumber(low) <= 0xDFFF
  }

  /** Digits without a leading zero. */
  predicate LawfulDigits(digits: string) { digits != [] && AllDigits(digits) && (|digits| > 1 ==> digits[0] != '0') }

  predicate Lawful(doc: Doc)
    decreases doc
  {
    match doc
    case NullDoc => true
    case BoolDoc(_) => true
    case IntDoc(_, digits) => LawfulDigits(digits)
    case DecDoc(whole, fraction) => LawfulDigits(whole) && |whole| <= 10 && AllDigits(fraction) && 1 <= |fraction| <= 6
    case StrDoc(pieces) => LawfulPieces(pieces)
    case EmptyArr(space) => Spaces(space)
    case ArrDoc(items) => items != [] && LawfulItems(items)
    case EmptyObj(space) => Spaces(space)
    case ObjDoc(entries) => entries != [] && LawfulEntries(entries)
  }

  predicate LawfulPieces(pieces: seq<Piece>) { forall i | 0 <= i < |pieces| :: LawfulPiece(pieces[i]) }

  predicate LawfulItems(items: seq<Item>)
    decreases items
  {
    items == []
    || (Spaces(items[0].before) && Lawful(items[0].doc) && Spaces(items[0].after) && LawfulItems(items[1..]))
  }

  predicate LawfulEntries(entries: seq<Entry>)
    decreases entries
  {
    entries == []
    || (&& Spaces(entries[0].before) && LawfulPieces(entries[0].key) && Spaces(entries[0].after)
        && Spaces(entries[0].item.before) && Lawful(entries[0].item.doc) && Spaces(entries[0].item.after)
        && LawfulEntries(entries[1..]))
  }

  // ----- the text of a document -----

  function PieceText(p: Piece): string {
    match p
    case Plain(c) => [c]
    case Short(letter) => ['\\', letter]
    case Code(hex) => "\\u" + hex
    case Pair(high, low) => ("\\u" + high) + ("\\u" + low)
  }

  function PiecesText(pieces: seq<Piece>): string {
    if pieces == [] then "" else PieceText(pieces[0]) + PiecesText(pieces[1..])
  }

  function Quoted(pieces: seq<Piece>): string { "\"" + (PiecesText(pieces) + "\"") }

  function Text(doc: Doc): string
    decreases doc
  {
    match doc
    case NullDoc => "null"
    case BoolDoc(b) => if b then "true" else "false"
    case IntDoc(minus, digits) => (if minus then "-" else "") + digits
    case DecDoc(whole, fraction) => whole + ("." + fraction)
    case StrDoc(pieces) => Quoted(pieces)
    case EmptyArr(space) => "[" + (space + "]")
    case ArrDoc(items) => "[" + ItemsText(items)
    case EmptyObj(space) => "{" + (space + "}")
    case ObjDoc(entries) => "{" + EntriesText(entries)
  }

  /** The elements, parted by commas, and the closing bracket. */
  function ItemsText(items: seq<Item>): string
    decreases items
  {
    if items == [] then ""
    else
      items[0].before + (Text(items[0].doc) + (items[0].after + (if |items| == 1 then "]" else "," + ItemsText(items[1..]))))
  }

  function EntriesText(entries: seq<Entry>): string
    decreases entries
  {
    if entries == [] then ""
    else
      entries[0].before + (Quoted(entries[0].key) + (entries[0].after + (":" + (entries[0].item.before
        + (Text(entries[0].item.doc) + (entries[0].item.after + (if |entries| == 1 then "}" else "," + EntriesText(entries[1..]))))))))
  }

  // ----- its value -----

  function PieceChar(p: Piece): char
    requires LawfulPiece(p)
  {
    match p
    case Plain(c) => c
    case Short(letter) => Shorts()[letter]
    case Code(hex) => HexNumber(hex) as char
    case Pair(high, low) => (0x1_0000 + (HexNumber(high) - 0xD800) * 0x400 + (HexNumber(low) - 0xDC00)) as char
  }

  function CharsOf(pieces: seq<Piece>): string
    requires LawfulPieces(pieces)
  {
    if pieces == [] then "" else [PieceChar(pieces[0])] + CharsOf(pieces[1..])
  }

  function Meaning(doc: Doc): Value
    requires Lawful(doc)
    decreases doc
  {
    match doc
    case NullDoc => Null
    case BoolDoc(b) => Bool(b)
    case IntDoc(minus, digits) => Int(if minus then 0 - DigitsValue(digits) else DigitsValue(digits))
    case DecDoc(whole, fraction) => Dec(whole + ("." + fraction))
    case StrDoc(pieces) => Str(CharsOf(pieces))
    case EmptyArr(_) => Arr([])
    case ArrDoc(items) => Arr(ItemValues(items))
    case EmptyObj(_) => Obj([])
    case ObjDoc(entries) => Obj(EntryMembers(entries))
  }

  function ItemValues(items: seq<Item>): (vs: seq<Value>)
    requires LawfulItems(items)
    ensures |vs| == |items|
    decreases items
  {
    if items == [] then [] else [Meaning(items[0].doc)] + ItemValues(items[1..])
  }

  function EntryMembers(entries: seq<Entry>): (ms: seq<Member>)
    requires LawfulEntries(entries)
    ensures |ms| == |entries|
    decreases entries
  {
    if entries == [] then []
    else [Member(CharsOf(entries[0].key), Meaning(entries[0].item.doc))] + EntryMembers(entries[1..])
  }

  /** The text is this item, and the item says this value. */
  predicate Writes(item: Item, text: string, v: Value) {
    Spaces(item.before) && Lawful(item.doc) && Spaces(item.after)
    && item.before + (Text(item.doc) + item.after) == text && Meaning(item.doc) == v
  }

  /** The text denotes the value. */
  ghost predicate Denotes(text: string, v: Value) { exists item :: Writes(item, text, v) }

  // ----- tables -----

  lemma HexAgrees(c: char)
    ensures c in HexDigits() <==> HexValue(c).Some?
    ensures c in HexDigits() ==> HexValue(c) == Some(HexDigits()[c]) && HexDigits()[c] < 16
  {
  }

  lemma ShortAgrees(c: char)
    ensures c in Shorts() <==> ShortEscape(c).Some?
    ensures c in Shorts() ==> ShortEscape(c) == Some(Shorts()[c]) && c != 'u'
  {
  }

  lemma SpaceOver(text: string, at: nat, w: string)
    requires at <= |text| && Starts(text, at, w) && Spaces(w)
    requires at + |w| < |text| ==> !IsSpace(text[at + |w|])
    ensures SkipSpace(text, at) == at + |w|
    decreases |w|
  {
    if w != [] {
      assert text[at..at + |w|][0] == w[0];
      assert text[at + 1..at + |w|] == text[at..at + |w|][1..];
      SpaceOver(text, at + 1, w[1..]);
    }
  }

  lemma SpaceFound(text: string, at: nat)
    requires at <= |text|
    ensures Spaces(text[at..SkipSpace(text, at)])
    decreases |text| - at
  {
    if at < |text| && IsSpace(text[at]) {
      SpaceFound(text, at + 1);
      assert text[at..SkipSpace(text, at)] == [text[at]] + text[at + 1..SkipSpace(text, at)];
    }
  }

  // ----- a written string is read -----

  lemma HexReads(text: string, at: nat, h: string)
    requires at <= |text| && Starts(text, at, h) && IsHex(h)
    ensures Hex4(text, at) == Ok(Got(HexNumber(h), at + 4))
  {
    hide HexValue, HexDigits;
    var here := text[at..at + 4];
    assert here[0] == h[0] && here[1] == h[1] && here[2] == h[2] && here[3] == h[3];
    HexAgrees(h[0]);
    HexAgrees(h[1]);
    HexAgrees(h[2]);
    HexAgrees(h[3]);
  }

  lemma EscapedReads(text: string, at: nat, h: string)
    requires at <= |text| && Starts(text, at, "\\u" + h) && IsHex(h)
    ensures at + 6 <= |text| && text[at] == '\\' && text[at + 1] == 'u' && Hex4(text, at + 2) == Ok(Got(HexNumber(h), at + 6))
  {
    hide Hex4, IsHex;
    StartsSplits(text, at, "\\u", h);
    assert text[at..at + 2][0] == '\\' && text[at..at + 2][1] == 'u';
    HexReads(text, at + 2, h);
  }

  /** What one round of the string loop takes in. */
  function TakeOne(text: string, at: nat): Result<Got<char>, Reason>
    requires at < |text|
  {
    if text[at] == '\\' then Escape(text, at + 1) else Ok(Got(text[at], at + 1))
  }

  lemma PieceReads(text: string, at: nat, p: Piece)
    requires at <= |text| && Starts(text, at, PieceText(p)) && LawfulPiece(p)
    ensures at < |text| && text[at] != '\"' && text[at] as int >= 32
    ensures TakeOne(text, at) == Ok(Got(PieceChar(p), at + |PieceText(p)|))
  {
    hide Hex4, HexNumber, ShortEscape, IsHex;
    var t := PieceText(p);
    assert text[at..at + |t|][0] == t[0];
    match p
    case Plain(c) =>
    case Short(letter) =>
      assert text[at..at + 2][1] == letter;
      ShortAgrees(letter);
    case Code(hex) =>
      EscapedReads(text, at, hex);
      assert |hex| == 4 by { assert IsHex(hex); LengthOfHex(hex); }
    case Pair(high, low) =>
      LengthOfHex(high);
      LengthOfHex(low);
      StartsSplits(text, at, "\\u" + high, "\\u" + low);
      EscapedReads(text, at, high);
      EscapedReads(text, at + 6, low);
  }

  lemma LengthOfHex(h: string)
    requires IsHex(h)
    ensures |h| == 4
  {
  }

  lemma {:induction false} PiecesRead(d: Dialect, text: string, at: nat, ps: seq<Piece>, sofar: string, size: nat)
    requires at <= |text| && Starts(text, at, PiecesText(ps)) && Starts(text, at + |PiecesText(ps)|, "\"")
    requires LawfulPieces(ps) && size + Utf8Size(CharsOf(ps)) <= MaxStringBytes(d)
    ensures Chars(d, text, at, sofar, size) == Ok(Got(sofar + CharsOf(ps), at + |PiecesText(ps)| + 1))
    decreases |ps|
  {
    hide Chars, TakeOne, PieceText, PieceChar, LawfulPiece, Utf8, Utf8Size, Starts;
    if ps == [] {
      CharsEnd(d, text, at, sofar, size);
      assert sofar + CharsOf(ps) == sofar;
    } else {
      var rest, c := ps[1..], PieceChar(ps[0]);
      var next := at + |PieceText(ps[0])|;
      StartsSplits(text, at, PieceText(ps[0]), PiecesText(rest));
      PieceReads(text, at, ps[0]);
      Utf8SizeCons(c, CharsOf(rest));
      TakeOneStep(d, text, at, c, next, sofar, size);
      PiecesRead(d, text, next, rest, sofar + [c], size + Utf8(c));
      assert sofar + CharsOf(ps) == sofar + [c] + CharsOf(rest);
    }
  }

  lemma TakeOneStep(d: Dialect, text: string, at: nat, c: char, next: nat, sofar: string, size: nat)
    requires at < |text| && text[at] != '\"' && text[at] as int >= 32 && size + Utf8(c) <= MaxStringBytes(d)
    requires TakeOne(text, at) == Ok(Got(c, next))
    ensures next <= |text| && Chars(d, text, at, sofar, size) == Chars(d, text, next, sofar + [c], size + Utf8(c))
  {
    hide Escape, Utf8;
  }

  lemma StringReads(d: Dialect, text: string, at: nat, quote: nat, ps: seq<Piece>)
    requires at <= |text| && SkipSpace(text, at) == quote && Starts(text, quote, Quoted(ps))
    requires LawfulPieces(ps) && Utf8Size(CharsOf(ps)) <= MaxStringBytes(d)
    ensures quote < |text| && text[quote] == '\"' && String(d, text, at) == Ok(Got(CharsOf(ps), quote + |Quoted(ps)|))
  {
    hide Chars, PiecesText, CharsOf, LawfulPieces, Utf8Size;
    StartsSplits(text, quote, "\"", PiecesText(ps) + "\"");
    assert text[quote..quote + 1][0] == '\"';
    StartsSplits(text, quote + 1, PiecesText(ps), "\"");
    PiecesRead(d, text, quote + 1, ps, "", 0);
    assert "" + CharsOf(ps) == CharsOf(ps);
  }

  // ----- a written number is read -----

  lemma IntegerReads(d: Dialect, text: string, at: nat, minus: bool, digits: string)
    requires at <= |text| && LawfulDigits(digits) && Starts(text, at, Text(IntDoc(minus, digits)))
    requires INT_MIN <= Meaning(IntDoc(minus, digits)).n <= INT_MAX && Delimited(text, at + |Text(IntDoc(minus, digits))|)
    ensures at < |text| && (text[at] == '-' || IsDigit(text[at]))
    ensures Number(d, text, at) == Ok(Got(Meaning(IntDoc(minus, digits)), at + |Text(IntDoc(minus, digits))|))
  {
    hide Fraction, Digits, DigitsValue, SkipDigits;
    DigitsOfValue(digits);
    Int64Short(DigitsValue(digits));
    var sign := if minus then "-" else "";
    var start := at + |sign|;
    StartsSplits(text, at, sign, digits);
    if minus {
      assert text[at..at + 1][0] == '-';
    }
    assert text[start..start + |digits|] == digits;
    assert text[start] == digits[0];
    SkipDigitsOver(text, start, digits);
  }

  lemma TokenOf(whole: string, fraction: string)
    requires Lawful(DecDoc(whole, fraction))
    ensures var token := whole + ("." + fraction); ValidToken(token) && Whole(token) == whole && FractionOf(token) == fraction
  {
    var token := whole + ("." + fraction);
    assert token[|whole|] == '.' && token[0..0 + |whole|] == whole && token[|whole| + 1..] == fraction;
    SkipDigitsOver(token, 0, whole);
  }

  // ----- a written value is read -----

  /** How a document begins: with no space, and with a character that only its kind begins with. */
  lemma DocHead(text: string, at: nat, doc: Doc)
    requires at <= |text| && Lawful(doc) && Starts(text, at, Text(doc))
    ensures at < |text| && !IsSpace(text[at]) && SkipSpace(text, at) == at && text[at] != ']' && text[at] != '}'
    ensures doc.NullDoc? ==> text[at] == 'n'
    ensures doc.BoolDoc? ==> text[at] == if doc.b then 't' else 'f'
    ensures doc.IntDoc? ==> text[at] == '-' || IsDigit(text[at])
    ensures doc.DecDoc? ==> IsDigit(text[at])
    ensures doc.StrDoc? ==> text[at] == '\"'
    ensures doc.ArrDoc? || doc.EmptyArr? ==> text[at] == '['
    ensures doc.ObjDoc? || doc.EmptyObj? ==> text[at] == '{'
  {
    hide PiecesText, ItemsText, EntriesText;
    assert text[at..at + |Text(doc)|][0] == Text(doc)[0];
  }

  lemma ScalarReads(d: Dialect, text: string, at: nat, head: nat, nodes: nat, depth: nat, path: seq<Step>, doc: Doc)
    requires at <= |text| && SkipSpace(text, at) == head && Lawful(doc) && Starts(text, head, Text(doc))
    requires doc.NullDoc? || doc.BoolDoc? || doc.IntDoc? || doc.DecDoc? || doc.StrDoc?
    requires Delimited(text, head + |Text(doc)|) && Fits(d, Meaning(doc), depth, path) && nodes < MaxNodes(d)
    ensures ReadValue(d, text, at, nodes, depth, path) == Ok(Read(Meaning(doc), head + |Text(doc)|, nodes + 1))
  {
    hide String, Number, SkipSpace, Utf8Size, ReadItems, ReadMembers, Delimited;
    DocHead(text, head, doc);
    match doc
    case NullDoc =>
    case BoolDoc(b) =>
      NotThere(text, head, "null");
      if !b {
        NotThere(text, head, "true");
      }
    case IntDoc(minus, digits) => IntegerReads(d, text, head, minus, digits);
    case DecDoc(whole, fraction) =>
      TokenOf(whole, fraction);
      DecimalRoundTrip(text, head, whole + ("." + fraction));
    case StrDoc(ps) =>
      StringReads(d, text, head, head, ps);
  }

  // One unfolding of the readers at a time, wherever the spaces are.

  lemma ArrayOpens(d: Dialect, text: string, at: nat, head: nat, nodes: nat, depth: nat, path: seq<Step>)
    requires at <= |text| && SkipSpace(text, at) == head < |text| && text[head] == '['
    requires depth <= MAX_DEPTH && nodes < MaxNodes(d)
    ensures ReadValue(d, text, at, nodes, depth, path) ==
            var next := SkipSpace(text, head + 1);
            if next < |text| && text[next] == ']' then Ok(Read(Arr([]), next + 1, nodes + 1))
            else match ReadItems(d, text, next, nodes + 1, depth, path, [])
                 case Err(reason) => Err(reason)
                 case Ok(Read(vs, end, n)) => Ok(Read(Arr(vs), end, n))
  {
    hide ReadItems, ReadMembers, SkipSpace;
  }

  lemma ObjectOpens(d: Dialect, text: string, at: nat, head: nat, nodes: nat, depth: nat, path: seq<Step>)
    requires at <= |text| && SkipSpace(text, at) == head < |text| && text[head] == '{'
    requires depth <= MAX_DEPTH && nodes < MaxNodes(d)
    ensures ReadValue(d, text, at, nodes, depth, path) ==
            var next := SkipSpace(text, head + 1);
            if next < |text| && text[next] == '}' then Ok(Read(Obj([]), next + 1, nodes + 1))
            else match ReadMembers(d, text, next, nodes + 1, depth, path, [])
                 case Err(reason) => Err(reason)
                 case Ok(Read(ms, end, n)) => Ok(Read(Obj(ms), end, n))
  {
    hide ReadItems, ReadMembers, SkipSpace;
  }

  lemma ItemStep(d: Dialect, text: string, at: nat, nodes: nat, depth: nat, path: seq<Step>, sofar: seq<Value>, read: Read<Value>)
    requires at <= |text| && depth <= MAX_DEPTH && nodes <= MaxNodes(d) && |sofar| < ArrayLimitAt(d, path)
    requires ReadValue(d, text, at, nodes, depth + 1, path + [Index(|sofar|)]) == Ok(read)
    requires var close := SkipSpace(text, read.at); close < |text| && (text[close] == ']' || text[close] == ',')
    ensures var close, grown := SkipSpace(text, read.at), sofar + [read.value];
            ReadItems(d, text, at, nodes, depth, path, sofar) ==
            if text[close] == ']' then Ok(Read(grown, close + 1, read.nodes))
            else ReadItems(d, text, close + 1, read.nodes, depth, path, grown)
  {
    hide ReadValue, ArrayLimitAt;
    NoSpaceAt(text, SkipSpace(text, read.at));
  }

  lemma MemberStep(d: Dialect, text: string, at: nat, nodes: nat, depth: nat, path: seq<Step>, sofar: seq<Member>, key: string, afterKey: nat, colon: nat, read: Read<Value>)
    requires at <= |text| && depth <= MAX_DEPTH && nodes < MaxNodes(d) && !HasKey(sofar, key)
    requires String(d, text, at) == Ok(Got(key, afterKey)) && SkipSpace(text, afterKey) == colon < |text| && text[colon] == ':'
    requires ReadValue(d, text, colon + 1, nodes + 1, depth + 1, path + [Key(key)]) == Ok(read)
    requires var close := SkipSpace(text, read.at); close < |text| && (text[close] == '}' || text[close] == ',')
    ensures var close, grown := SkipSpace(text, read.at), sofar + [Member(key, read.value)];
            ReadMembers(d, text, at, nodes, depth, path, sofar) ==
            if text[close] == '}' then Ok(Read(grown, close + 1, read.nodes))
            else ReadMembers(d, text, close + 1, read.nodes, depth, path, grown)
  {
    hide ReadValue, String, HasKey;
    NoSpaceAt(text, SkipSpace(text, read.at));
  }

  /** Spaces in front of something that is no space. */
  lemma SpaceThen(text: string, at: nat, w: string, rest: string)
    requires at <= |text| && Starts(text, at, w + rest) && Spaces(w) && rest != [] && !IsSpace(rest[0])
    ensures Starts(text, at + |w|, rest) && SkipSpace(text, at) == at + |w| < |text| && text[at + |w|] == rest[0]
  {
    StartsSplits(text, at, w, rest);
    assert text[at + |w|..at + |w| + |rest|][0] == rest[0];
    SpaceOver(text, at, w);
  }

  lemma SpaceOrRest(text: string, at: nat, w: string, rest: string)
    requires at <= |text| && Starts(text, at, w + rest) && Spaces(w) && rest != [] && rest[0] in {',', ':', ']', '}'}
    ensures Delimited(text, at) && Starts(text, at + |w|, rest) && SkipSpace(text, at) == at + |w| < |text| && text[at + |w|] == rest[0]
  {
    SpaceThen(text, at, w, rest);
    if w != [] {
      assert text[at..at + |w + rest|][0] == w[0];
    }
  }

  lemma HeadOf(doc: Doc)
    requires Lawful(doc)
    ensures Text(doc) != [] && !IsSpace(Text(doc)[0]) && Text(doc)[0] != ']' && Text(doc)[0] != '}' && Text(doc)[0] != '\U{FEFF}'
  {
    hide PiecesText, ItemsText, EntriesText;
    assert Text(doc)[0..0 + |Text(doc)|] == Text(doc);
    DocHead(Text(doc), 0, doc);
  }

  /** Where a written value sits between its spaces, before a separator. */
  lemma ValueParts(text: string, at: nat, item: Item, tail: string)
    requires at <= |text| && Spaces(item.before) && Lawful(item.doc) && Spaces(item.after)
    requires tail != [] && tail[0] in {',', ']', '}'}
    requires Starts(text, at, item.before + (Text(item.doc) + (item.after + tail)))
    ensures var head := at + |item.before|;
            var end := head + |Text(item.doc)|;
            var close := end + |item.after|;
            && SkipSpace(text, at) == head && Starts(text, head, Text(item.doc)) && end <= |text| && Delimited(text, end)
            && head < |text| && text[head] != ']' && text[head] != '}' && SkipSpace(text, head) == head
            && SkipSpace(text, end) == close < |text| && text[close] == tail[0]
            && Starts(text, close + 1, tail[1..])
  {
    hide Starts, SkipSpace, Text, Lawful, Spaces, Delimited;
    var head := at + |item.before|;
    var end := head + |Text(item.doc)|;
    HeadOf(item.doc);
    assert (Text(item.doc) + (item.after + tail))[0] == Text(item.doc)[0];
    SpaceThen(text, at, item.before, Text(item.doc) + (item.after + tail));
    NoSpaceAt(text, head);
    StartsSplits(text, head, Text(item.doc), item.after + tail);
    Slice(text, head, Text(item.doc));
    SpaceOrRest(text, end, item.after, tail);
    assert tail == [tail[0]] + tail[1..];
    StartsSplits(text, end + |item.after|, [tail[0]], tail[1..]);
  }

  lemma {:induction false} ValueReads(d: Dialect, text: string, at: nat, head: nat, nodes: nat, depth: nat, path: seq<Step>, doc: Doc)
    requires at <= |text| && SkipSpace(text, at) == head && Lawful(doc) && Starts(text, head, Text(doc))
    requires Delimited(text, head + |Text(doc)|)
    requires Fits(d, Meaning(doc), depth, path) && nodes + Nodes(Meaning(doc)) <= MaxNodes(d)
    ensures ReadValue(d, text, at, nodes, depth, path)
            == Ok(Read(Meaning(doc), head + |Text(doc)|, nodes + Nodes(Meaning(doc))))
    decreases doc, 0
  {
    hide ReadValue, Starts, Delimited, SkipSpace, Lawful, Text, Meaning, Fits, Nodes;
    match doc
    case EmptyArr(space) => EmptyDocReads(d, text, at, head, nodes, depth, path, doc);
    case ArrDoc(items) => ArrDocReads(d, text, at, head, nodes, depth, path, doc);
    case EmptyObj(space) => EmptyDocReads(d, text, at, head, nodes, depth, path, doc);
    case ObjDoc(entries) => ObjDocReads(d, text, at, head, nodes, depth, path, doc);
    case _ => ScalarDocReads(d, text, at, head, nodes, depth, path, doc);
  }

  lemma EmptyDocReads(d: Dialect, text: string, at: nat, head: nat, nodes: nat, depth: nat, path: seq<Step>, doc: Doc)
    requires at <= |text| && SkipSpace(text, at) == head && Lawful(doc) && Starts(text, head, Text(doc))
    requires Fits(d, Meaning(doc), depth, path) && nodes + Nodes(Meaning(doc)) <= MaxNodes(d) && (doc.EmptyArr? || doc.EmptyObj?)
    ensures ReadValue(d, text, at, nodes, depth, path)
            == Ok(Read(Meaning(doc), head + |Text(doc)|, nodes + Nodes(Meaning(doc))))
  {
    hide ReadValue, Starts, SkipSpace, Spaces, ArrayLimitAt, Text;
    EmptyReads(d, text, at, head, nodes, depth, path, doc);
  }

  lemma ScalarDocReads(d: Dialect, text: string, at: nat, head: nat, nodes: nat, depth: nat, path: seq<Step>, doc: Doc)
    requires at <= |text| && SkipSpace(text, at) == head && Lawful(doc) && Starts(text, head, Text(doc))
    requires doc.NullDoc? || doc.BoolDoc? || doc.IntDoc? || doc.DecDoc? || doc.StrDoc?
    requires Delimited(text, head + |Text(doc)|)
    requires Fits(d, Meaning(doc), depth, path) && nodes + Nodes(Meaning(doc)) <= MaxNodes(d)
    ensures ReadValue(d, text, at, nodes, depth, path)
            == Ok(Read(Meaning(doc), head + |Text(doc)|, nodes + Nodes(Meaning(doc))))
  {
    hide ReadValue, Starts, SkipSpace, Delimited, Fits, Text;
    ScalarReads(d, text, at, head, nodes, depth, path, doc);
  }

  lemma {:induction false} ArrDocReads(d: Dialect, text: string, at: nat, head: nat, nodes: nat, depth: nat, path: seq<Step>, doc: Doc)
    requires at <= |text| && SkipSpace(text, at) == head && Lawful(doc) && Starts(text, head, Text(doc)) && doc.ArrDoc?
    requires Fits(d, Meaning(doc), depth, path) && nodes + Nodes(Meaning(doc)) <= MaxNodes(d)
    ensures ReadValue(d, text, at, nodes, depth, path)
            == Ok(Read(Meaning(doc), head + |Text(doc)|, nodes + Nodes(Meaning(doc))))
    decreases doc.items, 3
  {
    hide ReadValue, Starts, SkipSpace, ArrayLimitAt, ItemsText, ItemsFit, LawfulItems, ItemValues, ItemNodes;
    ArrayReads(d, text, at, head, nodes, depth, path, doc.items);
  }

  lemma {:induction false} ObjDocReads(d: Dialect, text: string, at: nat, head: nat, nodes: nat, depth: nat, path: seq<Step>, doc: Doc)
    requires at <= |text| && SkipSpace(text, at) == head && Lawful(doc) && Starts(text, head, Text(doc)) && doc.ObjDoc?
    requires Fits(d, Meaning(doc), depth, path) && nodes + Nodes(Meaning(doc)) <= MaxNodes(d)
    ensures ReadValue(d, text, at, nodes, depth, path)
            == Ok(Read(Meaning(doc), head + |Text(doc)|, nodes + Nodes(Meaning(doc))))
    decreases doc.entries, 3
  {
    hide ReadValue, Starts, SkipSpace, EntriesText, MembersFit, DistinctKeys, LawfulEntries, EntryMembers, MemberNodes;
    ObjectReads(d, text, at, head, nodes, depth, path, doc.entries);
  }

  lemma EmptyReads(d: Dialect, text: string, at: nat, head: nat, nodes: nat, depth: nat, path: seq<Step>, doc: Doc)
    requires at <= |text| && SkipSpace(text, at) == head && Lawful(doc) && Starts(text, head, Text(doc))
    requires (doc.EmptyArr? || doc.EmptyObj?) && depth <= MAX_DEPTH && nodes < MaxNodes(d)
    ensures ReadValue(d, text, at, nodes, depth, path) == Ok(Read(Meaning(doc), head + |Text(doc)|, nodes + 1))
  {
    hide ReadValue, Starts, Delimited, SkipSpace, Spaces;
    DocHead(text, head, doc);
    if doc.EmptyArr? {
      StartsSplits(text, head, "[", doc.space + "]");
      SpaceThen(text, head + 1, doc.space, "]");
      ArrayOpens(d, text, at, head, nodes, depth, path);
    } else {
      StartsSplits(text, head, "{", doc.space + "}");
      SpaceThen(text, head + 1, doc.space, "}");
      ObjectOpens(d, text, at, head, nodes, depth, path);
    }
  }

  lemma ArrayBegins(text: string, head: nat, items: seq<Item>)
    requires head <= |text| && items != [] && LawfulItems(items) && Starts(text, head, "[" + ItemsText(items))
    ensures head < |text| && text[head] == '[' && Starts(text, head + 1, ItemsText(items))
    ensures var next := SkipSpace(text, head + 1); next < |text| && text[next] != ']' && SkipSpace(text, next) == next
  {
    hide SkipSpace, ItemsText;
    StartsSplits(text, head, "[", ItemsText(items));
    assert text[head..head + 1][0] == '[';
    FirstItem(text, head + 1, items);
  }

  lemma {:induction false} ArrayReads(d: Dialect, text: string, at: nat, head: nat, nodes: nat, depth: nat, path: seq<Step>, items: seq<Item>)
    requires at <= |text| && SkipSpace(text, at) == head && items != [] && LawfulItems(items)
    requires Starts(text, head, "[" + ItemsText(items)) && depth <= MAX_DEPTH
    requires ItemsFit(d, ItemValues(items), depth + 1, path, 0) && |items| <= ArrayLimitAt(d, path)
    requires nodes + 1 + ItemNodes(ItemValues(items)) <= MaxNodes(d)
    ensures ReadValue(d, text, at, nodes, depth, path)
            == Ok(Read(Arr(ItemValues(items)), head + 1 + |ItemsText(items)|, nodes + 1 + ItemNodes(ItemValues(items))))
    decreases items, 2
  {
    hide ReadValue, ReadItems, Starts, SkipSpace, ArrayLimitAt, ItemsText, ItemsFit, LawfulItems, ItemValues, ItemNodes;
    ArrayBegins(text, head, items);
    ItemsRead(d, text, head + 1, SkipSpace(text, head + 1), nodes + 1, depth, path, [], items);
    ArrayOpens(d, text, at, head, nodes, depth, path);
    assert [] + ItemValues(items) == ItemValues(items);
  }

  lemma ObjectBegins(text: string, head: nat, entries: seq<Entry>)
    requires head <= |text| && entries != [] && LawfulEntries(entries) && Starts(text, head, "{" + EntriesText(entries))
    ensures head < |text| && text[head] == '{' && Starts(text, head + 1, EntriesText(entries))
    ensures var next := SkipSpace(text, head + 1); next < |text| && text[next] != '}' && SkipSpace(text, next) == next
  {
    hide SkipSpace, EntriesText;
    StartsSplits(text, head, "{", EntriesText(entries));
    assert text[head..head + 1][0] == '{';
    FirstKey(text, head + 1, entries);
  }

  lemma {:induction false} ObjectReads(d: Dialect, text: string, at: nat, head: nat, nodes: nat, depth: nat, path: seq<Step>, entries: seq<Entry>)
    requires at <= |text| && SkipSpace(text, at) == head && entries != [] && LawfulEntries(entries)
    requires Starts(text, head, "{" + EntriesText(entries)) && depth <= MAX_DEPTH
    requires MembersFit(d, EntryMembers(entries), depth + 1, path) && DistinctKeys(EntryMembers(entries))
    requires nodes + 1 + MemberNodes(EntryMembers(entries)) <= MaxNodes(d)
    ensures ReadValue(d, text, at, nodes, depth, path)
            == Ok(Read(Obj(EntryMembers(entries)), head + 1 + |EntriesText(entries)|, nodes + 1 + MemberNodes(EntryMembers(entries))))
    decreases entries, 2
  {
    hide ReadValue, ReadMembers, Starts, SkipSpace, EntriesText, MembersFit, DistinctKeys, LawfulEntries, EntryMembers, MemberNodes;
    ObjectBegins(text, head, entries);
    assert [] + EntryMembers(entries) == EntryMembers(entries);
    EntriesRead(d, text, head + 1, SkipSpace(text, head + 1), nodes + 1, depth, path, [], entries);
    ObjectOpens(d, text, at, head, nodes, depth, path);
  }

  lemma FirstItem(text: string, at: nat, items: seq<Item>)
    requires at <= |text| && items != [] && LawfulItems(items) && Starts(text, at, ItemsText(items))
    ensures var head := at + |items[0].before|;
            var end := head + |Text(items[0].doc)|;
            var close := end + |items[0].after|;
            && SkipSpace(text, at) == head && Starts(text, head, Text(items[0].doc)) && end <= |text| && Delimited(text, end)
            && head < |text| && text[head] != ']' && SkipSpace(text, head) == head
            && SkipSpace(text, end) == close < |text| && text[close] == (if |items| == 1 then ']' else ',')
            && (if |items| == 1 then at + |ItemsText(items)| == close + 1
                else Starts(text, close + 1, ItemsText(items[1..]))
                     && close + 1 + |ItemsText(items[1..])| == at + |ItemsText(items)| <= |text|)
  {
    hide Starts, SkipSpace, Text, Spaces, Delimited;
    var tail := if |items| == 1 then "]" else "," + ItemsText(items[1..]);
    ValueParts(text, at, items[0], tail);
    if |items| > 1 {
      assert tail[1..] == ItemsText(items[1..]);
      Slice(text, at, ItemsText(items));
    }
  }

  /** The first item, read from any place before it. */
  lemma {:induction false} FirstItemReads(d: Dialect, text: string, at: nat, from: nat, nodes: nat, depth: nat, path: seq<Step>, sofar: seq<Value>, items: seq<Item>)
    requires at <= from <= |text| && SkipSpace(text, from) == SkipSpace(text, at) && depth <= MAX_DEPTH
    requires items != [] && LawfulItems(items) && Lawful(items[0].doc) && Starts(text, at, ItemsText(items))
    requires Fits(d, Meaning(items[0].doc), depth + 1, path + [Index(|sofar|)]) && |sofar| < ArrayLimitAt(d, path)
    requires nodes + Nodes(Meaning(items[0].doc)) <= MaxNodes(d)
    ensures var v, end, rest := Meaning(items[0].doc), at + |ItemsText(items)|, ItemsText(items[1..]);
            if |items| == 1 then ReadItems(d, text, from, nodes, depth, path, sofar) == Ok(Read(sofar + [v], end, nodes + Nodes(v)))
            else
              && |rest| < end <= |text| && Starts(text, end - |rest|, rest)
              && ReadItems(d, text, from, nodes, depth, path, sofar)
                 == ReadItems(d, text, end - |rest|, nodes + Nodes(v), depth, path, sofar + [v])
    decreases items, 0
  {
    hide ReadItems, ReadValue, Starts, SkipSpace, Text, ItemsText, Fits, ArrayLimitAt, Delimited, Meaning, Lawful, LawfulItems, Nodes;
    var item, v := items[0], Meaning(items[0].doc);
    FirstItem(text, at, items);
    var head := at + |item.before|;
    var end := head + |Text(item.doc)|;
    ValueReads(d, text, from, head, nodes, depth + 1, path + [Index(|sofar|)], item.doc);
    ItemStep(d, text, from, nodes, depth, path, sofar, Read(v, end, nodes + Nodes(v)));
  }

  /** The items, read from any place before the first one. */
  lemma {:induction false} ItemsRead(d: Dialect, text: string, at: nat, from: nat, nodes: nat, depth: nat, path: seq<Step>, sofar: seq<Value>, items: seq<Item>)
    requires at <= from <= |text| && SkipSpace(text, from) == SkipSpace(text, at) && depth <= MAX_DEPTH
    requires items != [] && LawfulItems(items) && Starts(text, at, ItemsText(items))
    requires ItemsFit(d, ItemValues(items), depth + 1, path, |sofar|) && |sofar| + |items| <= ArrayLimitAt(d, path)
    requires nodes + ItemNodes(ItemValues(items)) <= MaxNodes(d)
    ensures ReadItems(d, text, from, nodes, depth, path, sofar)
            == Ok(Read(sofar + ItemValues(items), at + |ItemsText(items)|, nodes + ItemNodes(ItemValues(items))))
    decreases items, 1
  {
    hide ReadItems, Starts, SkipSpace, ItemsText, Fits, ArrayLimitAt, Meaning, Lawful, LawfulItems, ItemsFit, ItemValues, ItemNodes, Nodes;
    ItemValuesUnfold(d, items, depth + 1, path, |sofar|);
    FirstItemReads(d, text, at, from, nodes, depth, path, sofar, items);
    if |items| > 1 {
      var v, rest := Meaning(items[0].doc), items[1..];
      var next := at + |ItemsText(items)| - |ItemsText(rest)|;
      ItemsRead(d, text, next, next, nodes + Nodes(v), depth, path, sofar + [v], rest);
      assert sofar + [v] + ItemValues(rest) == sofar + ItemValues(items);
    } else {
      assert sofar + ItemValues(items) == sofar + [Meaning(items[0].doc)];
    }
  }

  lemma ItemValuesUnfold(d: Dialect, items: seq<Item>, depth: nat, path: seq<Step>, from: nat)
    requires items != [] && LawfulItems(items) && ItemsFit(d, ItemValues(items), depth, path, from)
    ensures Lawful(items[0].doc) && LawfulItems(items[1..])
    ensures var vs, v, rest := ItemValues(items), Meaning(items[0].doc), ItemValues(items[1..]);
            && vs == [v] + rest && ItemNodes(vs) == Nodes(v) + ItemNodes(rest) && (|items| == 1 ==> rest == [] && ItemNodes(rest) == 0)
            && Fits(d, v, depth, path + [Index(from)]) && ItemsFit(d, rest, depth, path, from + 1)
  {
    hide Meaning, Nodes, Fits;
    assert ItemValues(items)[1..] == ItemValues(items[1..]);
  }

  /** What follows the colon of the first entry. */
  function ValueText(entries: seq<Entry>): string
    requires entries != []
  {
    entries[0].item.before + (Text(entries[0].item.doc) + (entries[0].item.after
      + (if |entries| == 1 then "}" else "," + EntriesText(entries[1..]))))
  }

  lemma FirstKey(text: string, at: nat, entries: seq<Entry>)
    requires at <= |text| && entries != [] && LawfulEntries(entries) && Starts(text, at, EntriesText(entries))
    ensures var quote := at + |entries[0].before|;
            var afterKey := quote + |Quoted(entries[0].key)|;
            var colon := afterKey + |entries[0].after|;
            && SkipSpace(text, at) == quote < |text| && text[quote] == '\"' && SkipSpace(text, quote) == quote
            && Starts(text, quote, Quoted(entries[0].key)) && afterKey <= |text| && SkipSpace(text, afterKey) == colon < |text|
            && text[colon] == ':' && Starts(text, colon + 1, ValueText(entries))
            && colon + 1 + |ValueText(entries)| == at + |EntriesText(entries)|
  {
    hide Starts, SkipSpace, Text, Spaces, Quoted, Lawful;
    KeyParts(text, at, entries[0], ValueText(entries));
  }

  lemma FirstValue(text: string, at: nat, entries: seq<Entry>)
    requires at <= |text| && entries != [] && LawfulEntries(entries) && Starts(text, at, ValueText(entries))
    ensures var item := entries[0].item;
            var head := at + |item.before|;
            var end := head + |Text(item.doc)|;
            var close := end + |item.after|;
            && SkipSpace(text, at) == head && Starts(text, head, Text(item.doc)) && end <= |text| && Delimited(text, end)
            && SkipSpace(text, end) == close < |text| && text[close] == (if |entries| == 1 then '}' else ',')
            && (if |entries| == 1 then at + |ValueText(entries)| == close + 1
                else Starts(text, close + 1, EntriesText(entries[1..]))
                     && close + 1 + |EntriesText(entries[1..])| == at + |ValueText(entries)| <= |text|)
  {
    hide Starts, SkipSpace, Text, Spaces, Delimited, Quoted, EntriesText;
    var tail := if |entries| == 1 then "}" else "," + EntriesText(entries[1..]);
    ValueParts(text, at, entries[0].item, tail);
    if |entries| > 1 {
      assert tail[1..] == EntriesText(entries[1..]);
      Slice(text, at, ValueText(entries));
    }
  }

  /** Where a written key sits between its spaces, before its colon. */
  lemma KeyParts(text: string, at: nat, e: Entry, value: string)
    requires at <= |text| && Spaces(e.before) && Spaces(e.after)
    requires Starts(text, at, e.before + (Quoted(e.key) + (e.after + (":" + value))))
    ensures var quote := at + |e.before|;
            var afterKey := quote + |Quoted(e.key)|;
            var colon := afterKey + |e.after|;
            && SkipSpace(text, at) == quote < |text| && text[quote] == '\"' && SkipSpace(text, quote) == quote
            && Starts(text, quote, Quoted(e.key)) && afterKey <= |text| && SkipSpace(text, afterKey) == colon < |text| && text[colon] == ':'
            && Starts(text, colon + 1, value)
  {
    hide Starts, SkipSpace, Spaces, PiecesText;
    var quote, key, rest := at + |e.before|, Quoted(e.key), e.after + (":" + value);
    assert (key + rest)[0] == '\"';
    SpaceThen(text, at, e.before, key + rest);
    NoSpaceAt(text, quote);
    StartsSplits(text, quote, key, rest);
    Slice(text, quote, key);
    SpaceThen(text, quote + |key|, e.after, ":" + value);
    StartsSplits(text, quote + |key| + |e.after|, ":", value);
  }

  /** The first entry, read from any place before it. */
  lemma {:induction false} FirstEntryReads(d: Dialect, text: string, at: nat, from: nat, nodes: nat, depth: nat, path: seq<Step>, sofar: seq<Member>, entries: seq<Entry>)
    requires at <= from <= |text| && SkipSpace(text, from) == SkipSpace(text, at) && depth <= MAX_DEPTH
    requires entries != [] && LawfulEntries(entries) && Starts(text, at, EntriesText(entries))
    requires LawfulPieces(entries[0].key) && Utf8Size(CharsOf(entries[0].key)) <= MaxStringBytes(d) && Lawful(entries[0].item.doc)
    requires !HasKey(sofar, CharsOf(entries[0].key))
    requires Fits(d, Meaning(entries[0].item.doc), depth + 1, path + [Key(CharsOf(entries[0].key))])
    requires nodes + 1 + Nodes(Meaning(entries[0].item.doc)) <= MaxNodes(d)
    ensures var v, end, rest := Meaning(entries[0].item.doc), at + |EntriesText(entries)|, EntriesText(entries[1..]);
            var grown, n := sofar + [Member(CharsOf(entries[0].key), v)], nodes + 1 + Nodes(v);
            if |entries| == 1 then ReadMembers(d, text, from, nodes, depth, path, sofar) == Ok(Read(grown, end, n))
            else
              && |rest| < end <= |text| && Starts(text, end - |rest|, rest)
              && ReadMembers(d, text, from, nodes, depth, path, sofar) == ReadMembers(d, text, end - |rest|, n, depth, path, grown)
    decreases entries, 0
  {
    hide ReadMembers, ReadValue, Starts, SkipSpace, Text, EntriesText, Fits, Delimited, Meaning, Lawful, LawfulPieces,
      Quoted, String, HasKey, Utf8Size, CharsOf, LawfulEntries, Nodes, ValueText;
    var e, v, key := entries[0], Meaning(entries[0].item.doc), CharsOf(entries[0].key);
    FirstKey(text, at, entries);
    var quote := at + |e.before|;
    var afterKey := quote + |Quoted(e.key)|;
    var colon := afterKey + |e.after|;
    var head := colon + 1 + |e.item.before|;
    var end := head + |Text(e.item.doc)|;
    FirstValue(text, colon + 1, entries);
    StringReads(d, text, from, quote, e.key);
    ValueReads(d, text, colon + 1, head, nodes + 1, depth + 1, path + [Key(key)], e.item.doc);
    MemberStep(d, text, from, nodes, depth, path, sofar, key, afterKey, colon, Read(v, end, nodes + 1 + Nodes(v)));
  }

  lemma {:induction false} EntriesRead(d: Dialect, text: string, at: nat, from: nat, nodes: nat, depth: nat, path: seq<Step>, sofar: seq<Member>, entries: seq<Entry>)
    requires at <= from <= |text| && SkipSpace(text, from) == SkipSpace(text, at) && depth <= MAX_DEPTH
    requires entries != [] && LawfulEntries(entries) && Starts(text, at, EntriesText(entries))
    requires MembersFit(d, EntryMembers(entries), depth + 1, path) && DistinctKeys(sofar + EntryMembers(entries))
    requires nodes + MemberNodes(EntryMembers(entries)) <= MaxNodes(d)
    ensures ReadMembers(d, text, from, nodes, depth, path, sofar)
            == Ok(Read(sofar + EntryMembers(entries), at + |EntriesText(entries)|, nodes + MemberNodes(EntryMembers(entries))))
    decreases entries, 1
  {
    hide ReadMembers, Starts, SkipSpace, EntriesText, Fits, Meaning, Lawful, LawfulPieces, DistinctKeys, HasKey, Utf8Size, CharsOf,
      LawfulEntries, MembersFit, EntryMembers, MemberNodes, Nodes;
    EntryMembersUnfold(d, entries, depth + 1, path);
    NewKey(sofar, EntryMembers(entries));
    FirstEntryReads(d, text, at, from, nodes, depth, path, sofar, entries);
    if |entries| > 1 {
      var m, rest := Member(CharsOf(entries[0].key), Meaning(entries[0].item.doc)), entries[1..];
      var next := at + |EntriesText(entries)| - |EntriesText(rest)|;
      assert sofar + [m] + EntryMembers(rest) == sofar + EntryMembers(entries);
      EntriesRead(d, text, next, next, nodes + 1 + Nodes(m.value), depth, path, sofar + [m], rest);
    } else {
      assert sofar + EntryMembers(entries) == sofar + [Member(CharsOf(entries[0].key), Meaning(entries[0].item.doc))];
    }
  }

  lemma EntryMembersUnfold(d: Dialect, entries: seq<Entry>, depth: nat, path: seq<Step>)
    requires entries != [] && LawfulEntries(entries) && MembersFit(d, EntryMembers(entries), depth, path)
    ensures LawfulPieces(entries[0].key) && Lawful(entries[0].item.doc) && LawfulEntries(entries[1..])
    ensures var ms, rest := EntryMembers(entries), EntryMembers(entries[1..]);
            var m := Member(CharsOf(entries[0].key), Meaning(entries[0].item.doc));
            && ms == [m] + rest && MemberNodes(ms) == 1 + Nodes(m.value) + MemberNodes(rest) && (|entries| == 1 ==> rest == [] && MemberNodes(rest) == 0)
            && Utf8Size(m.key) <= MaxStringBytes(d) && Fits(d, m.value, depth, path + [Key(m.key)]) && MembersFit(d, rest, depth, path)
  {
    hide Meaning, Nodes, CharsOf, Fits, Utf8Size;
    assert EntryMembers(entries)[1..] == EntryMembers(entries[1..]);
  }

  // ----- what is read was written -----

  lemma HexFound(text: string, at: nat)
    requires at <= |text| && Hex4(text, at).Ok?
    ensures at + 4 <= |text| && IsHex(text[at..at + 4]) && Hex4(text, at) == Ok(Got(HexNumber(text[at..at + 4]), at + 4))
  {
    hide HexValue, HexDigits;
    HexAgrees(text[at]);
    HexAgrees(text[at + 1]);
    HexAgrees(text[at + 2]);
    HexAgrees(text[at + 3]);
    var h := text[at..at + 4];
    assert h[0] == text[at] && h[1] == text[at + 1] && h[2] == text[at + 2] && h[3] == text[at + 3];
  }

  lemma PieceFound(text: string, at: nat) returns (p: Piece)
    requires at < |text| && text[at] != '\"' && text[at] as int >= 32 && TakeOne(text, at).Ok?
    ensures LawfulPiece(p) && Starts(text, at, PieceText(p))
    ensures TakeOne(text, at) == Ok(Got(PieceChar(p), at + |PieceText(p)|))
  {
    hide Escape, HexNumber, IsHex, Shorts, HexDigits;
    if text[at] != '\\' {
      p := Plain(text[at]);
    } else {
      p := EscapeFound(text, at);
    }
  }

  lemma EscapeFound(text: string, at: nat) returns (p: Piece)
    requires at < |text| && text[at] == '\\' && Escape(text, at + 1).Ok?
    ensures LawfulPiece(p) && Starts(text, at, PieceText(p))
    ensures Escape(text, at + 1) == Ok(Got(PieceChar(p), at + |PieceText(p)|))
  {
    hide Hex4, HexNumber, ShortEscape, IsHex, Shorts, HexDigits;
    if text[at + 1] != 'u' {
      p := Short(text[at + 1]);
      ShortAgrees(text[at + 1]);
    } else {
      HexFound(text, at + 2);
      var high := text[at + 2..at + 6];
      LengthOfHex(high);
      if 0xD800 <= HexNumber(high) <= 0xDBFF {
        HexFound(text, at + 8);
        p := Pair(high, text[at + 8..at + 12]);
        assert text[at..at + 12] == "\\u" + high + ("\\u" + text[at + 8..at + 12]);
      } else {
        p := Code(high);
      }
    }
  }

  lemma {:induction false} PiecesFound(d: Dialect, text: string, at: nat, sofar: string, size: nat) returns (ps: seq<Piece>)
    requires at <= |text| && Chars(d, text, at, sofar, size).Ok?
    ensures LawfulPieces(ps) && Starts(text, at, PiecesText(ps) + "\"")
    ensures Chars(d, text, at, sofar, size).value == Got(sofar + CharsOf(ps), at + |PiecesText(ps)| + 1)
    decreases |text| - at
  {
    hide PieceText, PieceChar, LawfulPiece, Utf8, Escape, Starts;
    ps := [];
    if text[at] == '\"' {
      assert Starts(text, at, "\"") && sofar + CharsOf(ps) == sofar by { StartsHere(text, at, at + 1); }
      assert PiecesText(ps) + "\"" == "\"";
    } else {
      var p := PieceFound(text, at);
      var c, next := PieceChar(p), at + |PieceText(p)|;
      TakeOneStep(d, text, at, c, next, sofar, size);
      var rest := PiecesFound(d, text, next, sofar + [c], size + Utf8(c));
      ps := [p] + rest;
      StartsSplits(text, at, PieceText(p), PiecesText(rest) + "\"");
      assert PiecesText(ps) + "\"" == PieceText(p) + (PiecesText(rest) + "\"");
      assert sofar + CharsOf(ps) == sofar + [c] + CharsOf(rest);
    }
  }

  lemma StartsHere(text: string, at: nat, end: nat)
    requires at <= end <= |text|
    ensures Starts(text, at, text[at..end])
    ensures end == at + 1 ==> text[at..end] == [text[at]]
  {
  }

  lemma StringFound(d: Dialect, text: string, at: nat) returns (ps: seq<Piece>)
    requires at <= |text| && String(d, text, at).Ok?
    ensures LawfulPieces(ps) && Starts(text, SkipSpace(text, at), Quoted(ps))
    ensures String(d, text, at).value == Got(CharsOf(ps), SkipSpace(text, at) + |Quoted(ps)|)
  {
    hide Chars, CharsOf, PiecesText, Starts;
    var quote := SkipSpace(text, at);
    ps := PiecesFound(d, text, quote + 1, "", 0);
    assert "" + CharsOf(ps) == CharsOf(ps);
    StartsHere(text, quote, quote + 1);
    StartsSplits(text, quote, "\"", PiecesText(ps) + "\"");
  }

  lemma NumberFound(d: Dialect, text: string, at: nat) returns (doc: Doc)
    requires at < |text| && Number(d, text, at).Ok?
    ensures Lawful(doc) && Starts(text, at, Text(doc))
    ensures Number(d, text, at).value == Got(Meaning(doc), at + |Text(doc)|)
  {
    hide DigitsValue, SkipDigits, ValidToken, Fraction, Starts;
    var minus := text[at] == '-';
    var start := if minus then at + 1 else at;
    var end := SkipDigits(text, start);
    if d == Topology && end < |text| && text[end] == '.' {
      doc := FractionFound(text, at, end);
    } else {
      doc := IntDoc(minus, text[start..end]);
      StartsHere(text, at, end);
      assert text[at..end] == (if minus then "-" else "") + text[start..end];
    }
  }

  lemma FractionFound(text: string, at: nat, point: nat) returns (doc: Doc)
    requires at <= point < |text| && Fraction(text, at, point).Ok?
    ensures Lawful(doc) && Starts(text, at, Text(doc))
    ensures Fraction(text, at, point).value == Got(Meaning(doc), at + |Text(doc)|)
  {
    hide SkipDigits, ValidToken;
    var token := text[at..SkipDigits(text, point + 1)];
    TokenParts(token);
    doc := DecDoc(Whole(token), FractionOf(token));
    assert Text(doc) == token;
  }

  /** The item found between two cursors. */
  lemma ItemFound(text: string, at: nat, head: nat, end: nat, close: nat, doc: Doc) returns (item: Item)
    requires at <= |text| && SkipSpace(text, at) == head && Lawful(doc) && Starts(text, head, Text(doc)) && end == head + |Text(doc)|
    requires end <= |text| && SkipSpace(text, end) == close
    ensures Spaces(item.before) && item.doc == doc && Spaces(item.after)
    ensures Starts(text, at, item.before + (Text(doc) + item.after)) && close == at + |item.before + (Text(doc) + item.after)|
  {
    hide Text, Lawful, SkipSpace;
    item := Item(text[at..head], doc, text[end..close]);
    SpaceFound(text, at);
    SpaceFound(text, end);
    assert text[at..close] == text[at..head] + (text[head..end] + text[end..close]);
  }

  lemma {:induction false} ValueFound(d: Dialect, text: string, at: nat, nodes: nat, depth: nat, path: seq<Step>) returns (doc: Doc)
    requires at <= |text| && ReadValue(d, text, at, nodes, depth, path).Ok?
    ensures Lawful(doc) && Starts(text, SkipSpace(text, at), Text(doc))
    ensures var read := ReadValue(d, text, at, nodes, depth, path).value;
            read.value == Meaning(doc) && read.at == SkipSpace(text, at) + |Text(doc)|
    decreases MAX_DEPTH + 1 - depth, |text| - at, 2
  {
    hide String, Number, SkipSpace, ReadItems, ReadMembers, Starts, ItemsText, EntriesText, LawfulItems, LawfulEntries, Spaces;
    var head := SkipSpace(text, at);
    var ch, next := text[head], SkipSpace(text, head + 1);
    if ch == '\"' {
      var ps := StringFound(d, text, head);
      SkipTwice(text, at);
      doc := StrDoc(ps);
    } else if ch == '{' || ch == '[' {
      if next < |text| && text[next] == (if ch == '{' then '}' else ']') {
        doc := EmptyFound(text, head, next);
      } else if ch == '{' {
        SkipTwice(text, head + 1);
        var entries := EntriesFound(d, text, head + 1, next, nodes + 1, depth, path, []);
        doc := ObjDoc(entries);
        StartsHere(text, head, head + 1);
        StartsSplits(text, head, "{", EntriesText(entries));
        assert [] + EntryMembers(entries) == EntryMembers(entries);
      } else {
        SkipTwice(text, head + 1);
        var items := ItemsFound(d, text, head + 1, next, nodes + 1, depth, path, []);
        doc := ArrDoc(items);
        StartsHere(text, head, head + 1);
        StartsSplits(text, head, "[", ItemsText(items));
        assert [] + ItemValues(items) == ItemValues(items);
      }
    } else if ch == '-' || IsDigit(ch) {
      doc := NumberFound(d, text, head);
    } else if Starts(text, head, "null") {
      doc := NullDoc;
    } else {
      doc := BoolDoc(Starts(text, head, "true"));
    }
  }

  lemma SkipTwice(text: string, at: nat)
    requires at <= |text|
    ensures SkipSpace(text, SkipSpace(text, at)) == SkipSpace(text, at)
  {
  }

  lemma EmptyFound(text: string, head: nat, next: nat) returns (doc: Doc)
    requires head < |text| && next == SkipSpace(text, head + 1) < |text|
    requires (text[head] == '{' && text[next] == '}') || (text[head] == '[' && text[next] == ']')
    ensures Lawful(doc) && Starts(text, head, Text(doc)) && next + 1 == head + |Text(doc)|
    ensures Meaning(doc) == if text[head] == '{' then Obj([]) else Arr([])
  {
    SpaceFound(text, head + 1);
    var space := text[head + 1..next];
    doc := if text[head] == '{' then EmptyObj(space) else EmptyArr(space);
    assert text[head..next + 1] == [text[head]] + (space + [text[next]]);
  }

  lemma {:induction false} ItemsFound(d: Dialect, text: string, from: nat, at: nat, nodes: nat, depth: nat, path: seq<Step>, sofar: seq<Value>)
    returns (items: seq<Item>)
    requires from <= at <= |text| && SkipSpace(text, from) == SkipSpace(text, at) && depth <= MAX_DEPTH && nodes <= MaxNodes(d)
    requires ReadItems(d, text, at, nodes, depth, path, sofar).Ok?
    ensures items != [] && LawfulItems(items) && Starts(text, from, ItemsText(items))
    ensures var read := ReadItems(d, text, at, nodes, depth, path, sofar).value;
            read.value == sofar + ItemValues(items) && read.at == from + |ItemsText(items)|
    decreases MAX_DEPTH + 1 - depth, |text| - at, 1
  {
    hide ReadValue, SkipSpace, Starts, Text, Lawful, Meaning, Spaces, ArrayLimitAt, ItemsText, LawfulItems, ItemValues;
    var doc := ValueFound(d, text, at, nodes, depth + 1, path + [Index(|sofar|)]);
    var read := ReadValue(d, text, at, nodes, depth + 1, path + [Index(|sofar|)]).value;
    var close := SkipSpace(text, read.at);
    var item := ItemFound(text, from, SkipSpace(text, from), read.at, close, doc);
    SkipTwice(text, read.at);
    var rest: seq<Item> := [];
    if text[close] != ']' {
      rest := ItemsFound(d, text, close + 1, close + 1, read.nodes, depth, path, sofar + [read.value]);
    }
    items := [item] + rest;
    ItemsJoin(text, from, item, rest, close);
    ItemsCons(item, rest);
    assert sofar + ItemValues(items) == sofar + [read.value] + ItemValues(rest);
  }

  lemma ItemsCons(item: Item, rest: seq<Item>)
    requires Spaces(item.before) && Lawful(item.doc) && Spaces(item.after) && (rest == [] || LawfulItems(rest))
    ensures LawfulItems(rest) && LawfulItems([item] + rest) && ItemValues([item] + rest) == [Meaning(item.doc)] + ItemValues(rest)
    ensures rest == [] ==> ItemValues(rest) == []
  {
    hide Lawful, Meaning;
    assert ([item] + rest)[1..] == rest;
  }

  lemma EntriesCons(e: Entry, rest: seq<Entry>)
    requires Spaces(e.before) && LawfulPieces(e.key) && Spaces(e.after)
    requires Spaces(e.item.before) && Lawful(e.item.doc) && Spaces(e.item.after) && (rest == [] || LawfulEntries(rest))
    ensures LawfulEntries(rest) && LawfulEntries([e] + rest)
    ensures EntryMembers([e] + rest) == [Member(CharsOf(e.key), Meaning(e.item.doc))] + EntryMembers(rest)
    ensures rest == [] ==> EntryMembers(rest) == []
  {
    hide Lawful, Meaning, CharsOf, LawfulPieces;
    assert ([e] + rest)[1..] == rest;
  }

  lemma ItemsJoin(text: string, from: nat, item: Item, rest: seq<Item>, close: nat)
    requires from <= close < |text| && Starts(text, from, item.before + (Text(item.doc) + item.after))
    requires close == from + |item.before + (Text(item.doc) + item.after)|
    requires text[close] == if rest == [] then ']' else ','
    requires rest != [] ==> Starts(text, close + 1, ItemsText(rest))
    ensures var whole := ItemsText([item] + rest);
            Starts(text, from, whole) && from + |whole| == if rest == [] then close + 1 else close + 1 + |ItemsText(rest)|
  {
    hide Text, Starts;
    var body, tail := item.before + (Text(item.doc) + item.after), if rest == [] then "]" else "," + ItemsText(rest);
    assert ([item] + rest)[1..] == rest;
    assert ItemsText([item] + rest) == body + tail;
    StartsHere(text, close, close + 1);
    StartsSplits(text, close, [text[close]], ItemsText(rest));
    assert tail == [text[close]] + ItemsText(rest);
    StartsSplits(text, from, body, tail);
  }

  lemma {:induction false} EntriesFound(d: Dialect, text: string, from: nat, at: nat, nodes: nat, depth: nat, path: seq<Step>, sofar: seq<Member>)
    returns (entries: seq<Entry>)
    requires from <= at <= |text| && SkipSpace(text, from) == SkipSpace(text, at) && depth <= MAX_DEPTH && nodes <= MaxNodes(d)
    requires ReadMembers(d, text, at, nodes, depth, path, sofar).Ok?
    ensures entries != [] && LawfulEntries(entries) && Starts(text, from, EntriesText(entries))
    ensures var read := ReadMembers(d, text, at, nodes, depth, path, sofar).value;
            read.value == sofar + EntryMembers(entries) && read.at == from + |EntriesText(entries)|
    decreases MAX_DEPTH + 1 - depth, |text| - at, 1
  {
    hide ReadValue, SkipSpace, Starts, Text, Lawful, Meaning, Spaces, String, HasKey, LawfulPieces, CharsOf, Quoted, EntriesText,
      EntryText, LawfulEntries, EntryMembers;
    var key := String(d, text, at).value;
    var ps := StringFound(d, text, at);
    var colon := SkipSpace(text, key.at);
    var doc := ValueFound(d, text, colon + 1, nodes + 1, depth + 1, path + [Key(key.value)]);
    var read := ReadValue(d, text, colon + 1, nodes + 1, depth + 1, path + [Key(key.value)]).value;
    var close := SkipSpace(text, read.at);
    var item := ItemFound(text, colon + 1, SkipSpace(text, colon + 1), read.at, close, doc);
    var e := EntryFound(text, from, ps, colon, item);
    SkipTwice(text, read.at);
    var m := Member(key.value, read.value);
    var rest: seq<Entry> := [];
    if text[close] != '}' {
      rest := EntriesFound(d, text, close + 1, close + 1, read.nodes, depth, path, sofar + [m]);
    }
    entries := [e] + rest;
    EntriesJoin(text, from, e, rest, close);
    EntriesCons(e, rest);
    assert sofar + EntryMembers(entries) == sofar + [m] + EntryMembers(rest);
  }

  function EntryText(e: Entry): string {
    e.before + (Quoted(e.key) + (e.after + (":" + (e.item.before + (Text(e.item.doc) + e.item.after)))))
  }

  lemma EntryFound(text: string, from: nat, ps: seq<Piece>, colon: nat, item: Item) returns (e: Entry)
    requires from <= |text| && LawfulPieces(ps) && Starts(text, SkipSpace(text, from), Quoted(ps))
    requires SkipSpace(text, from) + |Quoted(ps)| <= |text| && SkipSpace(text, SkipSpace(text, from) + |Quoted(ps)|) == colon < |text|
    requires text[colon] == ':' && Starts(text, colon + 1, item.before + (Text(item.doc) + item.after))
    ensures e.key == ps && e.item == item && Spaces(e.before) && Spaces(e.after)
    ensures Starts(text, from, EntryText(e)) && from + |EntryText(e)| == colon + 1 + |item.before + (Text(item.doc) + item.after)|
  {
    hide Quoted, Text, LawfulPieces, SkipSpace, Spaces, Starts;
    var quote := SkipSpace(text, from);
    var afterKey := quote + |Quoted(ps)|;
    e := Entry(text[from..quote], ps, text[afterKey..colon], item);
    SpaceFound(text, from);
    SpaceFound(text, afterKey);
    var value := item.before + (Text(item.doc) + item.after);
    StartsHere(text, from, quote);
    StartsHere(text, afterKey, colon);
    StartsHere(text, colon, colon + 1);
    StartsSplits(text, colon, ":", value);
    StartsSplits(text, afterKey, e.after, ":" + value);
    StartsSplits(text, quote, Quoted(ps), e.after + (":" + value));
    StartsSplits(text, from, e.before, Quoted(ps) + (e.after + (":" + value)));
  }

  lemma EntriesJoin(text: string, from: nat, e: Entry, rest: seq<Entry>, close: nat)
    requires Starts(text, from, EntryText(e)) && from <= close < |text| && close == from + |EntryText(e)|
    requires text[close] == if rest == [] then '}' else ','
    requires rest != [] ==> Starts(text, close + 1, EntriesText(rest))
    ensures var whole := EntriesText([e] + rest);
            Starts(text, from, whole) && from + |whole| == if rest == [] then close + 1 else close + 1 + |EntriesText(rest)|
  {
    hide Text, Starts, Quoted;
    var tail := if rest == [] then "}" else "," + EntriesText(rest);
    assert ([e] + rest)[1..] == rest;
    assert EntriesText([e] + rest) == EntryText(e) + tail;
    StartsHere(text, close, close + 1);
    StartsSplits(text, close, [text[close]], EntriesText(rest));
    assert tail == [text[close]] + EntriesText(rest);
    StartsSplits(text, from, EntryText(e), tail);
  }

  // ----- exactly the written documents are accepted -----

  lemma ValueFits(d: Dialect, text: string, v: Value, item: Item)
    requires Writes(item, text, v) && Fits(d, v, 1, []) && Nodes(v) <= MaxNodes(d)
    ensures text != [] && text[0] != '\U{FEFF}'
    ensures var r := ReadValue(d, text, 0, 0, 1, []); r.Ok? && r.value.value == v && SkipSpace(text, r.value.at) == |text|
  {
    hide Fits, Text, Lawful, Meaning, ReadValue, Spaces, SkipSpace, Nodes, Starts, Delimited;
    var head := |item.before|;
    WholeParts(text, item);
    ValueReads(d, text, 0, head, 0, 1, [], item.doc);
  }

  /** Where the value of a whole text sits. */
  lemma WholeParts(text: string, item: Item)
    requires Spaces(item.before) && Lawful(item.doc) && Spaces(item.after) && text == item.before + (Text(item.doc) + item.after)
    ensures text != [] && text[0] != '\U{FEFF}'
    ensures var head := |item.before|;
            var end := head + |Text(item.doc)|;
            && SkipSpace(text, 0) == head && Starts(text, head, Text(item.doc)) && end <= |text|
            && Delimited(text, end) && SkipSpace(text, end) == |text|
  {
    hide Text, Lawful, Spaces, SkipSpace, Delimited, Starts;
    var head, body := |item.before|, Text(item.doc);
    HeadOf(item.doc);
    StartsHere(text, 0, |text|);
    assert text[0..|text|] == text && (body + item.after)[0] == body[0];
    SpaceThen(text, 0, item.before, body + item.after);
    StartsSplits(text, head, body, item.after);
    SpaceEnds(text, head + |body|, item.after);
    NoMark(text, item.before, body, item.after);
  }

  lemma NoMark(text: string, before: string, body: string, after: string)
    requires text == before + (body + after) && Spaces(before) && body != [] && body[0] != '\U{FEFF}'
    ensures text != [] && text[0] != '\U{FEFF}'
  {
    if before == [] {
      assert text[0] == body[0];
    } else {
      assert text[0] == before[0];
    }
  }

  lemma SpaceEnds(text: string, at: nat, w: string)
    requires at + |w| == |text| && Starts(text, at, w) && Spaces(w)
    ensures Delimited(text, at) && SkipSpace(text, at) == |text|
  {
    SpaceOver(text, at, w);
    if w != [] {
      assert text[at..at + |w|][0] == w[0];
    }
  }

  /** The parser accepts a text as a value exactly when the text is within the size limit and denotes that
      value, and the value is within the limits of depth, nodes, arrays, strings and numbers, with
      distinct keys. */
  lemma ParseExact(d: Dialect, text: string, v: Value)
    ensures Parse(d, text) == Ok(v) <==>
            0 < Utf8Size(text) <= MaxBytes(d) && Denotes(text, v) && Fits(d, v, 1, []) && Nodes(v) <= MaxNodes(d)
  {
    hide Fits, Text, Lawful, Meaning, ReadValue, Spaces, SkipSpace, Nodes, Utf8Size, Starts;
    if Parse(d, text) == Ok(v) {
      ReadFits(d, text, 0, 0, 1, []);
      var doc := ValueFound(d, text, 0, 0, 1, []);
      var end := ReadValue(d, text, 0, 0, 1, []).value.at;
      var item := ItemFound(text, 0, SkipSpace(text, 0), end, |text|, doc);
      Slice(text, 0, item.before + (Text(doc) + item.after));
      assert text[0..0 + |text|] == text;
      assert Writes(item, text, v);
    }
    if Denotes(text, v) && Fits(d, v, 1, []) && Nodes(v) <= MaxNodes(d) {
      var item :| Writes(item, text, v);
      ValueFits(d, text, v, item);
    }
  }

  // ----- printing, as json.dumps with compact separators -----

  function HexDigit(d: nat): char
    requires d < 16
  {
    if d < 10 then ('0' as int + d) as char else ('a' as int + d - 10) as char
  }

  function PrintHex4(n: nat): (p: string)
    requires n < 0x1_0000
    ensures |p| == 6 && p[0] == '\\' && p[1] == 'u'
  {
    ['\\', 'u', HexDigit(n / 4096), HexDigit(n / 256 % 16), HexDigit(n / 16 % 16), HexDigit(n % 16)]
  }

  function PrintChar(c: char): string {
    var n := c as int;
    if c == '\"' then "\\\""
    else if c == '\\' then "\\\\"
    else if c == '\n' then "\\n"
    else if c == '\r' then "\\r"
    else if c == '\t' then "\\t"
    else if n == 8 then "\\b"
    else if n == 12 then "\\f"
    else if 32 <= n <= 126 then [c]
    else if n < 0x1_0000 then PrintHex4(n)
    else PrintHex4(0xD800 + (n - 0x1_0000) / 1024) + PrintHex4(0xDC00 + (n - 0x1_0000) % 1024)
  }

  function PrintChars(s: string): string {
    if s == [] then [] else PrintChar(s[0]) + PrintChars(s[1..])
  }

  function PrintString(s: string): string { "\"" + (PrintChars(s) + "\"") }

  function PrintInt(n: int): string { if n < 0 then "-" + Digits(-n) else Digits(n) }

  function Print(v: Value): string
    decreases v
  {
    match v
    case Null => "null"
    case Bool(b) => if b then "true" else "false"
    case Int(n) => PrintInt(n)
    case Dec(token) => token
    case Str(s) => PrintString(s)
    case Arr(items) => if items == [] then "[]" else "[" + PrintItems(items)
    case Obj(members) => if members == [] then "{}" else "{" + PrintMembers(members)
  }

  /** The elements and the closing bracket. */
  function PrintItems(items: seq<Value>): string
    requires items != []
    decreases items
  {
    Print(items[0]) + (if |items| == 1 then "]" else "," + PrintItems(items[1..]))
  }

  function PrintMembers(members: seq<Member>): string
    requires members != []
    decreases members
  {
    PrintString(members[0].key) + (":" + (Print(members[0].value) + (if |members| == 1 then "}" else "," + PrintMembers(members[1..]))))
  }

  // ----- printed values are written documents -----

  function PieceOf(c: char): Piece {
    var n := c as int;
    if c == '\"' || c == '\\' then Short(c)
    else if c == '\n' then Short('n')
    else if c == '\r' then Short('r')
    else if c == '\t' then Short('t')
    else if n == 8 then Short('b')
    else if n == 12 then Short('f')
    else if 32 <= n <= 126 then Plain(c)
    else if n < 0x1_0000 then Code(PrintHex4(n)[2..])
    else Pair(PrintHex4(0xD800 + (n - 0x1_0000) / 1024)[2..], PrintHex4(0xDC00 + (n - 0x1_0000) % 1024)[2..])
  }

  function PiecesOf(s: string): seq<Piece> {
    if s == [] then [] else [PieceOf(s[0])] + PiecesOf(s[1..])
  }

  /** The document a printed value is. */
  function DocOf(v: Value): Doc
    decreases v
  {
    match v
    case Null => NullDoc
    case Bool(b) => BoolDoc(b)
    case Int(n) => IntDoc(n < 0, Digits(if n < 0 then -n else n))
    case Dec(token) => if ValidToken(token) then DecDoc(Whole(token), FractionOf(token)) else NullDoc
    case Str(s) => StrDoc(PiecesOf(s))
    case Arr(items) => if items == [] then EmptyArr("") else ArrDoc(ItemsOf(items))
    case Obj(members) => if members == [] then EmptyObj("") else ObjDoc(EntriesOf(members))
  }

  function ItemsOf(vs: seq<Value>): (items: seq<Item>)
    ensures |items| == |vs|
    decreases vs
  {
    if vs == [] then [] else [Item("", DocOf(vs[0]), "")] + ItemsOf(vs[1..])
  }

  function EntriesOf(ms: seq<Member>): (entries: seq<Entry>)
    ensures |entries| == |ms|
    decreases ms
  {
    if ms == [] then []
    else [Entry("", PiecesOf(ms[0].key), "", Item("", DocOf(ms[0].value), ""))] + EntriesOf(ms[1..])
  }

  lemma HexSum(n: nat)
    requires n < 0x1_0000
    ensures n == n / 4096 * 4096 + n / 256 % 16 * 256 + n / 16 % 16 * 16 + n % 16
  {
    assert n / 256 == n / 4096 * 16 + n / 256 % 16;
    assert n / 16 == n / 256 * 16 + n / 16 % 16;
  }

  lemma HexDigitInverse(k: nat)
    requires k < 16
    ensures HexDigit(k) in HexDigits() && HexDigits()[HexDigit(k)] == k
  {
  }

  lemma HexOf(n: nat)
    requires n < 0x1_0000
    ensures var h := PrintHex4(n)[2..]; IsHex(h) && HexNumber(h) == n && "\\u" + h == PrintHex4(n)
  {
    hide HexDigits, HexDigit;
    HexDigitInverse(n / 4096);
    HexDigitInverse(n / 256 % 16);
    HexDigitInverse(n / 16 % 16);
    HexDigitInverse(n % 16);
    HexSum(n);
  }

  /** One printed character is that character, escapes and surrogate pairs included. */
  lemma CharWritten(c: char)
    ensures LawfulPiece(PieceOf(c)) && PieceText(PieceOf(c)) == PrintChar(c) && PieceChar(PieceOf(c)) == c
  {
    hide IsHex, HexNumber, PrintHex4;
    var n := c as int;
    if n >= 0x1_0000 {
      HexOf(0xD800 + (n - 0x1_0000) / 1024);
      HexOf(0xDC00 + (n - 0x1_0000) % 1024);
    } else {
      HexOf(n);
    }
  }

  lemma {:induction false} StringWritten(s: string)
    ensures LawfulPieces(PiecesOf(s)) && PiecesText(PiecesOf(s)) == PrintChars(s) && CharsOf(PiecesOf(s)) == s
  {
    hide PieceOf, LawfulPiece, PieceText, PieceChar, PrintChar;
    if s != [] {
      CharWritten(s[0]);
      StringWritten(s[1..]);
      assert PiecesOf(s)[1..] == PiecesOf(s[1..]);
    }
  }

  predicate TokensValid(v: Value)
    decreases v
  {
    match v
    case Dec(token) => ValidToken(token)
    case Arr(items) => ItemTokensValid(items)
    case Obj(members) => MemberTokensValid(members)
    case _ => true
  }

  predicate ItemTokensValid(vs: seq<Value>)
    decreases vs
  {
    vs == [] || (TokensValid(vs[0]) && ItemTokensValid(vs[1..]))
  }

  predicate MemberTokensValid(ms: seq<Member>)
    decreases ms
  {
    ms == [] || (TokensValid(ms[0].value) && MemberTokensValid(ms[1..]))
  }

  lemma {:induction false} ValueWritten(v: Value)
    requires TokensValid(v)
    ensures Lawful(DocOf(v)) && Text(DocOf(v)) == Print(v) && Meaning(DocOf(v)) == v
    decreases v, 0
  {
    hide ItemsText, EntriesText, LawfulItems, LawfulEntries, ItemValues, EntryMembers, ItemsOf, EntriesOf, ItemTokensValid,
      MemberTokensValid, ValidToken, Quoted, PiecesOf, Whole, FractionOf, Digits, DigitsValue, LawfulPieces, PrintItems, PrintMembers;
    match v
    case Arr(items) => ItemsWritten(items);
    case Obj(members) => EntriesWritten(members);
    case _ => ScalarWritten(v);
  }

  lemma ScalarWritten(v: Value)
    requires TokensValid(v) && !v.Arr? && !v.Obj?
    ensures Lawful(DocOf(v)) && Text(DocOf(v)) == Print(v) && Meaning(DocOf(v)) == v
  {
    hide DigitsValue, Digits, ValidToken, PiecesOf, PiecesText, CharsOf, LawfulPieces, Whole, FractionOf;
    match v
    case Int(n) => DigitsMean(if n < 0 then -n else n);
    case Dec(token) => TokenParts(token);
    case Str(s) => StringWritten(s);
    case _ =>
  }

  lemma {:induction false} ItemsWritten(vs: seq<Value>)
    requires ItemTokensValid(vs)
    ensures LawfulItems(ItemsOf(vs)) && ItemValues(ItemsOf(vs)) == vs
    ensures vs != [] ==> ItemsText(ItemsOf(vs)) == PrintItems(vs)
    decreases vs, 0
  {
    hide DocOf, Lawful, Text, Meaning, TokensValid, Print;
    if vs != [] {
      var first, rest := Item("", DocOf(vs[0]), ""), ItemsOf(vs[1..]);
      ValueWritten(vs[0]);
      ItemsWritten(vs[1..]);
      ItemsCons(first, rest);
      ItemsGrow(first, rest);
    }
  }

  lemma ItemsGrow(item: Item, rest: seq<Item>)
    requires item.before == item.after == ""
    ensures ItemsText([item] + rest) == Text(item.doc) + (if rest == [] then "]" else "," + ItemsText(rest))
  {
    hide Text;
    assert ([item] + rest)[1..] == rest;
  }

  lemma {:induction false} EntriesWritten(ms: seq<Member>)
    requires MemberTokensValid(ms)
    ensures LawfulEntries(EntriesOf(ms)) && EntryMembers(EntriesOf(ms)) == ms
    ensures ms != [] ==> EntriesText(EntriesOf(ms)) == PrintMembers(ms)
    decreases ms, 0
  {
    hide DocOf, Lawful, Text, Meaning, TokensValid, LawfulPieces, PiecesOf, CharsOf, PiecesText, PrintChars, Print;
    if ms != [] {
      var first, rest := Entry("", PiecesOf(ms[0].key), "", Item("", DocOf(ms[0].value), "")), EntriesOf(ms[1..]);
      StringWritten(ms[0].key);
      ValueWritten(ms[0].value);
      EntriesWritten(ms[1..]);
      EntriesCons(first, rest);
      EntriesGrow(first, rest);
    }
  }

  lemma EntriesGrow(e: Entry, rest: seq<Entry>)
    requires e.before == e.after == e.item.before == e.item.after == ""
    ensures EntriesText([e] + rest)
            == Quoted(e.key) + (":" + (Text(e.item.doc) + (if rest == [] then "}" else "," + EntriesText(rest))))
  {
    hide Text, Quoted;
    assert ([e] + rest)[1..] == rest;
  }

  /** Every printed value denotes itself. */
  lemma PrintedDenotes(v: Value)
    requires TokensValid(v)
    ensures Denotes(Print(v), v)
  {
    hide Print, DocOf, Text, Lawful, Meaning;
    ValueWritten(v);
    var item := Item("", DocOf(v), "");
    assert "" + (Print(v) + "") == Print(v);
    assert Writes(item, Print(v), v);
  }

  lemma {:induction false} FittingTokens(d: Dialect, v: Value, depth: nat, path: seq<Step>)
    requires Fits(d, v, depth, path)
    ensures TokensValid(v)
    decreases v, 0
  {
    match v
    case Arr(items) => FittingItems(d, items, depth + 1, path, 0);
    case Obj(members) => FittingMembers(d, members, depth + 1, path);
    case _ =>
  }

  lemma {:induction false} FittingItems(d: Dialect, vs: seq<Value>, depth: nat, path: seq<Step>, from: nat)
    requires ItemsFit(d, vs, depth, path, from)
    ensures ItemTokensValid(vs)
    decreases vs, 0
  {
    hide Fits, TokensValid;
    if vs != [] {
      FittingTokens(d, vs[0], depth, path + [Index(from)]);
      FittingItems(d, vs[1..], depth, path, from + 1);
    }
  }

  lemma {:induction false} FittingMembers(d: Dialect, ms: seq<Member>, depth: nat, path: seq<Step>)
    requires MembersFit(d, ms, depth, path)
    ensures MemberTokensValid(ms)
    decreases ms, 0
  {
    hide Fits, TokensValid;
    if ms != [] {
      FittingTokens(d, ms[0].value, depth, path + [Key(ms[0].key)]);
      FittingMembers(d, ms[1..], depth, path);
    }
  }

  lemma PrintedNotEmpty(v: Value)
    requires TokensValid(v)
    ensures Utf8Size(Print(v)) > 0
  {
    hide DocOf, Lawful, Meaning, Print, Text;
    ValueWritten(v);
    HeadOf(DocOf(v));
    var s := Print(v);
    assert s == s[..|s| - 1] + [s[|s| - 1]];
  }

  /** Every value within the limits whose printed form fits the byte cap parses back to itself. */
  lemma PrintedParsesBack(d: Dialect, v: Value)
    requires Fits(d, v, 1, []) && Nodes(v) <= MaxNodes(d) && Utf8Size(Print(v)) <= MaxBytes(d)
    ensures Parse(d, Print(v)) == Ok(v)
  {
    hide Print, Fits, Nodes, Utf8Size, Parse, Denotes;
    FittingTokens(d, v, 1, []);
    PrintedDenotes(v);
    PrintedNotEmpty(v);
    ParseExact(d, Print(v), v);
  }

  /** So printing an accepted value and parsing it again changes nothing. */
  lemma ParsePrintParse(d: Dialect, text: string)
    requires Parse(d, text).Ok? && Utf8Size(Print(Parse(d, text).value)) <= MaxBytes(d)
    ensures Parse(d, Print(Parse(d, text).value)) == Parse(d, text)
  {
    hide Print, Fits, Nodes, Utf8Size, Parse;
    ParseExact(d, text, Parse(d, text).value);
    PrintedParsesBack(d, Parse(d, text).value);
  }

  // ----- over bytes -----

  lemma {:induction false} EncodedSize(s: string)
    ensures |Utf.Encode(s)| == Utf8Size(s)
  {
    if s != [] {
      EncodedSize(s[1..]);
      Utf8SizeCons(s[0], s[1..]);
      assert s == [s[0]] + s[1..];
    }
  }

  /** The bytes are a document of this value, within every limit. */
  ghost predicate Accepts(d: Dialect, raw: seq<Byte>, v: Value) {
    && 0 < |raw| <= MaxBytes(d) && (exists text: string :: raw == Utf.Encode(text) && Denotes(text, v))
    && Fits(d, v, 1, []) && Nodes(v) <= MaxNodes(d)
  }

  lemma BytesExact(d: Dialect, raw: seq<Byte>, v: Value)
    ensures ParseBytes(d, raw) == Ok(v) <==> Accepts(d, raw, v)
  {
    hide Fits, Nodes, Denotes, Parse, Utf.Decode, Utf.Encode;
    if ParseBytes(d, raw) == Ok(v) {
      var text := Utf.Decode(raw).value;
      Utf.DecodeExact(raw, text);
      ParseExact(d, text, v);
      assert raw == Utf.Encode(text) && Denotes(text, v);
    }
    if Accepts(d, raw, v) {
      var text: string :| raw == Utf.Encode(text) && Denotes(text, v);
      Utf.DecodeExact(raw, text);
      EncodedSize(text);
      ParseExact(d, text, v);
    }
  }

  /** Over bytes: every value within the limits comes back from the encoding of its printed form. */
  lemma BytesParseBack(d: Dialect, v: Value)
    requires Fits(d, v, 1, []) && Nodes(v) <= MaxNodes(d) && |Utf.Encode(Print(v))| <= MaxBytes(d)
    ensures ParseBytes(d, Utf.Encode(Print(v))) == Ok(v)
  {
    hide Parse, Fits, Nodes, Print;
    EncodedSize(Print(v));
    PrintedParsesBack(d, v);
    Utf.DecodeExact(Utf.Encode(Print(v)), Print(v));
    NotEmpty(d, Print(v));
  }

  lemma NotEmpty(d: Dialect, text: string)
    requires Parse(d, text).Ok?
    ensures Utf8Size(text) > 0
  {
  }

  predicate MarkedAt(raw: seq<Byte>) { |raw| >= 3 && raw[0] == 0xEF && raw[1] == 0xBB && raw[2] == 0xBF }

  /** A byte order mark is the encoding of U+FEFF, and nothing else starts with it. */
  lemma MarkMeans(raw: seq<Byte>)
    ensures MarkedAt(raw) ==> Utf.Decode(raw).None? || (Utf.Decode(raw).value != [] && Utf.Decode(raw).value[0] == '\U{FEFF}')
    ensures !MarkedAt(raw) && Utf.Decode(raw).Some? ==> Utf.Decode(raw).value == [] || Utf.Decode(raw).value[0] != '\U{FEFF}'
  {
    if MarkedAt(raw) {
      assert raw == Utf.EncodeChar('\U{FEFF}') + raw[3..];
      Utf.HeadOfEncoded('\U{FEFF}', raw[3..]);
    } else if Utf.Decode(raw).Some? {
      Utf.DecodeExact(raw, Utf.Decode(raw).value);
    }
  }

  /** The entry point: bounds on the bytes first, then the byte order mark, then strict decoding, then the
      parser, then nothing may remain but space.  It returns a value exactly for the documents of that
      value, and an accepted document parses back from its own printed form. */
  method BoundedJson(d: Dialect, raw: seq<Byte>) returns (r: Result<Value, Reason>)
    ensures forall v :: r == Ok(v) <==> Accepts(d, raw, v)
    ensures !(0 < |raw| <= MaxBytes(d)) ==> r == Err(SizeInvalid)
    ensures 0 < |raw| <= MaxBytes(d) && (MarkedAt(raw) || !exists text: string :: raw == Utf.Encode(text)) ==> r == Err(EncodingInvalid)
    ensures r == ParseBytes(d, raw)
    ensures r.Ok? && |Utf.Encode(Print(r.value))| <= MaxBytes(d) ==> ParseBytes(d, Utf.Encode(Print(r.value))) == r
  {
    hide Parse, Fits, Print, Nodes, Utf.Decode, Utf.Encode, Accepts;
    forall v
      ensures ParseBytes(d, raw) == Ok(v) <==> Accepts(d, raw, v)
    {
      BytesExact(d, raw, v);
    }
    if !(0 < |raw| <= MaxBytes(d)) {
      return Err(SizeInvalid);
    }
    MarkMeans(raw);
    DecodedSize(raw);
    if MarkedAt(raw) {
      MarkRefused(d, raw);
      return Err(EncodingInvalid);
    }
    var text := Utf.Decode(raw);
    if text.None? {
      Undecodable(raw);
      return Err(EncodingInvalid);
    }
    Utf.DecodeExact(raw, text.value);
    r := ParseText(d, text.value);
    if r.Ok? && |Utf.Encode(Print(r.value))| <= MaxBytes(d) {
      AcceptsFit(d, raw, r.value);
      BytesParseBack(d, r.value);
    }
  }

  lemma AcceptsFit(d: Dialect, raw: seq<Byte>, v: Value)
    requires Accepts(d, raw, v)
    ensures Fits(d, v, 1, []) && Nodes(v) <= MaxNodes(d)
  {
  }

  lemma MarkRefused(d: Dialect, raw: seq<Byte>)
    requires MarkedAt(raw) && 0 < |raw| <= MaxBytes(d)
    ensures ParseBytes(d, raw) == Err(EncodingInvalid)
  {
    hide ReadValue, Utf.Decode;
    MarkMeans(raw);
    DecodedSize(raw);
  }

  lemma Undecodable(raw: seq<Byte>)
    requires Utf.Decode(raw).None?
    ensures !exists text: string :: raw == Utf.Encode(text)
  {
    if exists text: string :: raw == Utf.Encode(text) {
      var text: string :| raw == Utf.Encode(text);
      Utf.DecodeExact(raw, text);
    }
  }

  lemma DecodedSize(raw: seq<Byte>)
    ensures Utf.Decode(raw).Some? ==> Utf8Size(Utf.Decode(raw).value) == |raw|
  {
    if Utf.Decode(raw).Some? {
      Utf.DecodeExact(raw, Utf.Decode(raw).value);
      EncodedSize(Utf.Decode(raw).value);
    }
  }

  /** The parser over the decoded text, and the end of it. */
  method ParseText(d: Dialect, text: string) returns (r: Result<Value, Reason>)
    requires 0 < Utf8Size(text) <= MaxBytes(d) && (text != [] ==> text[0] != '\U{FEFF}')
    ensures r == Parse(d, text)
  {
    hide ReadValue;
    var parser := new Parser(d, text);
    r := parser.Value(1, []);
    if r.Err? {
      return;
    }
    parser.Whitespace();
    if parser.at != |text| {
      return Err(Invalid);
    }
  }
}
