/** Strict UTF-8, as section 4 of RFC 3629 defines it: shortest forms only, no surrogates. */
module Utf8 {
  import opened Base

  function EncodeChar(c: char): (bs: seq<Byte>)
    ensures 1 <= |bs| <= 4
  {
    var n := c as int;
    if n < 0x80 then [n]
    else if n < 0x800 then [0xC0 + n / 64, 0x80 + n % 64]
    else if n < 0x1_0000 then [0xE0 + n / 4096, 0x80 + n / 64 % 64, 0x80 + n % 64]
    else [0xF0 + n / 0x4_0000, 0x80 + n / 4096 % 64, 0x80 + n / 64 % 64, 0x80 + n % 64]
  }

  function Encode(s: string): seq<Byte> {
    if s == [] then [] else EncodeChar(s[0]) + Encode(s[1..])
  }

  predicate Continues(bs: seq<Byte>, i: nat) { i < |bs| && 0x80 <= bs[i] < 0xC0 }

  /** The six bits a continuation byte carries. */
  function Six(bs: seq<Byte>, i: nat): (n: nat)
    requires Continues(bs, i)
    ensures n < 64 && bs[i] == 0x80 + n
  {
    bs[i] - 0x80
  }

  datatype Head = Head(c: char, size: nat)

  /** A code point of two, three or four bytes, refused when a shorter form exists or none is allowed. */
  function Scalar(n: int, least: int, size: nat): Option<Head> {
    if n < least || 0xD800 <= n < 0xE000 || n >= 0x11_0000 || n < 0 then None else Some(Head(n as char, size))
  }

  /** The first character of a non-empty byte string. */
  function DecodeHead(bs: seq<Byte>): (r: Option<Head>)
    requires bs != []
    ensures r.Some? ==> 1 <= r.value.size <= |bs|
  {
    var b: int := bs[0];
    if b < 0x80 then Some(Head(b as char, 1))
    else if 0xC0 <= b < 0xE0 && Continues(bs, 1) then Scalar((b - 0xC0) * 64 + Six(bs, 1), 0x80, 2)
    else if 0xE0 <= b < 0xF0 && Continues(bs, 1) && Continues(bs, 2) then
      Scalar((b - 0xE0) * 4096 + Six(bs, 1) * 64 + Six(bs, 2), 0x800, 3)
    else if 0xF0 <= b < 0xF8 && Continues(bs, 1) && Continues(bs, 2) && Continues(bs, 3) then
      Scalar((b - 0xF0) * 0x4_0000 + Six(bs, 1) * 4096 + Six(bs, 2) * 64 + Six(bs, 3), 0x1_0000, 4)
    else None
  }

  function Decode(bs: seq<Byte>): Option<string> {
    if bs == [] then Some([])
    else
      match DecodeHead(bs)
      case None => None
      case Some(Head(c, size)) =>
        match Decode(bs[size..])
        case None => None
        case Some(rest) => Some([c] + rest)
  }

  lemma Digits64(n: nat)
    ensures n == n / 64 * 64 + n % 64
    ensures n == n / 4096 * 4096 + n / 64 % 64 * 64 + n % 64
    ensures n == n / 0x4_0000 * 0x4_0000 + n / 4096 % 64 * 4096 + n / 64 % 64 * 64 + n % 64
  {
    assert n / 4096 == n / 64 / 64 && n / 0x4_0000 == n / 4096 / 64;
  }

  /** An encoded character is read back, whatever follows. */
  lemma HeadOfEncoded(c: char, rest: seq<Byte>)
    ensures DecodeHead(EncodeChar(c) + rest) == Some(Head(c, |EncodeChar(c)|))
  {
    Digits64(c as int);
  }

  /** Only an encoded character is read. */
  lemma HeadIsEncoded(bs: seq<Byte>)
    requires bs != [] && DecodeHead(bs).Some?
    ensures var h := DecodeHead(bs).value; bs[..h.size] == EncodeChar(h.c)
  {
    var h := DecodeHead(bs).value;
    var n: int, b: int := h.c as int, bs[0];
    if h.size == 2 {
      Unique64(n, b - 0xC0, Six(bs, 1));
    } else if h.size == 3 {
      Unique64(n, (b - 0xE0) * 64 + Six(bs, 1), Six(bs, 2));
      Unique64(n / 64, b - 0xE0, Six(bs, 1));
      assert n / 4096 == n / 64 / 64;
    } else if h.size == 4 {
      Unique64(n, (b - 0xF0) * 4096 + Six(bs, 1) * 64 + Six(bs, 2), Six(bs, 3));
      Unique64(n / 64, (b - 0xF0) * 64 + Six(bs, 1), Six(bs, 2));
      Unique64(n / 4096, b - 0xF0, Six(bs, 1));
      assert n / 4096 == n / 64 / 64 && n / 0x4_0000 == n / 4096 / 64;
    }
  }

  lemma Unique64(n: nat, high: nat, low: nat)
    requires n == high * 64 + low && low < 64
    ensures n / 64 == high && n % 64 == low
  {
  }

  /** Bytes decode to a string if and only if they are its encoding. */
  lemma {:induction false} DecodeExact(bs: seq<Byte>, s: string)
    ensures Decode(bs) == Some(s) <==> bs == Encode(s)
    decreases |bs| + |s|
  {
    if bs == Encode(s) && s != [] {
      HeadOfEncoded(s[0], Encode(s[1..]));
      assert bs[|EncodeChar(s[0])|..] == Encode(s[1..]);
      DecodeExact(Encode(s[1..]), s[1..]);
      assert s == [s[0]] + s[1..];
    }
    if Decode(bs) == Some(s) && bs != [] {
      HeadIsEncoded(bs);
      var h := DecodeHead(bs).value;
      DecodeExact(bs[h.size..], s[1..]);
      assert bs == bs[..h.size] + bs[h.size..];
    }
  }
}
