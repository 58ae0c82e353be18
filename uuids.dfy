/**
 * Foundation's `UUID` as far as this package relies on it: a 128-bit value, its
 * `uuidString` (upper-case hex digits in 8-4-4-4-12 groups, the textual form of
 * section 3 of RFC 4122), and `UUID(uuidString:)`, which accepts that form in
 * either case and fails on anything else.
 */
module Uuids {
  import opened Wrappers

  type Nibble = x: int | 0 <= x < 16

  /** The 32 hexadecimal digits of a UUID, most significant first. */
  type Uuid = s: seq<Nibble> | |s| == 32 witness seq(32, _ => 0)

  const UpperDigits: string := "0123456789ABCDEF"

  /** Position of a `-` in the 36-character text form. */
  predicate IsHyphenPosition(p: int)
  {
    p == 8 || p == 13 || p == 18 || p == 23
  }

  /** Position in the text form of nibble `i`. */
  function CharIndex(i: int): int
  {
    i + (if i >= 8 then 1 else 0) + (if i >= 12 then 1 else 0)
      + (if i >= 16 then 1 else 0) + (if i >= 20 then 1 else 0)
  }

  /** Nibble shown at a non-hyphen position `p` of the text form. */
  function NibbleIndex(p: int): int
  {
    p - (if p > 8 then 1 else 0) - (if p > 13 then 1 else 0)
      - (if p > 18 then 1 else 0) - (if p > 23 then 1 else 0)
  }

  /** The value of a hexadecimal digit of either case. */
  function HexValue(c: char): (r: Option<Nibble>)
    ensures r.Some? <==> ('0' <= c <= '9' || 'a' <= c <= 'f' || 'A' <= c <= 'F')
  {
    if '0' <= c <= '9' then Some(c as int - '0' as int)
    else if 'a' <= c <= 'f' then Some(c as int - 'a' as int + 10)
    else if 'A' <= c <= 'F' then Some(c as int - 'A' as int + 10)
    else None
  }

  /** Upper-case form of a hexadecimal letter; other characters are kept. */
  function UpperHex(c: char): char
  {
    if 'a' <= c <= 'f' then (c as int - 'a' as int + 'A' as int) as char else c
  }

  /** `UUID.uuidString`. */
  function UuidString(u: Uuid): (r: string)
    ensures |r| == 36
    ensures forall p :: 0 <= p < 36 && IsHyphenPosition(p) ==> r[p] == '-'
    ensures forall i :: 0 <= i < 32 ==> r[CharIndex(i)] == UpperDigits[u[i]]
  {
    var r := seq(36, p requires 0 <= p < 36 =>
      if IsHyphenPosition(p) then '-' else UpperDigits[u[NibbleIndex(p)]]);
    assert forall i :: 0 <= i < 32 ==> !IsHyphenPosition(CharIndex(i)) && NibbleIndex(CharIndex(i)) == i;
    r
  }

  /** Whether `s` is in the text form: hyphens at the group borders, hex digits elsewhere. */
  predicate WellFormed(s: string)
  {
    |s| == 36
    && (forall p :: 0 <= p < 36 && IsHyphenPosition(p) ==> s[p] == '-')
    && (forall i :: 0 <= i < 32 ==> HexValue(s[CharIndex(i)]).Some?)
  }

  /** `UUID(uuidString:)`. */
  function Parse(s: string): (r: Option<Uuid>)
    ensures r.Some? <==> WellFormed(s)
  {
    if WellFormed(s) then
      Some(seq(32, i requires 0 <= i < 32 => HexValue(s[CharIndex(i)]).value))
    else
      None
  }

  lemma HexValueOfUpperDigit(n: Nibble)
    ensures HexValue(UpperDigits[n]) == Some(n)
  {
  }

  /** Every UUID survives being written out and read back. */
  lemma ParseUuidString(u: Uuid)
    ensures Parse(UuidString(u)) == Some(u)
  {
    var s := UuidString(u);
    forall i | 0 <= i < 32
      ensures HexValue(s[CharIndex(i)]) == Some(u[i])
    {
      HexValueOfUpperDigit(u[i]);
    }
    assert WellFormed(s);
    assert Parse(s).value == u;
  }

  /** Reading a text and writing it back yields the text with its hex letters upper-cased. */
  lemma UuidStringOfParse(s: string)
    requires Parse(s).Some?
    ensures UuidString(Parse(s).value) == seq(|s|, p requires 0 <= p < |s| => UpperHex(s[p]))
  {
    var u := Parse(s).value;
    var t := UuidString(u);
    forall p | 0 <= p < 36
      ensures t[p] == UpperHex(s[p])
    {
      if !IsHyphenPosition(p) {
        var i := NibbleIndex(p);
        assert CharIndex(i) == p;
        var c := s[p];
        assert HexValue(c).Some?;
      }
    }
  }

  /** Distinct UUIDs have distinct texts. */
  lemma UuidStringInjective(u: Uuid, v: Uuid)
    requires UuidString(u) == UuidString(v)
    ensures u == v
  {
    ParseUuidString(u);
    ParseUuidString(v);
  }
}
