/** Well-formed UTF-8 as `std::str::from_utf8` accepts it (Table 3-7 of the
    Unicode Standard, section 3.9), over bytes. */
module Utf8 {
  import opened Ints

  predicate InRange(b: u8, lo: nat, hi: nat) {
    lo <= b <= hi
  }

  predicate IsContinuation(b: u8) {
    InRange(b, 0x80, 0xBF)
  }

  /** The length of the well-formed code point that starts `s`, or 0 when
      `s` does not start with one. */
  function FirstCharLength(s: seq<u8>): (n: nat)
    requires |s| > 0
    ensures n <= 4 && n <= |s|
    ensures s[0] < 0x80 ==> n == 1
  {
    var b0 := s[0];
    if b0 < 0x80 then 1
    else if InRange(b0, 0xC2, 0xDF) then
      (if |s| >= 2 && IsContinuation(s[1]) then 2 else 0)
    else if InRange(b0, 0xE0, 0xEF) then
      var lo := if b0 == 0xE0 then 0xA0 else 0x80;
      var hi := if b0 == 0xED then 0x9F else 0xBF;
      (if |s| >= 3 && InRange(s[1], lo, hi) && IsContinuation(s[2]) then 3 else 0)
    else if InRange(b0, 0xF0, 0xF4) then
      var lo := if b0 == 0xF0 then 0x90 else 0x80;
      var hi := if b0 == 0xF4 then 0x8F else 0xBF;
      (if |s| >= 4 && InRange(s[1], lo, hi) && IsContinuation(s[2]) && IsContinuation(s[3]) then 4 else 0)
    else 0
  }

  predicate ValidUtf8(s: seq<u8>)
    decreases |s|
  {
    |s| == 0 || (FirstCharLength(s) > 0 && ValidUtf8(s[FirstCharLength(s)..]))
  }

  predicate IsAscii(s: seq<u8>) {
    forall i :: 0 <= i < |s| ==> s[i] < 0x80
  }

  /** Every ASCII byte string, NUL included, is well-formed UTF-8. */
  lemma {:induction false} AsciiIsValid(s: seq<u8>)
    requires IsAscii(s)
    ensures ValidUtf8(s)
    decreases |s|
  {
    if |s| > 0 {
      AsciiIsValid(s[1..]);
    }
  }

  /** The bytes of an ASCII string literal. */
  function Ascii(s: string): (b: seq<u8>)
    requires forall i :: 0 <= i < |s| ==> s[i] as int < 0x80
    ensures |b| == |s| && IsAscii(b)
    ensures forall i :: 0 <= i < |s| ==> b[i] == s[i] as int
  {
    seq(|s|, i requires 0 <= i < |s| => s[i] as int)
  }

  /** `str::replace('\0', "")` on well-formed UTF-8: a NUL character is the
      byte 0 and no multi-byte code point contains that byte, so removing
      NUL characters is removing zero bytes. */
  function RemoveNul(s: seq<u8>): (r: seq<u8>)
    ensures |r| <= |s|
    ensures forall i :: 0 <= i < |r| ==> r[i] != 0
    ensures multiset(r) == multiset(s)[0 := 0]
  {
    if s == [] then []
    else
      assert s == [s[0]] + s[1..];
      if s[0] == 0 then RemoveNul(s[1..])
      else [s[0]] + RemoveNul(s[1..])
  }

  /** NUL removal works piecewise, so the kept bytes stay in their order. */
  lemma {:induction false} RemoveNulAppend(a: seq<u8>, b: seq<u8>)
    ensures RemoveNul(a + b) == RemoveNul(a) + RemoveNul(b)
    decreases |a|
  {
    if a == [] {
      assert a + b == b;
    } else {
      assert (a + b)[0] == a[0] && (a + b)[1..] == a[1..] + b;
      RemoveNulAppend(a[1..], b);
    }
  }

  /** A single byte is dropped exactly when it is NUL. */
  lemma RemoveNulByte(x: u8)
    ensures RemoveNul([x]) == if x == 0 then [] else [x]
  {
    assert [x][1..] == [];
  }

  /** If removing the NULs leaves an ASCII string, the input was ASCII. */
  lemma {:induction false} RemoveNulAscii(s: seq<u8>)
    requires IsAscii(RemoveNul(s))
    ensures IsAscii(s)
    decreases |s|
  {
    if |s| > 0 {
      if s[0] == 0 {
        RemoveNulAscii(s[1..]);
      } else {
        assert RemoveNul(s)[0] == s[0];
        assert RemoveNul(s[1..]) == RemoveNul(s)[1..];
        RemoveNulAscii(s[1..]);
      }
      assert forall i :: 1 <= i < |s| ==> s[i] == s[1..][i - 1];
    }
  }
}
