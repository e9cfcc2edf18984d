/** The buffer codec of the shim: identifiers travel across the boundary as
    little-endian UTF-16 code units ended by a zero code unit. */
module Utf16 {

  /** One byte of a marshalled buffer. */
  newtype byte = b: int | 0 <= b < 0x100

  /** One UTF-16 code unit, the element of a .NET string. */
  newtype CodeUnit = u: int | 0 <= u < 0x1_0000

  /** A buffer of `n` zero bytes, as a freshly allocated byte array holds. */
  function Zeros(n: nat): seq<byte> {
    seq(n, _ => 0)
  }

  function Min(a: int, b: int): int {
    if a <= b then a else b
  }

  /** The two bytes of a code unit, low byte first. */
  function UnitBytes(u: CodeUnit): seq<byte> {
    [(u % 0x100) as byte, (u / 0x100) as byte]
  }

  /** The code unit whose low byte is `lo` and whose high byte is `hi`. */
  function UnitOf(lo: byte, hi: byte): (u: CodeUnit)
    ensures u == 0 <==> lo == 0 && hi == 0
  {
    (lo as int + 0x100 * hi as int) as CodeUnit
  }

  /** Encoding.Unicode.GetBytes: every code unit as two bytes, low byte first. */
  function Encode(s: seq<CodeUnit>): (b: seq<byte>)
    ensures |b| == 2 * |s|
  {
    if s == [] then [] else UnitBytes(s[0]) + Encode(s[1..])
  }

  /** The whole code units a byte range holds, low byte first; an odd
      trailing byte belongs to no code unit. */
  function Units(b: seq<byte>): (s: seq<CodeUnit>)
    ensures |s| == |b| / 2
  {
    if |b| < 2 then [] else [UnitOf(b[0], b[1])] + Units(b[2..])
  }

  /** The part of `s` before its first zero code unit (all of `s` if it has none). */
  function UntilNul(s: seq<CodeUnit>): (r: seq<CodeUnit>)
    ensures |r| <= |s| && r == s[..|r|]
    ensures forall i :: 0 <= i < |r| ==> r[i] != 0
    ensures |r| < |s| ==> s[|r|] == 0
  {
    if s == [] || s[0] == 0 then [] else [s[0]] + UntilNul(s[1..])
  }

  /** `s` cut to at most `n` code units. */
  function Truncate(s: seq<CodeUnit>, n: nat): seq<CodeUnit> {
    if |s| <= n then s else s[..n]
  }

  /** The identifier a null-terminated UTF-16 buffer holds: its whole code
      units up to the first zero code unit, or up to the end of the buffer
      when there is none. Never more than the buffer holds. */
  function DecodeZ(b: seq<byte>): (s: seq<CodeUnit>)
    ensures 2 * |s| <= |b|
    ensures forall i :: 0 <= i < |s| ==> s[i] != 0
  {
    UntilNul(Units(b))
  }

  // ---------------------------------------------------------------------
  // Encode and Units are inverse to each other

  lemma {:induction false} UnitsOfEncode(s: seq<CodeUnit>)
    ensures Units(Encode(s)) == s
  {
    if s != [] {
      var b := Encode(s);
      assert b == UnitBytes(s[0]) + Encode(s[1..]);
      assert b[2..] == Encode(s[1..]);
      UnitsOfEncode(s[1..]);
      assert UnitOf(b[0], b[1]) == s[0];
    }
  }

  lemma {:induction false} EncodeOfUnits(b: seq<byte>)
    requires |b| % 2 == 0
    ensures Encode(Units(b)) == b
  {
    if |b| >= 2 {
      var u := UnitOf(b[0], b[1]);
      assert Units(b) == [u] + Units(b[2..]);
      assert UnitBytes(u) == b[..2];
      EncodeOfUnits(b[2..]);
      assert b == b[..2] + b[2..];
    }
  }

  // ---------------------------------------------------------------------
  // Units, piece by piece

  lemma {:induction false} UnitsAt(b: seq<byte>, k: nat)
    requires k < |b| / 2
    ensures Units(b)[k] == UnitOf(b[2 * k], b[2 * k + 1])
  {
    if k > 0 {
      UnitsAt(b[2..], k - 1);
    }
  }

  lemma {:induction false} UnitsPrefix(b: seq<byte>, n: nat)
    requires n <= |b|
    ensures Units(b[..n]) == Units(b)[..n / 2]
  {
    if n >= 2 {
      assert b[..n][2..] == b[2..][..n - 2];
      UnitsPrefix(b[2..], n - 2);
    }
  }

  lemma {:induction false} UnitsAppend(a: seq<byte>, b: seq<byte>)
    requires |a| % 2 == 0
    ensures Units(a + b) == Units(a) + Units(b)
  {
    if |a| >= 2 {
      assert (a + b)[2..] == a[2..] + b;
      UnitsAppend(a[2..], b);
    } else {
      assert a + b == b;
    }
  }

  lemma {:induction false} UnitsOfZeros(n: nat)
    ensures forall i :: 0 <= i < n / 2 ==> Units(Zeros(n))[i] == 0
  {
    if n >= 2 {
      assert Zeros(n)[2..] == Zeros(n - 2);
      UnitsOfZeros(n - 2);
    }
  }

  // ---------------------------------------------------------------------
  // UntilNul

  /** UntilNul keeps exactly the prefix that ends at the first zero code unit. */
  lemma {:induction false} UntilNulIs(s: seq<CodeUnit>, k: nat)
    requires k <= |s|
    requires forall i :: 0 <= i < k ==> s[i] != 0
    requires k == |s| || s[k] == 0
    ensures UntilNul(s) == s[..k]
  {
  }

  /** Zero code units after a string do not change what UntilNul keeps. */
  lemma {:induction false} UntilNulPadded(s: seq<CodeUnit>, z: seq<CodeUnit>)
    requires forall i :: 0 <= i < |z| ==> z[i] == 0
    ensures UntilNul(s + z) == UntilNul(s)
  {
    var r := UntilNul(s);
    assert (s + z)[..|r|] == r;
    if |r| == |s| && z != [] {
      assert (s + z)[|r|] == z[0];
    }
    UntilNulIs(s + z, |r|);
  }

  /** Cutting a string before or after UntilNul gives the same result. */
  lemma {:induction false} UntilNulTake(s: seq<CodeUnit>, n: nat)
    requires n <= |s|
    ensures UntilNul(s[..n]) == Truncate(UntilNul(s), n)
  {
    var r := UntilNul(s);
    if |r| <= n {
      UntilNulIs(s[..n], |r|);
      assert s[..n][..|r|] == r;
    } else {
      assert forall i :: 0 <= i < n ==> s[..n][i] == r[i];
      UntilNulIs(s[..n], n);
      assert s[..n][..n] == r[..n];
    }
  }

  // ---------------------------------------------------------------------
  // What DecodeZ reads

  /** With no zero code unit at an even offset, the whole buffer is decoded
      and an odd trailing byte is ignored. */
  lemma {:induction false} DecodeZWithoutTerminator(b: seq<byte>)
    requires forall i :: 0 <= i < |b| - 1 && i % 2 == 0 ==> b[i] != 0 || b[i + 1] != 0
    ensures DecodeZ(b) == Units(b) && |DecodeZ(b)| == |b| / 2
  {
    forall k | 0 <= k < |b| / 2
      ensures Units(b)[k] != 0
    {
      UnitsAt(b, k);
      assert (2 * k) % 2 == 0;
    }
    UntilNulIs(Units(b), |b| / 2);
  }

  /** Decoding stops at the first zero code unit at an even offset: exactly
      the code units in front of it are decoded. */
  lemma {:induction false} DecodeZStopsAtTerminator(b: seq<byte>, i: nat)
    requires i % 2 == 0 && i + 1 < |b| && b[i] == 0 && b[i + 1] == 0
    requires forall j :: 0 <= j < i && j % 2 == 0 ==> b[j] != 0 || b[j + 1] != 0
    ensures DecodeZ(b) == Units(b[..i]) && 2 * |DecodeZ(b)| == i
  {
    var k := i / 2;
    assert 2 * k == i;
    forall j | 0 <= j < k
      ensures Units(b)[j] != 0
    {
      UnitsAt(b, j);
      var m := 2 * j;
      assert m % 2 == 0 && m < i;
      assert b[m] != 0 || b[m + 1] != 0;
    }
    UnitsAt(b, k);
    UntilNulIs(Units(b), k);
    UnitsPrefix(b, i);
  }

  /** A scan that stepped over `k` nonzero code units and stopped at a zero
      code unit, or at the end of the buffer, has found exactly what DecodeZ
      decodes. */
  lemma {:induction false} ScanDecodes(b: seq<byte>, k: nat)
    requires 2 * k <= |b|
    requires forall j :: 0 <= j < k ==> Units(b)[j] != 0
    requires 2 * k + 1 < |b| ==> b[2 * k] == 0 && b[2 * k + 1] == 0
    ensures Units(b[..2 * k]) == DecodeZ(b)
  {
    UnitsPrefix(b, 2 * k);
    assert (2 * k) / 2 == k;
    if 2 * k + 1 < |b| {
      UnitsAt(b, k);
    }
    UntilNulIs(Units(b), k);
  }

  /** A string marshalled with its two-byte terminator (as
      Marshal.StringToHGlobalUni lays it out) decodes to its part before
      the first zero code unit. */
  lemma {:induction false} MarshalledDecodes(s: seq<CodeUnit>)
    ensures DecodeZ(Encode(s) + [0, 0]) == UntilNul(s)
  {
    UnitsAppend(Encode(s), [0, 0]);
    UnitsOfEncode(s);
    assert Units([0, 0]) == [0];
    UntilNulPadded(s, [0]);
  }

  /** A string whose bytes are copied, cut to `cap` bytes, into a zero-filled
      buffer of `cap` bytes decodes to its part before the first zero code
      unit, cut to the whole code units the buffer holds. */
  lemma {:induction false} CopiedIdDecodes(t: seq<CodeUnit>, cap: nat)
    ensures var n := Min(2 * |t|, cap);
            DecodeZ(Encode(t)[..n] + Zeros(cap - n)) == Truncate(UntilNul(t), cap / 2)
  {
    var n := Min(2 * |t|, cap);
    var b := Encode(t)[..n] + Zeros(cap - n);
    if 2 * |t| <= cap {
      assert Encode(t)[..n] == Encode(t);
      UnitsAppend(Encode(t), Zeros(cap - n));
      UnitsOfEncode(t);
      UnitsOfZeros(cap - n);
      UntilNulPadded(t, Units(Zeros(cap - n)));
    } else {
      assert b == Encode(t)[..cap];
      UnitsPrefix(Encode(t), cap);
      UnitsOfEncode(t);
      UntilNulTake(t, cap / 2);
    }
  }
}
