/** Bytes, big-endian lengths and start codes (cap/src/h264.rs). */
module Bytes {

  type byte = b: int | 0 <= b < 256

  const TWO_32: nat := 0x1_0000_0000

  const START_CODE: seq<byte> := [0, 0, 0, 1]

  const AVCC_HEADER_LENGTH := 4

  /** The low `k` bytes of `n`, the most significant first. */
  function Digits(n: nat, k: nat): (r: seq<byte>)
    ensures |r| == k
  {
    if k == 0 then [] else Digits(n / 256, k - 1) + [n % 256]
  }

  function Value(b: seq<byte>): nat {
    if b == [] then 0 else Value(b[..|b| - 1]) * 256 + b[|b| - 1] as int
  }

  function Bound(k: nat): nat {
    if k == 0 then 1 else 256 * Bound(k - 1)
  }

  lemma {:induction false} DigitsRoundTrip(n: nat, k: nat)
    requires n < Bound(k)
    ensures Value(Digits(n, k)) == n
  {
    if k > 0 {
      DigitsRoundTrip(n / 256, k - 1);
      var b := Digits(n, k);
      assert b[..k - 1] == Digits(n / 256, k - 1);
    }
  }

  function ToBigEndian(n: nat): (r: seq<byte>)
    requires n < TWO_32
    ensures |r| == 4
  {
    Digits(n, 4)
  }

  function FromBigEndian(b: seq<byte>): (n: nat)
    requires |b| == 4
  {
    Value(b)
  }

  lemma BigEndianRoundTrip(n: nat)
    requires n < TWO_32
    ensures FromBigEndian(ToBigEndian(n)) == n
  {
    assert Bound(4) == 256 * (256 * (256 * (256 * Bound(0))));
    DigitsRoundTrip(n, 4);
  }

  lemma {:induction false} ValueRoundTrip(b: seq<byte>)
    ensures Value(b) < Bound(|b|) && Digits(Value(b), |b|) == b
  {
    if b != [] {
      var most, last := b[..|b| - 1], b[|b| - 1];
      ValueRoundTrip(most);
      assert most + [last] == b;
    }
  }

  lemma BigEndianBack(b: seq<byte>)
    requires |b| == 4
    ensures FromBigEndian(b) < TWO_32 && ToBigEndian(FromBigEndian(b)) == b
  {
    assert Bound(4) == 256 * (256 * (256 * (256 * Bound(0))));
    ValueRoundTrip(b);
  }

  lemma {:induction false} ZeroIsAllZeros(b: seq<byte>)
    ensures Value(b) == 0 <==> forall i | 0 <= i < |b| :: b[i] == 0
  {
    if b != [] {
      ZeroIsAllZeros(b[..|b| - 1]);
      assert forall i | 0 <= i < |b| - 1 :: b[..|b| - 1][i] == b[i];
    }
  }

  lemma ZeroIsFourZeros(b: seq<byte>)
    requires |b| == 4
    ensures FromBigEndian(b) == 0 <==> b == [0, 0, 0, 0]
  {
    ZeroIsAllZeros(b);
  }

  predicate StartCodeAt(s: seq<byte>, i: nat) {
    i + 4 <= |s| && s[i] == 0 && s[i + 1] == 0 && s[i + 2] == 0 && s[i + 3] == 1
  }

  /** What the emulation prevention of ITU-T H.264, section 7.4.1 guarantees of a NAL unit, and more. */
  predicate NoStartCode(nal: seq<byte>) {
    forall i | 0 <= i < |nal| :: !StartCodeAt(nal, i)
  }

  /** The start code after a unit cannot be found early, even if the unit ends in zeros. */
  lemma BoundaryIsFirst(before: seq<byte>, nal: seq<byte>, after: seq<byte>)
    requires NoStartCode(nal)
    ensures var s := before + nal + START_CODE + after;
            && StartCodeAt(s, |before| + |nal|)
            && forall i | |before| <= i < |before| + |nal| :: !StartCodeAt(s, i)
  {
    var s := before + nal + START_CODE + after;
    var e := |before| + |nal|;
    assert s[e] == 0 && s[e + 1] == 0 && s[e + 2] == 0 && s[e + 3] == 1;
    forall i | |before| <= i < e
      ensures !StartCodeAt(s, i)
    {
      if i + 4 <= e {
        assert !StartCodeAt(nal, i - |before|);
        var j := i - |before|;
        assert s[i] == nal[j] && s[i + 1] == nal[j + 1] && s[i + 2] == nal[j + 2] && s[i + 3] == nal[j + 3];
      } else {
        // the byte that ought to be 1 is one of the three zeros
        assert s[i + 3] == 0;
      }
    }
  }

  lemma NoStartCodeToTheEnd(before: seq<byte>, nal: seq<byte>)
    requires NoStartCode(nal)
    ensures forall i | |before| <= i < |before + nal| :: !StartCodeAt(before + nal, i)
  {
    forall i | |before| <= i < |before + nal|
      ensures !StartCodeAt(before + nal, i)
    {
      assert !StartCodeAt(nal, i - |before|);
    }
  }
}
