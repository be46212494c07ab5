/** From length-prefixed samples (ISO/IEC 14496-15, section 5) to the byte stream of
    Annex B of ITU-T H.264 (cap/src/h264.rs). */
module ElementaryStream {
  import opened Bytes
  import opened Wrappers

  /** The units the conversion loop finds from `offset` on; None where it would not return.
      Up to four bytes left at the end are ignored. */
  function Units(data: seq<byte>, offset: nat): Option<seq<seq<byte>>>
    requires offset <= |data|
    decreases |data| - offset
  {
    if |data| - AVCC_HEADER_LENGTH <= offset then
      Some([])
    else
      var n := LengthAt(data, offset);
      var next := offset + 4 + n;
      if n == 0 || |data| < next then None
      else
        var rest := Units(data, next);
        if rest.None? then None else Some([data[offset + 4..next]] + rest.value)
  }

  predicate Readable(data: seq<byte>) {
    AVCC_HEADER_LENGTH <= |data| && Units(data, 0).Some?
  }

  function AnnexB(units: seq<seq<byte>>): seq<byte> {
    if units == [] then [] else START_CODE + units[0] + AnnexB(units[1..])
  }

  function LengthAt(data: seq<byte>, offset: nat): nat
    requires offset + 4 <= |data|
  {
    FromBigEndian(data[offset..offset + 4])
  }

  lemma UnitsStep(data: seq<byte>, offset: nat)
    requires offset < |data| - AVCC_HEADER_LENGTH && Units(data, offset).Some?
    ensures var n := LengthAt(data, offset);
            && 0 < n && offset + 4 + n <= |data|
            && Units(data, offset + 4 + n).Some?
            && var rest := Units(data, offset + 4 + n).value;
               && Units(data, offset).value == [data[offset + 4..offset + 4 + n]] + rest
               && AnnexB(Units(data, offset).value) == START_CODE + data[offset + 4..offset + 4 + n] + AnnexB(rest)
  {
    var n := LengthAt(data, offset);
    var unit, rest := data[offset + 4..offset + 4 + n], Units(data, offset + 4 + n).value;
    assert ([unit] + rest)[1..] == rest;
  }

  /** The whole conversion of a sample; without a data buffer not even the format bytes appear. */
  function ElemStream(data: Option<seq<byte>>, key: bool, formatBytes: seq<byte>): seq<byte>
    requires data.Some? ==> Readable(data.value)
  {
    if data.None? then []
    else (if key then formatBytes else []) + AnnexB(Units(data.value, 0).value)
  }

  lemma Regroup(a: seq<byte>, b: seq<byte>, c: seq<byte>, d: seq<byte>)
    ensures a + (b + c + d) == a + b + c + d
  {
  }

  method ToElemStream(data: Option<seq<byte>>, key: bool, formatBytes: seq<byte>) returns (out: seq<byte>)
    requires data.Some? ==> Readable(data.value)
    ensures out == ElemStream(data, key, formatBytes)
  {
    out := [];
    if data.Some? {
      if key {
        out := out + formatBytes;
      }
      out := ConvertUnits(data.value, out);
    }
  }

  /** The loop over the length-prefixed units, appending to what is already there. */
  method ConvertUnits(buffer: seq<byte>, before: seq<byte>) returns (out: seq<byte>)
    requires Readable(buffer)
    ensures out == before + AnnexB(Units(buffer, 0).value)
  {
    out := before;
    ghost var left := Units(buffer, 0).value;
    ghost var whole := out + AnnexB(left);
    var offset := 0;
    while offset < |buffer| - AVCC_HEADER_LENGTH
      invariant offset <= |buffer|
      invariant Units(buffer, offset) == Some(left)
      invariant out + AnnexB(left) == whole
      decreases |buffer| - offset
    {
      var length := LengthAt(buffer, offset);
      UnitsStep(buffer, offset);
      if length > 0 {
        var unit := buffer[offset + AVCC_HEADER_LENGTH..offset + AVCC_HEADER_LENGTH + length];
        offset := offset + AVCC_HEADER_LENGTH + length;
        left := Units(buffer, offset).value;
        Regroup(out, START_CODE, unit, AnnexB(left));
        out := out + START_CODE;
        out := out + unit;
      }
    }
    assert out + [] == out;
  }

  // ------------------------------------------------------------------
  // Length-prefixed samples, described without the loop
  // ------------------------------------------------------------------

  /** A length-prefixed sample. */
  function Avcc(units: seq<seq<byte>>): seq<byte>
    requires forall u | u in units :: |u| < TWO_32
  {
    if units == [] then [] else ToBigEndian(|units[0]|) + units[0] + Avcc(units[1..])
  }

  ghost predicate ValidUnits(units: seq<seq<byte>>) {
    forall u | u in units :: 0 < |u| < TWO_32
  }

  /** From `offset` on, units and what comes after them. */
  ghost predicate SplitsFrom(data: seq<byte>, offset: nat, units: seq<seq<byte>>, rest: seq<byte>) {
    offset <= |data| && ValidUnits(units) && data[offset..] == Avcc(units) + rest
  }

  /** What the loop cannot get past: a length of zero, or one that reaches past the end. */
  predicate ZeroLength(rest: seq<byte>) {
    4 < |rest| && rest[..4] == [0, 0, 0, 0]
  }

  predicate PastTheEnd(rest: seq<byte>) {
    4 < |rest| && |rest| - 4 < FromBigEndian(rest[..4])
  }

  ghost predicate WellFormed(data: seq<byte>) {
    4 <= |data| && exists units, rest :: SplitsFrom(data, 0, units, rest) && |rest| <= 4
  }

  ghost predicate HasZeroLength(data: seq<byte>) {
    exists units, rest :: SplitsFrom(data, 0, units, rest) && ZeroLength(rest)
  }

  ghost predicate HasLengthPastTheEnd(data: seq<byte>) {
    exists units, rest :: SplitsFrom(data, 0, units, rest) && PastTheEnd(rest)
  }

  lemma FirstUnit(data: seq<byte>, offset: nat, units: seq<seq<byte>>, rest: seq<byte>)
    requires units != [] && SplitsFrom(data, offset, units, rest)
    ensures var n := |units[0]|;
            var next := offset + 4 + n;
            && offset + 4 < next <= |data| && LengthAt(data, offset) == n
            && data[offset + 4..next] == units[0]
            && SplitsFrom(data, next, units[1..], rest)
  {
    var u, more := units[0], Avcc(units[1..]) + rest;
    var header := ToBigEndian(|u|);
    BigEndianRoundTrip(|u|);
    assert data[offset..] == header + (u + more);
    SlicesOfTwo(data, offset, header, u + more);
    SlicesOfTwo(data, offset + 4, u, more);
  }

  lemma SlicesOfTwo(data: seq<byte>, offset: nat, a: seq<byte>, b: seq<byte>)
    requires offset <= |data| && data[offset..] == a + b
    ensures offset + |a| <= |data| && data[offset..offset + |a|] == a && data[offset + |a|..] == b
  {
    assert data[offset..][..|a|] == a;
    assert data[offset..][|a|..] == b;
  }

  lemma OneUnitMore(data: seq<byte>, offset: nat, next: nat, units: seq<seq<byte>>, rest: seq<byte>)
    requires offset + 4 < next <= |data| && LengthAt(data, offset) == next - offset - 4
    requires SplitsFrom(data, next, units, rest)
    ensures SplitsFrom(data, offset, [data[offset + 4..next]] + units, rest)
  {
    var header, u := data[offset..offset + 4], data[offset + 4..next];
    BigEndianBack(header);
    assert ([u] + units)[1..] == units;
    assert data[offset..] == header + u + data[next..];
    Regroup([], header, u, Avcc(units) + rest);
    assert header + u + (Avcc(units) + rest) == header + u + Avcc(units) + rest;
  }

  /** Every buffer is units, as many as there are, and then one of three kinds of rest. */
  lemma {:induction false} EveryBufferSplits(data: seq<byte>, offset: nat)
    returns (units: seq<seq<byte>>, rest: seq<byte>)
    requires offset <= |data|
    ensures SplitsFrom(data, offset, units, rest)
    ensures |rest| <= 4 || ZeroLength(rest) || PastTheEnd(rest)
    decreases |data| - offset
  {
    units, rest := [], data[offset..];
    assert Avcc([]) + rest == rest;
    if 4 < |rest| {
      assert rest[..4] == data[offset..offset + 4];
      var next := offset + 4 + LengthAt(data, offset);
      ZeroIsFourZeros(rest[..4]);
      if offset + 4 < next <= |data| {
        units, rest := EveryBufferSplits(data, next);
        OneUnitMore(data, offset, next, units, rest);
        units := [data[offset + 4..next]] + units;
      }
    }
  }

  lemma {:induction false} UnitsFrom(data: seq<byte>, offset: nat, units: seq<seq<byte>>, rest: seq<byte>)
    requires SplitsFrom(data, offset, units, rest)
    ensures |rest| <= 4 ==> Units(data, offset) == Some(units)
    ensures ZeroLength(rest) || PastTheEnd(rest) ==> Units(data, offset).None?
    decreases |units|
  {
    if units == [] {
      assert Avcc([]) + rest == rest;
      if 4 < |rest| {
        assert rest[..4] == data[offset..offset + 4];
        ZeroIsFourZeros(rest[..4]);
      }
    } else {
      FirstUnit(data, offset, units, rest);
      UnitsFrom(data, offset + 4 + |units[0]|, units[1..], rest);
      assert [units[0]] + units[1..] == units;
    }
  }

  /** The buffers the conversion can read are samples of non-empty units, up to four bytes more. */
  lemma ReadableExactly(data: seq<byte>)
    ensures Readable(data) <==> WellFormed(data)
  {
    var units, rest := EveryBufferSplits(data, 0);
    UnitsFrom(data, 0, units, rest);
    if WellFormed(data) {
      var us, tail :| SplitsFrom(data, 0, us, tail) && |tail| <= 4;
      UnitsFrom(data, 0, us, tail);
    }
  }

  lemma UnitsOfSample(units: seq<seq<byte>>)
    requires ValidUnits(units)
    ensures Units(Avcc(units), 0) == Some(units)
  {
    assert Avcc(units)[0..] == Avcc(units) + [];
    UnitsFrom(Avcc(units), 0, units, []);
  }

  // ------------------------------------------------------------------
  // Round trip through both formats
  // ------------------------------------------------------------------

  /** The first start code at or after `from`, or the end. */
  function NextStartCode(s: seq<byte>, from: nat): (i: nat)
    requires from <= |s|
    ensures from <= i <= |s|
    ensures i < |s| ==> StartCodeAt(s, i)
    ensures forall k | from <= k < i :: !StartCodeAt(s, k)
    decreases |s| - from
  {
    if from == |s| || StartCodeAt(s, from) then from else NextStartCode(s, from + 1)
  }

  /** The units of a byte stream, found by their start codes alone. */
  function SplitAtStartCodes(s: seq<byte>): seq<seq<byte>>
    decreases |s|
  {
    if !StartCodeAt(s, 0) then []
    else
      var next := NextStartCode(s, 4);
      [s[4..next]] + SplitAtStartCodes(s[next..])
  }

  lemma FirstUnitSplitsOff(u: seq<byte>, units: seq<seq<byte>>)
    requires NoStartCode(u)
    ensures var s := START_CODE + u + AnnexB(units);
            StartCodeAt(s, 0) && NextStartCode(s, 4) == 4 + |u|
  {
    var s := START_CODE + u + AnnexB(units);
    if units == [] {
      NoStartCodeToTheEnd(START_CODE, u);
      assert s == START_CODE + u;
    } else {
      BoundaryIsFirst(START_CODE, u, units[0] + AnnexB(units[1..]));
      assert s == START_CODE + u + START_CODE + (units[0] + AnnexB(units[1..]));
    }
    var next := NextStartCode(s, 4);
    assert !(next < 4 + |u|);
    assert !(4 + |u| < next);
  }

  lemma {:induction false} SplitUndoesAnnexB(units: seq<seq<byte>>)
    requires forall u | u in units :: NoStartCode(u)
    ensures SplitAtStartCodes(AnnexB(units)) == units
  {
    if units != [] {
      FirstUnitSplitsOff(units[0], units[1..]);
      SplitUndoesAnnexB(units[1..]);
      var s := AnnexB(units);
      assert s[4..4 + |units[0]|] == units[0];
      assert s[4 + |units[0]|..] == AnnexB(units[1..]);
      assert [units[0]] + units[1..] == units;
    }
  }

  lemma {:induction false} AnnexBConcat(a: seq<seq<byte>>, b: seq<seq<byte>>)
    ensures AnnexB(a + b) == AnnexB(a) + AnnexB(b)
  {
    if a == [] {
      assert a + b == b;
    } else {
      AnnexBConcat(a[1..], b);
      assert (a + b)[1..] == a[1..] + b;
      assert START_CODE + a[0] + (AnnexB(a[1..]) + AnnexB(b)) == START_CODE + a[0] + AnnexB(a[1..]) + AnnexB(b);
    }
  }

  /** Converting a sample and splitting at start codes gives back the parameter sets of a key
      frame, then every unit of the sample, in order. */
  lemma ConversionLosesNothing(units: seq<seq<byte>>, key: bool, params: seq<seq<byte>>)
    requires units != [] && ValidUnits(units)
    requires forall u | u in units :: NoStartCode(u)
    requires forall u | u in params :: NoStartCode(u)
    ensures Readable(Avcc(units))
    ensures SplitAtStartCodes(ElemStream(Some(Avcc(units)), key, AnnexB(params)))
         == (if key then params else []) + units
  {
    UnitsOfSample(units);
    var all := (if key then params else []) + units;
    AnnexBConcat(if key then params else [], units);
    SplitUndoesAnnexB(all);
    assert AnnexB([]) + AnnexB(units) == AnnexB(units);
  }
}
