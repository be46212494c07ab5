/** Encoder and decoder together: which frames survive the trip, and what arrives. */
module VideoRoundTrip {
  import opened Bytes
  import opened ElementaryStream
  import opened VideoDecoder
  import opened VideoEncoder
  import opened Wrappers

  const MAX_SPS := 35
  const MAX_PPS := 25

  // ------------------------------------------------------------------
  // The search
  // ------------------------------------------------------------------

  lemma {:induction false} SearchFindsFirst(frame: seq<byte>, from: nat, to: nat, at: nat)
    requires from <= at < to && StartCodeAt(frame, at)
    requires forall i | from <= i < at :: !StartCodeAt(frame, i)
    ensures Search(frame, from, to) == Found(at)
    decreases at - from
  {
    if from < at {
      assert !StartCodeAt(frame, from);
      SearchFindsFirst(frame, from + 1, to, at);
    }
  }

  lemma {:induction false} SearchMisses(frame: seq<byte>, from: nat, to: nat)
    requires to + 3 <= |frame|
    requires forall i | from <= i < to :: !StartCodeAt(frame, i)
    ensures Search(frame, from, to) == NotFound
    decreases if from < to then to - from else 0
  {
    if from < to {
      assert !StartCodeAt(frame, from);
      SearchMisses(frame, from + 1, to);
    }
  }

  // ------------------------------------------------------------------
  // Key frames
  // ------------------------------------------------------------------

  ghost predicate ParamSet(nal: seq<byte>, nalType: nat) {
    0 < |nal| && NalType(nal[0]) == nalType && NoStartCode(nal)
  }

  /** A unit whose length the decoder's signed 32-bit arithmetic can rebuild. */
  predicate SliceUnit(nal: seq<byte>, nalType: nat) {
    && 0 < |nal| < TWO_32
    && NalType(nal[0]) == nalType
    && LengthField(|nal| + 4).Some?
  }

  /** The signed length of a unit overflows for four lengths, just under 2 GB. */
  predicate Overflows(n: nat) {
    0x7FFF_FFFC <= n <= 0x7FFF_FFFF
  }

  lemma LengthFieldExactly(n: nat)
    requires n < TWO_32
    ensures LengthField(n + 4).None? <==> Overflows(n)
    ensures LengthField(n + 4).Some? ==> LengthField(n + 4).value == ToBigEndian(n)
  {
  }

  /** Longer ones wrap. */
  lemma LengthFieldWraps(n: nat)
    ensures LengthField(n + 4).None? <==> Overflows(n % TWO_32)
    ensures LengthField(n + 4).Some? ==> LengthField(n + 4).value == ToBigEndian(n % TWO_32)
  {
    assert (n + 4) % TWO_32 == (n % TWO_32 + 4) % TWO_32;
  }

  lemma BlockIsAvcc(before: seq<byte>, nal: seq<byte>)
    requires 0 < |nal| < TWO_32 && LengthField(|nal| + 4).Some?
    ensures Block(before + START_CODE + nal, |before|) == Some(ToBigEndian(|nal|) + nal)
  {
    LengthFieldExactly(|nal|);
    var frame := before + START_CODE + nal;
    assert frame[|before| + 4..] == nal;
  }

  function KeyFrameBytes(sps: seq<byte>, pps: seq<byte>, idr: seq<byte>): seq<byte> {
    START_CODE + sps + START_CODE + pps + START_CODE + idr
  }

  lemma SpsFound(sps: seq<byte>, pps: seq<byte>, idr: seq<byte>)
    requires ParamSet(sps, NAL_SPS) && 0 < |pps|
    ensures var frame := KeyFrameBytes(sps, pps, idr);
            && NalType(frame[4]) == NAL_SPS
            && Search(frame, 4, SPS_WINDOW) == (if |sps| <= MAX_SPS then Found(4 + |sps|) else NotFound)
            && NalType(frame[8 + |sps|]) == NalType(pps[0])
  {
    var frame := KeyFrameBytes(sps, pps, idr);
    var after := pps + START_CODE + idr;
    assert frame == START_CODE + sps + START_CODE + after;
    BoundaryIsFirst(START_CODE, sps, after);
    assert frame[4] == sps[0];
    assert frame[8 + |sps|] == pps[0];
    if |sps| <= MAX_SPS {
      SearchFindsFirst(frame, 4, SPS_WINDOW, 4 + |sps|);
    } else {
      SearchMisses(frame, 4, SPS_WINDOW);
    }
  }

  lemma PpsFound(sps: seq<byte>, pps: seq<byte>, idr: seq<byte>)
    requires NoStartCode(pps) && 0 < |idr|
    ensures var frame, at := KeyFrameBytes(sps, pps, idr), 4 + |sps|;
            && Search(frame, at + 4, at + PPS_WINDOW) == (if |pps| <= MAX_PPS then Found(at + 4 + |pps|) else NotFound)
            && NalType(frame[at + 8 + |pps|]) == NalType(idr[0])
  {
    var frame, at := KeyFrameBytes(sps, pps, idr), 4 + |sps|;
    var before := START_CODE + sps + START_CODE;
    assert frame == before + pps + START_CODE + idr;
    BoundaryIsFirst(before, pps, idr);
    assert frame[at + 8 + |pps|] == idr[0];
    if |pps| <= MAX_PPS {
      SearchFindsFirst(frame, at + 4, at + PPS_WINDOW, at + 4 + |pps|);
    } else {
      SearchMisses(frame, at + 4, at + PPS_WINDOW);
    }
  }

  /** With both windows wide enough the parameter sets come out whole. */
  lemma KeyFrameParams(d: DecoderState, sps: seq<byte>, pps: seq<byte>, idr: seq<byte>)
    requires ParamSet(sps, NAL_SPS) && ParamSet(pps, NAL_PPS) && 0 < |idr|
    requires |sps| <= MAX_SPS && |pps| <= MAX_PPS
    ensures ReadParams(d, KeyFrameBytes(sps, pps, idr))
         == Parsed(UseFormat(d, ParamSets(sps, pps)).(spsSize := 4 + |sps|, ppsSize := 4 + |pps|), NalType(idr[0]))
  {
    SpsFound(sps, pps, idr);
    PpsFound(sps, pps, idr);
    ParamSlices(sps, pps, idr);
  }

  lemma ParamSlices(sps: seq<byte>, pps: seq<byte>, idr: seq<byte>)
    ensures var frame := KeyFrameBytes(sps, pps, idr);
            && frame[4..4 + |sps|] == sps
            && frame[8 + |sps|..8 + |sps| + |pps|] == pps
  {
  }

  /** Otherwise the decoder panics, whatever it had seen before. */
  lemma LongParamsPanic(d: DecoderState, sps: seq<byte>, pps: seq<byte>, idr: seq<byte>)
    requires ParamSet(sps, NAL_SPS) && ParamSet(pps, NAL_PPS) && 0 < |idr|
    requires MAX_SPS < |sps| || MAX_PPS < |pps|
    ensures Decode(d, KeyFrameBytes(sps, pps, idr)).1 == Panicked
  {
    SpsFound(sps, pps, idr);
    PpsFound(sps, pps, idr);
  }

  /** A key frame gives back its own parameter sets and its own block, exactly when both
      parameter sets fit the search windows. */
  lemma KeyFrameDecodesExactly(d: DecoderState, sps: seq<byte>, pps: seq<byte>, idr: seq<byte>)
    requires SessionMatches(d)
    requires ParamSet(sps, NAL_SPS) && ParamSet(pps, NAL_PPS) && SliceUnit(idr, NAL_IDR)
    ensures var (d', outcome) := Decode(d, KeyFrameBytes(sps, pps, idr));
            var format := ParamSets(sps, pps);
            if |sps| <= MAX_SPS && |pps| <= MAX_PPS then
              && outcome == Submitted(format, format, Avcc([idr]))
              && d'.formatDesc == Some(format) && SessionMatches(d')
            else
              outcome == Panicked
  {
    var frame := KeyFrameBytes(sps, pps, idr);
    assert frame[4] == sps[0];
    if |sps| <= MAX_SPS && |pps| <= MAX_PPS {
      KeyFrameParams(d, sps, pps, idr);
      BlockIsAvcc(START_CODE + sps + START_CODE + pps, idr);
      AvccOfOne(idr);
    } else {
      LongParamsPanic(d, sps, pps, idr);
    }
  }

  lemma AvccOfOne(nal: seq<byte>)
    requires |nal| < TWO_32
    ensures Avcc([nal]) == ToBigEndian(|nal|) + nal
    ensures AnnexB([nal]) == START_CODE + nal
  {
    assert Avcc([]) == [];
    assert [nal][1..] == [];
    assert ToBigEndian(|nal|) + nal + [] == ToBigEndian(|nal|) + nal;
    assert START_CODE + nal + [] == START_CODE + nal;
  }

  // ------------------------------------------------------------------
  // Other frames
  // ------------------------------------------------------------------

  lemma DeltaFrameDecodes(d: DecoderState, slice: seq<byte>)
    requires SessionMatches(d) && SliceUnit(slice, NAL_SLICE)
    ensures Decode(d, AnnexB([slice]))
         == if d.formatDesc.None? then (d, Dropped)
            else (d, Submitted(d.formatDesc.value, d.formatDesc.value, Avcc([slice])))
  {
    AvccOfOne(slice);
    BlockIsAvcc([], slice);
    assert [] + START_CODE + slice == START_CODE + slice;
    assert (START_CODE + slice)[4] == slice[0];
  }

  lemma {:induction false} AnnexBLength(units: seq<seq<byte>>)
    requires ValidUnits(units)
    ensures |AnnexB(units)| == |Avcc(units)|
    ensures units != [] ==> 4 + |units[0]| <= |AnnexB(units)|
    ensures 1 < |units| ==> 8 + |units[0]| < |AnnexB(units)|
  {
    if units != [] {
      AnnexBLength(units[1..]);
    }
  }

  lemma BigEndianInjective(m: nat, n: nat)
    requires m < TWO_32 && n < TWO_32
    ensures ToBigEndian(m) == ToBigEndian(n) ==> m == n
  {
    BigEndianRoundTrip(m);
    BigEndianRoundTrip(n);
  }

  /** Start codes are the lengths of the units exactly if every unit is a single byte. */
  lemma {:induction false} CodesAreLengths(units: seq<seq<byte>>)
    requires ValidUnits(units)
    ensures AnnexB(units) == Avcc(units) <==> forall u | u in units :: |u| == 1
    ensures AnnexB(units) == Avcc(units) ==> |AnnexB(units)| == 5 * |units|
  {
    if units != [] {
      var u, more := units[0], units[1..];
      CodesAreLengths(more);
      CodeIsLength(|u|);
      TwoParts(START_CODE, u, AnnexB(more), ToBigEndian(|u|), u, Avcc(more));
      assert forall v | v in units :: v == u || v in more;
    }
  }

  lemma CodeIsLength(n: nat)
    requires n < TWO_32
    ensures START_CODE == ToBigEndian(n) <==> n == 1
  {
    assert Digits(1, 4) == [0, 0, 0, 1] by {
      assert Digits(0, 1) == [0] && Digits(0, 2) == [0, 0] && Digits(0, 3) == [0, 0, 0];
    }
    BigEndianInjective(n, 1);
  }

  /** Equal lengths make equal concatenations of equal parts only. */
  lemma TwoParts(a: seq<byte>, b: seq<byte>, c: seq<byte>, a': seq<byte>, b': seq<byte>, c': seq<byte>)
    requires |a| == |a'| && |b| == |b'|
    ensures a + b + c == a' + b' + c' <==> a == a' && b == b' && c == c'
  {
    if a + b + c == a' + b' + c' {
      assert (a + b + c)[..|a|] == a && (a' + b' + c')[..|a|] == a';
      assert (a + b + c)[|a|..|a| + |b|] == b && (a' + b' + c')[|a|..|a| + |b|] == b';
      assert (a + b + c)[|a| + |b|..] == c && (a' + b' + c')[|a| + |b|..] == c';
    }
  }

  lemma NoWrapBack(n: nat, k: nat)
    requires n < TWO_32 && 0 < k < TWO_32
    ensures (n + 5 * k) % TWO_32 != n
  {
  }

  /** Both formats of a sample, the first unit apart. */
  lemma FirstUnitApart(units: seq<seq<byte>>)
    requires units != [] && ValidUnits(units)
    ensures var u, more := units[0], units[1..];
            && |AnnexB(units)| == 4 + |u| + |AnnexB(more)|
            && AnnexB(units)[4..] == u + AnnexB(more)
            && Avcc(units) == ToBigEndian(|u|) + u + Avcc(more)
  {
    var u, tail := units[0], AnnexB(units[1..]);
    assert AnnexB(units) == START_CODE + u + tail;
    AfterFirstCode(u, tail);
  }

  lemma AfterFirstCode(u: seq<byte>, tail: seq<byte>)
    ensures (START_CODE + u + tail)[4..] == u + tail
  {
    assert START_CODE + u + tail == START_CODE + (u + tail);
  }

  /** A block and a sample that share their first unit differ in its length or in what follows. */
  lemma SameFirstUnit(header: nat, u: seq<byte>, b: seq<byte>, a: seq<byte>, rest: seq<byte>, sample: seq<byte>)
    requires header < TWO_32 && |u| < TWO_32
    requires rest == u + b && sample == ToBigEndian(|u|) + u + a
    ensures ToBigEndian(header) + rest == sample <==> header == |u| && b == a
  {
    assert ToBigEndian(header) + (u + b) == ToBigEndian(header) + u + b;
    TwoParts(ToBigEndian(header), u, b, ToBigEndian(|u|), u, a);
    BigEndianInjective(header, |u|);
  }

  /** Everything after the first start code, taken for one unit, is the sample exactly when it is
      one. (From 2^32 + 1 units on the length might wrap to that of the first.) */
  lemma RestAsOneUnit(units: seq<seq<byte>>)
    requires 0 < |units| <= TWO_32 && ValidUnits(units)
    ensures 4 < |AnnexB(units)|
    ensures ToBigEndian((|AnnexB(units)| - 4) % TWO_32) + AnnexB(units)[4..] == Avcc(units) <==> |units| == 1
  {
    var u, b, a := units[0], AnnexB(units[1..]), Avcc(units[1..]);
    FirstUnitApart(units);
    SameFirstUnit((|u| + |b|) % TWO_32, u, b, a, AnnexB(units)[4..], Avcc(units));
    LengthGivesAway(u, units[1..]);
  }

  /** Where start codes pass for lengths, the length of it all is not that of the first unit. */
  lemma LengthGivesAway(u: seq<byte>, more: seq<seq<byte>>)
    requires |u| < TWO_32 && |more| < TWO_32 && ValidUnits(more)
    ensures (|u| + |AnnexB(more)|) % TWO_32 == |u| && AnnexB(more) == Avcc(more) <==> more == []
  {
    CodesAreLengths(more);
    if more != [] {
      NoWrapBack(|u|, |more|);
    }
  }

  lemma StartsWithCode(units: seq<seq<byte>>)
    requires units != [] && ValidUnits(units)
    ensures 4 < |AnnexB(units)| && AnnexB(units) == START_CODE + AnnexB(units)[4..]
    ensures AnnexB(units)[4] == units[0][0]
  {
    var u, tail := units[0], AnnexB(units[1..]);
    assert AnnexB(units) == START_CODE + (u + tail);
    assert AnnexB(units)[4..] == u + tail;
  }

  /** The block the decoder makes of a last unit, or of what it takes for one. */
  lemma BlockOfRest(before: seq<byte>, tail: seq<byte>)
    requires 4 < |tail|
    ensures Block(before + tail, |before|)
         == if Overflows((|tail| - 4) % TWO_32) then None else Some(ToBigEndian((|tail| - 4) % TWO_32) + tail[4..])
  {
    LengthFieldWraps(|tail| - 4);
    assert (before + tail)[|before| + 4..] == tail[4..];
  }

  /** The block made of all units is the sample exactly when there is one unit, of a length that
      does not overflow. */
  lemma BlockOfUnits(before: seq<byte>, units: seq<seq<byte>>)
    requires 0 < |units| <= TWO_32 && ValidUnits(units)
    ensures Block(before + AnnexB(units), |before|) == Some(Avcc(units))
        <==> |units| == 1 && !Overflows(|units[0]|)
  {
    RestAsOneUnit(units);
    BlockOfRest(before, AnnexB(units));
    if |units| == 1 {
      AvccOfOne(units[0]);
      assert units == [units[0]];
    }
  }

  /** A block the decoder submits is made of the whole frame, or is shorter. */
  lemma SubmittedBlock(d: DecoderState, frame: seq<byte>)
    requires SizesKnown(d) && Decode(d, frame).1.Submitted?
    ensures var block, nalType := Decode(d, frame).1.block, ReadParams(d, frame).nalType;
            if nalType == NAL_IDR then |block| < |frame| else nalType == NAL_SLICE && Block(frame, 0) == Some(block)
  {
    ReadParamsKeepsSizes(d, frame);
  }

  /** A frame of one unit is never taken for another type of unit than it is. */
  lemma LoneUnitKeepsType(d: DecoderState, u: seq<byte>)
    requires 0 < |u| && NoStartCode(u)
    ensures var parsed := ReadParams(d, START_CODE + u);
            parsed.Parsed? ==> parsed.nalType == NalType(u[0])
  {
    var frame := START_CODE + u;
    assert frame[4] == u[0];
    NoStartCodeToTheEnd(START_CODE, u);
  }

  /** A frame that is not a key frame arrives unchanged exactly when a format is known and the
      frame is a single slice, whatever units it starts with and however many it has. */
  lemma DeltaFrameRoundTripsExactly(d: DecoderState, units: seq<seq<byte>>)
    requires SizesKnown(d)
    requires 0 < |units| <= TWO_32 && ValidUnits(units) && forall u | u in units :: NoStartCode(u)
    ensures var outcome := Decode(d, AnnexB(units)).1;
            outcome.Submitted? && outcome.block == Avcc(units)
            <==> d.formatDesc.Some? && |units| == 1 && NalType(units[0][0]) == NAL_SLICE && !Overflows(|units[0]|)
  {
    var frame, outcome := AnnexB(units), Decode(d, AnnexB(units)).1;
    StartsWithCode(units);
    AnnexBLength(units);
    BlockOfUnits([], units);
    assert [] + frame == frame;
    if outcome.Submitted? && outcome.block == Avcc(units) {
      SubmittedBlock(d, frame);
    }
    if |units| == 1 {
      AvccOfOne(units[0]);
      assert units == [units[0]];
      LoneUnitKeepsType(d, units[0]);
    }
  }

  /** Slices are submitted in any case, as one unit. */
  lemma SlicesAreSubmitted(d: DecoderState, units: seq<seq<byte>>)
    requires SessionMatches(d) && d.formatDesc.Some?
    requires units != [] && ValidUnits(units) && NalType(units[0][0]) == NAL_SLICE
    ensures Decode(d, AnnexB(units)).1
         == if Overflows((|AnnexB(units)| - 4) % TWO_32) then Panicked
            else Submitted(d.formatDesc.value, d.formatDesc.value,
                           ToBigEndian((|AnnexB(units)| - 4) % TWO_32) + AnnexB(units)[4..])
  {
    StartsWithCode(units);
    BlockOfRest([], AnnexB(units));
    assert [] + AnnexB(units) == AnnexB(units);
  }

  /** What the decoder makes of parameter sets followed by anything. */
  lemma AfterParams(d: DecoderState, sps: seq<byte>, pps: seq<byte>, tail: seq<byte>)
    requires SessionMatches(d)
    requires ParamSet(sps, NAL_SPS) && |sps| <= MAX_SPS && ParamSet(pps, NAL_PPS) && |pps| <= MAX_PPS
    requires 4 < |tail| && tail == START_CODE + tail[4..]
    ensures var before, format := START_CODE + sps + START_CODE + pps, ParamSets(sps, pps);
            var outcome := Decode(d, before + tail).1;
            if NalType(tail[4]) == NAL_IDR || NalType(tail[4]) == NAL_SLICE then
              // a slice that is no IDR slice is taken to begin where the frame begins
              var block := Block(before + tail, if NalType(tail[4]) == NAL_IDR then |before| else 0);
              outcome == if block.None? then Panicked else Submitted(format, format, block.value)
            else
              outcome == Panicked
  {
    var before, rest := START_CODE + sps + START_CODE + pps, tail[4..];
    var frame := before + tail;
    assert frame == KeyFrameBytes(sps, pps, rest);
    assert frame[4] == sps[0];
    KeyFrameParams(d, sps, pps, rest);
  }

  lemma ParamsAndTail(sps: seq<byte>, pps: seq<byte>, tail: seq<byte>)
    ensures AnnexB([sps, pps]) + tail == START_CODE + sps + START_CODE + pps + tail
  {
    assert [sps, pps][1..] == [pps];
    assert AnnexB([]) == [] && [pps][1..] == [];
    assert AnnexB([pps]) == START_CODE + pps + [];
    assert AnnexB([sps, pps]) == START_CODE + sps + AnnexB([pps]);
  }

  /** A key frame's own units arrive unchanged exactly when there is one, an IDR slice, behind
      parameter sets that fit the windows. Several units that start with an IDR slice arrive as one
      unit; other slices come with the parameter sets in their block; parameter sets that do not fit,
      and a first unit that is no slice, are a panic. */
  lemma KeyFrameRoundTripsExactly(d: DecoderState, sps: seq<byte>, pps: seq<byte>, units: seq<seq<byte>>)
    requires SessionMatches(d)
    requires ParamSet(sps, NAL_SPS) && ParamSet(pps, NAL_PPS)
    requires 0 < |units| <= TWO_32 && ValidUnits(units)
    ensures var outcome, first := Decode(d, AnnexB([sps, pps]) + AnnexB(units)).1, NalType(units[0][0]);
            var fits := |sps| <= MAX_SPS && |pps| <= MAX_PPS;
            && (outcome.Submitted? && outcome.block == Avcc(units)
                <==> fits && |units| == 1 && first == NAL_IDR && !Overflows(|units[0]|))
            && (fits && first == NAL_IDR ==>
                  if Overflows((|AnnexB(units)| - 4) % TWO_32) then outcome == Panicked
                  else outcome.Submitted? && outcome.format == ParamSets(sps, pps))
            && (fits && first == NAL_SLICE ==>
                  var block, sets := Block(AnnexB([sps, pps]) + AnnexB(units), 0), ParamSets(sps, pps);
                  outcome == if block.None? then Panicked else Submitted(sets, sets, block.value))
            && (!fits || (first != NAL_IDR && first != NAL_SLICE) ==> outcome == Panicked)
  {
    var tail := AnnexB(units);
    StartsWithCode(units);
    AnnexBLength(units);
    ParamsAndTail(sps, pps, tail);
    if |sps| <= MAX_SPS && |pps| <= MAX_PPS {
      AfterParams(d, sps, pps, tail);
      BlockOfUnits(START_CODE + sps + START_CODE + pps, units);
      BlockOfRest(START_CODE + sps + START_CODE + pps, tail);
    } else {
      assert START_CODE + sps + START_CODE + pps + tail == KeyFrameBytes(sps, pps, tail[4..]);
      LongParamsPanic(d, sps, pps, tail[4..]);
    }
  }

  // ------------------------------------------------------------------
  // Streams
  // ------------------------------------------------------------------

  datatype Frame =
    | Key(format: FormatDesc, pts: int, unit: seq<byte>)
    | Delta(format: FormatDesc, pts: int, unit: seq<byte>)
    | NoData(format: FormatDesc, pts: int, key: bool)

  ghost predicate GoodFrame(f: Frame) {
    match f
    case Key(format, _, idr) =>
      && |format.params| == 2
      && ParamSet(format.params[0], NAL_SPS) && |format.params[0]| <= MAX_SPS
      && ParamSet(format.params[1], NAL_PPS) && |format.params[1]| <= MAX_PPS
      && SliceUnit(idr, NAL_IDR)
    case Delta(_, _, slice) => SliceUnit(slice, NAL_SLICE)
    case NoData(_, _, _) => true
  }

  ghost function ToBuffer(f: Frame): SampleBuffer
    requires GoodFrame(f)
  {
    match f
    case Key(format, pts, idr) => SampleBuffer(pts, format, true, Some(Avcc([idr])))
    case Delta(format, pts, slice) => SampleBuffer(pts, format, false, Some(Avcc([slice])))
    case NoData(format, pts, key) => SampleBuffer(pts, format, key, None)
  }

  lemma FrameReadable(f: Frame)
    requires GoodFrame(f)
    ensures ReadableSample(ToBuffer(f))
    ensures !f.NoData? ==> Units(ToBuffer(f).data.value, 0) == Some([f.unit])
  {
    if !f.NoData? {
      UnitsOfSample([f.unit]);
    }
  }

  /** The encoder after a stream of frames. */
  ghost function EncodeAll(e: EncoderState, fs: seq<Frame>): EncoderState
    requires forall f | f in fs :: GoodFrame(f)
    decreases |fs|
  {
    if fs == [] then e
    else
      FrameReadable(fs[0]);
      EncodeAll(Handle(e, ToBuffer(fs[0])), fs[1..])
  }

  function DecodeAll(d: DecoderState, frames: seq<CapturerOutput>): seq<Outcome>
    decreases |frames|
  {
    if frames == [] then []
    else
      var (d', outcome) := Decode(d, frames[0].data);
      [outcome] + DecodeAll(d', frames[1..])
  }

  /** What ought to arrive: each frame's own block, under the latest key frame's parameter sets. */
  ghost function Expected(current: Option<ParamSets>, fs: seq<Frame>): seq<Outcome>
    requires forall f | f in fs :: GoodFrame(f)
    requires current.None? ==> StartsWithKey(fs)
    decreases |fs|
  {
    if fs == [] then []
    else
      assert GoodFrame(fs[0]);
      match fs[0]
      case NoData(_, _, _) => Expected(current, fs[1..])
      case Key(format, _, idr) =>
        var sets := ParamSets(format.params[0], format.params[1]);
        [Submitted(sets, sets, Avcc([idr]))] + Expected(Some(sets), fs[1..])
      case Delta(_, _, slice) =>
        [Submitted(current.value, current.value, Avcc([slice]))] + Expected(current, fs[1..])
  }

  /** The first frame that carries data, if any, is a key frame. */
  predicate StartsWithKey(fs: seq<Frame>) {
    fs == [] || fs[0].Key? || (fs[0].NoData? && StartsWithKey(fs[1..]))
  }

  /** What one frame adds to the encoder's output. */
  lemma FrameSent(e: EncoderState, f: Frame)
    requires GoodFrame(f) && CacheFresh(e)
    ensures ReadableSample(ToBuffer(f))
    ensures CacheFresh(Handle(e, ToBuffer(f)))
    ensures f.NoData? ==> Handle(e, ToBuffer(f)).sent == e.sent
    ensures !f.NoData? ==>
              var sent := Handle(e, ToBuffer(f)).sent;
              && |sent| == |e.sent| + 1 && e.sent == sent[..|e.sent|]
              && sent[|e.sent|].data == (if f.Key? then KeyFrameBytes(f.format.params[0], f.format.params[1], f.unit)
                                         else AnnexB([f.unit]))
  {
    FrameReadable(f);
    HandleKeepsCache(e, ToBuffer(f));
    if !f.NoData? {
      AvccOfOne(f.unit);
      if f.Key? {
        KeyBytes(f.format.params, f.unit);
      } else {
        assert [] + AnnexB([f.unit]) == AnnexB([f.unit]);
      }
    }
  }

  lemma KeyBytes(params: seq<seq<byte>>, idr: seq<byte>)
    requires |params| == 2
    ensures AnnexB(params) + (START_CODE + idr) == KeyFrameBytes(params[0], params[1], idr)
  {
    assert params == [params[0], params[1]];
    assert params[1..][1..] == [];
    assert AnnexB(params[1..]) == START_CODE + params[1] + [];
    assert START_CODE + params[0] + (START_CODE + params[1] + []) + (START_CODE + idr)
        == KeyFrameBytes(params[0], params[1], idr);
  }

  lemma {:induction false} SentGrows(e: EncoderState, fs: seq<Frame>)
    requires forall f | f in fs :: GoodFrame(f)
    requires CacheFresh(e)
    ensures e.sent <= EncodeAll(e, fs).sent
    decreases |fs|
  {
    if fs != [] {
      FrameSent(e, fs[0]);
      SentGrows(Handle(e, ToBuffer(fs[0])), fs[1..]);
    }
  }

  lemma {:induction false} StreamRoundTripFrom(e: EncoderState, d: DecoderState, fs: seq<Frame>)
    requires forall f | f in fs :: GoodFrame(f)
    requires CacheFresh(e) && SessionMatches(d)
    requires d.formatDesc.None? ==> StartsWithKey(fs)
    ensures e.sent <= EncodeAll(e, fs).sent
    ensures DecodeAll(d, EncodeAll(e, fs).sent[|e.sent|..]) == Expected(d.formatDesc, fs)
    decreases |fs|
  {
    SentGrows(e, fs);
    if fs != [] {
      var f := fs[0];
      FrameSent(e, f);
      var e' := Handle(e, ToBuffer(f));
      SentGrows(e', fs[1..]);
      var sent := EncodeAll(e', fs[1..]).sent;
      if f.NoData? {
        StreamRoundTripFrom(e', d, fs[1..]);
      } else {
        var bytes := sent[|e.sent|].data;
        var d' := Decode(d, bytes).0;
        assert sent[|e.sent|..][1..] == sent[|e'.sent|..];
        if f.Key? {
          KeyFrameDecodesExactly(d, f.format.params[0], f.format.params[1], f.unit);
        } else {
          DeltaFrameDecodes(d, f.unit);
        }
        StreamRoundTripFrom(e', d', fs[1..]);
      }
    }
  }

  /** From a fresh encoder to a fresh decoder: across any history of formats, every frame's
      block arrives byte for byte, under the parameter sets of the latest key frame. */
  lemma StreamRoundTrip(fs: seq<Frame>)
    requires forall f | f in fs :: GoodFrame(f)
    requires StartsWithKey(fs)
    ensures DecodeAll(INITIAL_DECODER, EncodeAll(INITIAL_ENCODER, fs).sent) == Expected(None, fs)
  {
    StreamRoundTripFrom(INITIAL_ENCODER, INITIAL_DECODER, fs);
    var sent := EncodeAll(INITIAL_ENCODER, fs).sent;
    assert sent[0..] == sent;
  }

  /** The decoder after a stream of frames. */
  function DecoderAfter(d: DecoderState, frames: seq<CapturerOutput>): DecoderState
    decreases |frames|
  {
    if frames == [] then d else DecoderAfter(Decode(d, frames[0].data).0, frames[1..])
  }

  /** How often the parameter sets of the key frames change. */
  ghost function Changes(current: Option<ParamSets>, fs: seq<Frame>): nat
    requires forall f | f in fs :: GoodFrame(f)
    decreases |fs|
  {
    if fs == [] then 0
    else
      assert GoodFrame(fs[0]);
      match fs[0]
      case Key(format, _, _) =>
        var sets := Some(ParamSets(format.params[0], format.params[1]));
        (if sets == current then 0 else 1) + Changes(sets, fs[1..])
      case _ => Changes(current, fs[1..])
  }

  lemma KeyFrameSessions(d: DecoderState, sps: seq<byte>, pps: seq<byte>, idr: seq<byte>)
    requires SessionMatches(d)
    requires ParamSet(sps, NAL_SPS) && ParamSet(pps, NAL_PPS) && SliceUnit(idr, NAL_IDR)
    requires |sps| <= MAX_SPS && |pps| <= MAX_PPS
    ensures var d' := Decode(d, KeyFrameBytes(sps, pps, idr)).0;
            d'.sessions == d.sessions + if d.formatDesc == Some(ParamSets(sps, pps)) then 0 else 1
  {
    var frame := KeyFrameBytes(sps, pps, idr);
    assert frame[4] == sps[0];
    KeyFrameParams(d, sps, pps, idr);
  }

  /** What one frame does to the decoder's format and its sessions. */
  lemma FrameReceived(d: DecoderState, f: Frame, bytes: seq<byte>)
    requires GoodFrame(f) && !f.NoData? && SessionMatches(d) && (f.Key? || d.formatDesc.Some?)
    requires bytes == if f.Key? then KeyFrameBytes(f.format.params[0], f.format.params[1], f.unit) else AnnexB([f.unit])
    ensures var d' := Decode(d, bytes).0;
            var sets := if f.Key? then Some(ParamSets(f.format.params[0], f.format.params[1])) else d.formatDesc;
            && SessionMatches(d') && d'.formatDesc == sets
            && d'.sessions == d.sessions + if sets == d.formatDesc then 0 else 1
  {
    if f.Key? {
      KeyFrameDecodesExactly(d, f.format.params[0], f.format.params[1], f.unit);
      KeyFrameSessions(d, f.format.params[0], f.format.params[1], f.unit);
    } else {
      DeltaFrameDecodes(d, f.unit);
    }
  }

  lemma {:induction false} SessionsFrom(e: EncoderState, d: DecoderState, fs: seq<Frame>)
    requires forall f | f in fs :: GoodFrame(f)
    requires CacheFresh(e) && SessionMatches(d)
    requires d.formatDesc.None? ==> StartsWithKey(fs)
    ensures e.sent <= EncodeAll(e, fs).sent
    ensures DecoderAfter(d, EncodeAll(e, fs).sent[|e.sent|..]).sessions == d.sessions + Changes(d.formatDesc, fs)
    decreases |fs|
  {
    SentGrows(e, fs);
    if fs != [] {
      var f := fs[0];
      FrameSent(e, f);
      var e' := Handle(e, ToBuffer(f));
      SentGrows(e', fs[1..]);
      var sent := EncodeAll(e', fs[1..]).sent;
      if f.NoData? {
        SessionsFrom(e', d, fs[1..]);
      } else {
        var bytes := sent[|e.sent|].data;
        FrameReceived(d, f, bytes);
        assert sent[|e.sent|..][1..] == sent[|e'.sent|..];
        SessionsFrom(e', Decode(d, bytes).0, fs[1..]);
      }
    }
  }

  /** Over a whole stream a session is created for the first key frame and then exactly when the
      parameter sets change. */
  lemma SessionsFollowFormats(fs: seq<Frame>)
    requires forall f | f in fs :: GoodFrame(f)
    requires StartsWithKey(fs)
    ensures DecoderAfter(INITIAL_DECODER, EncodeAll(INITIAL_ENCODER, fs).sent).sessions == Changes(None, fs)
  {
    SessionsFrom(INITIAL_ENCODER, INITIAL_DECODER, fs);
    var sent := EncodeAll(INITIAL_ENCODER, fs).sent;
    assert sent[0..] == sent;
  }

  function Times(frames: seq<CapturerOutput>): seq<int> {
    if frames == [] then [] else [frames[0].time] + Times(frames[1..])
  }

  /** The presentation times of the frames that carry data, counted from `start`. */
  function FrameTimes(start: int, fs: seq<Frame>): seq<int> {
    if fs == [] then []
    else (if fs[0].NoData? then [] else [fs[0].pts - start]) + FrameTimes(start, fs[1..])
  }

  lemma FrameTimed(e: EncoderState, f: Frame, start: int)
    requires GoodFrame(f) && CacheFresh(e)
    requires e.videoStartTime == Some(start) || (e.videoStartTime.None? && f.pts == start)
    ensures ReadableSample(ToBuffer(f)) && CacheFresh(Handle(e, ToBuffer(f)))
    ensures var e' := Handle(e, ToBuffer(f));
            && e'.videoStartTime == Some(start) && e'.framesCount == e.framesCount + 1
            && (f.NoData? ==> e'.sent == e.sent)
            && (!f.NoData? ==> |e'.sent| == |e.sent| + 1 && e'.sent[|e.sent|].time == f.pts - start)
  {
    FrameSent(e, f);
  }

  lemma {:induction false} TimesFrom(e: EncoderState, fs: seq<Frame>, start: int)
    requires forall f | f in fs :: GoodFrame(f)
    requires CacheFresh(e)
    requires e.videoStartTime == Some(start) || (e.videoStartTime.None? && fs != [] && fs[0].pts == start)
    ensures |e.sent| <= |EncodeAll(e, fs).sent|
    ensures Times(EncodeAll(e, fs).sent[|e.sent|..]) == FrameTimes(start, fs)
    decreases |fs|
  {
    if fs != [] {
      FrameTimed(e, fs[0], start);
      var e' := Handle(e, ToBuffer(fs[0]));
      SentGrows(e', fs[1..]);
      TimesFrom(e', fs[1..], start);
      FirstTime(EncodeAll(e', fs[1..]).sent, e.sent, e'.sent, fs, start);
    }
  }

  lemma {:induction false} FramesCounted(e: EncoderState, fs: seq<Frame>)
    requires forall f | f in fs :: GoodFrame(f)
    ensures EncodeAll(e, fs).framesCount == e.framesCount + |fs|
    decreases |fs|
  {
    if fs != [] {
      FrameReadable(fs[0]);
      FramesCounted(Handle(e, ToBuffer(fs[0])), fs[1..]);
    }
  }

  lemma FirstTime(sent: seq<CapturerOutput>, before: seq<CapturerOutput>, after: seq<CapturerOutput>,
                  fs: seq<Frame>, start: int)
    requires fs != [] && after <= sent
    requires if fs[0].NoData? then after == before
             else |after| == |before| + 1 && after[|before|].time == fs[0].pts - start
    requires Times(sent[|after|..]) == FrameTimes(start, fs[1..])
    ensures Times(sent[|before|..]) == FrameTimes(start, fs)
  {
    if !fs[0].NoData? {
      assert sent[|before|..][1..] == sent[|after|..];
      assert sent[|before|] == after[|before|];
    }
  }

  lemma WholeTimes(fs: seq<Frame>)
    requires forall f | f in fs :: GoodFrame(f)
    requires fs != []
    ensures Times(EncodeAll(INITIAL_ENCODER, fs).sent) == FrameTimes(fs[0].pts, fs)
  {
    TimesFrom(INITIAL_ENCODER, fs, fs[0].pts);
    var sent := EncodeAll(INITIAL_ENCODER, fs).sent;
    assert sent[0..] == sent;
  }

  /** Times start at the very first sample, even one without data. */
  lemma StreamTimes(fs: seq<Frame>)
    requires forall f | f in fs :: GoodFrame(f)
    requires fs != []
    ensures Times(EncodeAll(INITIAL_ENCODER, fs).sent) == FrameTimes(fs[0].pts, fs)
    ensures EncodeAll(INITIAL_ENCODER, fs).framesCount == |fs|
  {
    WholeTimes(fs);
    FramesCounted(INITIAL_ENCODER, fs);
  }
}
