/** The viewer's decoder front end: start-code search, parameter sets and the length-prefixed
    block handed to the hardware decoder (cap/src/decoder.rs). Every index, slice and unsigned
    subtraction that can panic on some frame is a Panicked outcome. */
module VideoDecoder {
  import opened Bytes
  import opened Wrappers

  datatype ParamSets = ParamSets(sps: seq<byte>, pps: seq<byte>)

  /** `sessions` counts the decoding sessions created so far. */
  datatype DecoderState = DecoderState(
    formatDesc: Option<ParamSets>,
    session: Option<ParamSets>,
    spsSize: nat,
    ppsSize: nat,
    sessions: nat)

  const INITIAL_DECODER := DecoderState(None, None, 0, 0, 0)

  /** `Submitted` is a block decoded under a format, by a session made for `session`. */
  datatype Outcome =
    | Dropped
    | Submitted(format: ParamSets, session: ParamSets, block: seq<byte>)
    | Panicked

  const SPS_WINDOW := 40
  const PPS_WINDOW := 30
  const NAL_SLICE := 1
  const NAL_IDR := 5
  const NAL_SPS := 7
  const NAL_PPS := 8

  function NalType(b: byte): nat {
    b as int % 32
  }

  datatype SearchResult = Found(index: nat) | NotFound | OutOfRange

  /** Comparing byte by byte, left to right, stops at the first difference. */
  function Probe(frame: seq<byte>, i: nat): SearchResult {
    if |frame| <= i then OutOfRange
    else if frame[i] != 0 then NotFound
    else if |frame| <= i + 1 then OutOfRange
    else if frame[i + 1] != 0 then NotFound
    else if |frame| <= i + 2 then OutOfRange
    else if frame[i + 2] != 0 then NotFound
    else if |frame| <= i + 3 then OutOfRange
    else if frame[i + 3] != 1 then NotFound
    else Found(i)
  }

  function Search(frame: seq<byte>, from: nat, to: nat): (r: SearchResult)
    ensures r.Found? ==> from <= r.index < to && StartCodeAt(frame, r.index)
    ensures r.NotFound? ==> (forall i | from <= i < to :: !StartCodeAt(frame, i))
    decreases if from < to then to - from else 0
  {
    if to <= from then NotFound
    else
      var r := Probe(frame, from);
      if r.NotFound? then Search(frame, from + 1, to) else r
  }

  /** The signed 32-bit cast of a length. */
  function AsI32(n: nat): int {
    var low := n % TWO_32;
    if low < 0x8000_0000 then low else low - TWO_32
  }

  /** The four bytes written over the start code; None where the signed subtraction overflows. */
  function LengthField(blockLength: nat): Option<seq<byte>> {
    var n := AsI32(blockLength) - 4;
    if n < -0x8000_0000 then None
    else Some(ToBigEndian(if n < 0 then n + TWO_32 else n))
  }

  /** `frame[offset..]` with its first four bytes replaced by the length of the rest. */
  function Block(frame: seq<byte>, offset: nat): Option<seq<byte>> {
    if |frame| < offset + 4 || LengthField(|frame| - offset).None? then None
    else Some(LengthField(|frame| - offset).value + frame[offset + 4..])
  }

  /** What is known after the parameter sets, if any, have been read: the type of the next unit. */
  datatype Parsed = Parsed(d: DecoderState, nalType: nat) | Failed

  function ReadSps(d: DecoderState, frame: seq<byte>): Parsed
    requires 4 < |frame|
  {
    match Search(frame, 4, SPS_WINDOW)
    case OutOfRange => Failed
    case NotFound => Parsed(d, NalType(frame[4]))
    case Found(i) =>
      if |frame| <= i + 4 then Failed else Parsed(d.(spsSize := i), NalType(frame[i + 4]))
  }

  function UseFormat(d: DecoderState, format: ParamSets): DecoderState {
    if d.formatDesc == Some(format) then d
    else d.(formatDesc := Some(format), session := Some(format), sessions := d.sessions + 1)
  }

  function ReadPps(d: DecoderState, frame: seq<byte>): Parsed
    requires 4 < |frame|
  {
    match Search(frame, d.spsSize + 4, d.spsSize + PPS_WINDOW)
    case OutOfRange => Failed
    case NotFound => FinishPps(d, frame, 0)
    case Found(i) => FinishPps(d.(ppsSize := i - d.spsSize), frame, i)
  }

  function FinishPps(d: DecoderState, frame: seq<byte>, third: nat): Parsed {
    if d.spsSize < 4 || d.ppsSize < 4 || |frame| < d.spsSize + d.ppsSize || |frame| <= third + 4 then
      Failed
    else
      Parsed(UseFormat(d, ParamSets(frame[4..d.spsSize], frame[d.spsSize + 4..d.spsSize + d.ppsSize])),
             NalType(frame[third + 4]))
  }

  function ReadParams(d: DecoderState, frame: seq<byte>): Parsed
    requires 4 < |frame|
  {
    var first := if NalType(frame[4]) == NAL_SPS then ReadSps(d, frame) else Parsed(d, NalType(frame[4]));
    if first.Parsed? && first.nalType == NAL_PPS then ReadPps(first.d, frame) else first
  }

  function Submit(d: DecoderState, frame: seq<byte>, nalType: nat): (DecoderState, Outcome) {
    var d1 := if d.session.None? && d.formatDesc.Some? then
                d.(session := d.formatDesc, sessions := d.sessions + 1) else d;
    var block := if nalType == NAL_IDR then Block(frame, d.spsSize + d.ppsSize)
                 else if nalType == NAL_SLICE then Block(frame, 0)
                 else None;
    if block.None? || d1.formatDesc.None? then (d1, Panicked)
    else if d1.session.None? then (d1, Dropped)
    else (d1, Submitted(d1.formatDesc.value, d1.session.value, block.value))
  }

  function Decode(d: DecoderState, frame: seq<byte>): (DecoderState, Outcome) {
    if |frame| <= 4 then (d, Panicked)
    else if NalType(frame[4]) != NAL_SPS && d.formatDesc.None? then (d, Dropped)
    else
      match ReadParams(d, frame)
      case Failed => (d, Panicked)
      case Parsed(d1, nalType) => Submit(d1, frame, nalType)
  }

  /** A session is only ever used for the format it was made for. */
  ghost predicate SessionMatches(d: DecoderState) {
    d.session == d.formatDesc
  }

  lemma DecodeKeepsSession(d: DecoderState, frame: seq<byte>)
    requires SessionMatches(d)
    ensures SessionMatches(Decode(d, frame).0)
    ensures Decode(d, frame).1.Submitted? ==> Decode(d, frame).1.session == Decode(d, frame).1.format
    ensures Decode(d, frame).1.Dropped? <==> 4 < |frame| && NalType(frame[4]) != NAL_SPS && d.formatDesc.None?
  {
  }

  /** The first start code in a window of the frame. */
  predicate FirstStartCode(frame: seq<byte>, from: nat, to: nat, i: nat) {
    from <= i < to && StartCodeAt(frame, i) && forall k | from <= k < i :: !StartCodeAt(frame, k)
  }

  lemma {:induction false} SearchIsFirst(frame: seq<byte>, from: nat, to: nat)
    ensures Search(frame, from, to).Found? ==> FirstStartCode(frame, from, to, Search(frame, from, to).index)
    ensures Search(frame, from, to).NotFound? ==> forall k | from <= k < to :: !StartCodeAt(frame, k)
    decreases if from < to then to - from else 0
  {
    if from < to {
      SearchIsFirst(frame, from + 1, to);
    }
  }

  /** What is read of a frame that starts with a sequence parameter set: where the first start code of
      its window is, the set ends; without one the size known before stays. */
  lemma SpsReadExactly(d: DecoderState, frame: seq<byte>)
    requires 4 < |frame| && ReadSps(d, frame).Parsed?
    ensures var Parsed(d', nalType) := ReadSps(d, frame);
            && d' == d.(spsSize := d'.spsSize)
            && ( || (FirstStartCode(frame, 4, 40, d'.spsSize) && d'.spsSize + 4 < |frame|
                     && nalType == NalType(frame[d'.spsSize + 4]))
                 || ((forall k | 4 <= k < 40 :: !StartCodeAt(frame, k))
                     && d'.spsSize == d.spsSize && nalType == NalType(frame[4])))
  {
    SearchIsFirst(frame, 4, 40);
  }

  /** What is read of a picture parameter set, which starts where the other one, as far as is known,
      has ended: its size likewise, and the format both make. */
  lemma PpsReadExactly(d: DecoderState, frame: seq<byte>)
    requires 4 < |frame| && ReadPps(d, frame).Parsed?
    ensures var Parsed(d', nalType) := ReadPps(d, frame);
            && 4 <= d.spsSize == d'.spsSize && 4 <= d'.ppsSize && d.spsSize + d'.ppsSize <= |frame|
            && d'.formatDesc == Some(ParamSets(frame[4..d.spsSize], frame[d.spsSize + 4..d.spsSize + d'.ppsSize]))
            && d'.sessions == (if d'.formatDesc == d.formatDesc then d.sessions else d.sessions + 1)
            && ( || (FirstStartCode(frame, d.spsSize + 4, d.spsSize + 30, d.spsSize + d'.ppsSize)
                     && d.spsSize + d'.ppsSize + 4 < |frame|
                     && nalType == NalType(frame[d.spsSize + d'.ppsSize + 4]))
                 || ((forall k | d.spsSize + 4 <= k < d.spsSize + 30 :: !StartCodeAt(frame, k))
                     && d'.ppsSize == d.ppsSize && nalType == NalType(frame[4])))
  {
    SearchIsFirst(frame, d.spsSize + 4, d.spsSize + 30);
  }

  lemma {:induction false} SearchStaysInside(frame: seq<byte>, from: nat, to: nat)
    requires to + 3 <= |frame|
    ensures !Search(frame, from, to).OutOfRange?
    decreases if from < to then to - from else 0
  {
    if from < to {
      SearchStaysInside(frame, from + 1, to);
    }
  }

  /** A frame longer than the windows is always read, as far as the sizes known fit it. */
  lemma LongFramesAreRead(d: DecoderState, frame: seq<byte>)
    requires 4 < |frame|
    ensures 44 <= |frame| ==> ReadSps(d, frame).Parsed?
    ensures 4 <= d.spsSize && 4 <= d.ppsSize && d.spsSize + 34 <= |frame| && d.spsSize + d.ppsSize <= |frame| ==>
              ReadPps(d, frame).Parsed?
  {
    SearchIsFirst(frame, 4, 40);
    SearchIsFirst(frame, d.spsSize + 4, d.spsSize + 30);
    if 43 <= |frame| {
      SearchStaysInside(frame, 4, 40);
    }
    if d.spsSize + 33 <= |frame| {
      SearchStaysInside(frame, d.spsSize + 4, d.spsSize + 30);
    }
  }

  /** A decoder that knows a format knows how long its parameter sets were. */
  ghost predicate SizesKnown(d: DecoderState) {
    d.formatDesc.Some? ==> 4 <= d.spsSize && 4 <= d.ppsSize
  }

  lemma ReadParamsKeepsSizes(d: DecoderState, frame: seq<byte>)
    requires SizesKnown(d) && 4 < |frame|
    ensures ReadParams(d, frame).Parsed? ==> SizesKnown(ReadParams(d, frame).d)
  {
  }

  lemma DecodeKeepsSizes(d: DecoderState, frame: seq<byte>)
    requires SizesKnown(d)
    ensures SizesKnown(Decode(d, frame).0)
  {
    if 4 < |frame| {
      ReadParamsKeepsSizes(d, frame);
    }
  }

  class Decoder {
    var formatDesc: Option<ParamSets>
    var session: Option<ParamSets>
    var spsSize: nat
    var ppsSize: nat
    var sessions: nat

    function Abs(): DecoderState
      reads this
    {
      DecoderState(formatDesc, session, spsSize, ppsSize, sessions)
    }

    constructor ()
      ensures Abs() == INITIAL_DECODER
    {
      formatDesc, session, spsSize, ppsSize, sessions := None, None, 0, 0, 0;
    }

    method FindStartCode(frame: seq<byte>, from: nat, to: nat) returns (r: SearchResult)
      ensures r == Search(frame, from, to)
    {
      var i := from;
      while i < to
        invariant i <= to || i == from
        invariant Search(frame, from, to) == Search(frame, i, to)
      {
        r := Probe(frame, i);
        if !r.NotFound? {
          return;
        }
        i := i + 1;
      }
      return NotFound;
    }

    /** Decode a frame. After a panic the decoder is gone; only then is its state left open. */
    method DecodeFrame(frame: seq<byte>) returns (outcome: Outcome)
      modifies this
      ensures outcome == Decode(old(Abs()), frame).1
      ensures outcome != Panicked ==> Abs() == Decode(old(Abs()), frame).0
    {
      if |frame| <= 4 {
        return Panicked;
      }
      if NalType(frame[4]) != NAL_SPS && formatDesc.None? {
        return Dropped;
      }
      var ok, nalType := ParseParams(frame);
      if !ok {
        return Panicked;
      }
      outcome := SubmitBlock(frame, nalType);
    }

    method ParseParams(frame: seq<byte>) returns (ok: bool, nalType: nat)
      requires 4 < |frame|
      modifies this
      ensures ok <==> ReadParams(old(Abs()), frame).Parsed?
      ensures ok ==> ReadParams(old(Abs()), frame) == Parsed(Abs(), nalType)
    {
      ok, nalType := true, NalType(frame[4]);
      if nalType == NAL_SPS {
        ok, nalType := ParseSps(frame);
      }
      if ok && nalType == NAL_PPS {
        ok, nalType := ParsePps(frame);
      }
    }

    method ParseSps(frame: seq<byte>) returns (ok: bool, nalType: nat)
      requires 4 < |frame|
      modifies this
      ensures ok <==> ReadSps(old(Abs()), frame).Parsed?
      ensures ok ==> ReadSps(old(Abs()), frame) == Parsed(Abs(), nalType)
    {
      ok, nalType := false, 0;
      var second := 0;
      var r := FindStartCode(frame, 4, SPS_WINDOW);
      if r.OutOfRange? {
        return;
      }
      if r.Found? {
        second := r.index;
        spsSize := second;
      }
      if |frame| <= second + 4 {
        return;
      }
      return true, NalType(frame[second + 4]);
    }

    method ParsePps(frame: seq<byte>) returns (ok: bool, nalType: nat)
      requires 4 < |frame|
      modifies this
      ensures ok <==> ReadPps(old(Abs()), frame).Parsed?
      ensures ok ==> ReadPps(old(Abs()), frame) == Parsed(Abs(), nalType)
    {
      ok, nalType := false, 0;
      var third := 0;
      var r := FindStartCode(frame, spsSize + 4, spsSize + PPS_WINDOW);
      if r.OutOfRange? {
        return;
      }
      if r.Found? {
        third := r.index;
        ppsSize := third - spsSize;
      }
      if spsSize < 4 || ppsSize < 4 {
        return;
      }
      var ppsStart := spsSize + 4;
      var ppsEnd := ppsStart + ppsSize - 4;
      if |frame| < ppsEnd || |frame| <= third + 4 {
        return;
      }
      var format := ParamSets(frame[4..spsSize], frame[ppsStart..ppsEnd]);
      AdoptFormat(format);
      return true, NalType(frame[third + 4]);
    }

    /** A format that differs from the one before needs a session of its own. */
    method AdoptFormat(format: ParamSets)
      modifies this`formatDesc, this`session, this`sessions
      ensures Abs() == UseFormat(old(Abs()), format)
    {
      if formatDesc.Some? {
        var same := formatDesc.value == format;
        formatDesc := Some(format);
        if !same {
          CreateSession();
        }
      } else {
        formatDesc := Some(format);
        CreateSession();
      }
    }

    method SubmitBlock(frame: seq<byte>, nalType: nat) returns (outcome: Outcome)
      modifies this`session, this`sessions
      ensures (Abs(), outcome) == Submit(old(Abs()), frame, nalType)
    {
      if session.None? {
        CreateSession();
      }
      var block: Option<seq<byte>> := None;
      if nalType == NAL_IDR {
        block := RebuildBlock(frame, spsSize + ppsSize);
      }
      if nalType == NAL_SLICE {
        block := RebuildBlock(frame, 0);
      }
      if block.None? || formatDesc.None? {
        return Panicked;
      }
      if session.None? {
        return Dropped;
      }
      return Submitted(formatDesc.value, session.value, block.value);
    }

    method CreateSession()
      modifies this`session, this`sessions
      ensures session == if formatDesc.Some? then formatDesc else old(session)
      ensures sessions == if formatDesc.Some? then old(sessions) + 1 else old(sessions)
    {
      if formatDesc.Some? {
        session := formatDesc;
        sessions := sessions + 1;
      }
    }

    /** Copies a block out of the frame and overwrites its start code in place. */
    method RebuildBlock(frame: seq<byte>, offset: nat) returns (block: Option<seq<byte>>)
      ensures block == Block(frame, offset)
    {
      if |frame| < offset + 4 {
        return None;
      }
      var length := |frame| - offset;
      var data := new byte[length](i requires 0 <= i < length => frame[offset + i]);
      var header := LengthField(length);
      if header.None? {
        return None;
      }
      for i := 0 to 4
        invariant data.Length == length
        invariant data[..i] == header.value[..i]
        invariant forall k | 4 <= k < length :: data[k] == frame[offset + k]
      {
        data[i] := header.value[i];
      }
      assert data[..] == header.value + frame[offset + 4..];
      return Some(data[..]);
    }
  }
}
