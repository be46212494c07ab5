/** The screen recorder's output side: a cache of the parameter sets and one byte-stream
    frame per encoded sample (cap/src/video.rs). */
module VideoEncoder {
  import opened Bytes
  import opened ElementaryStream
  import opened Wrappers

  /** `extensions` stands for everything besides the parameter sets that format equality compares. */
  datatype FormatDesc = FormatDesc(params: seq<seq<byte>>, extensions: nat)

  datatype SampleBuffer = SampleBuffer(pts: int, format: FormatDesc, key: bool, data: Option<seq<byte>>)

  datatype CapturerOutput = CapturerOutput(data: seq<byte>, time: int)

  datatype EncoderState = EncoderState(
    framesCount: nat,
    formatDesc: Option<FormatDesc>,
    cachedFormatBytes: seq<byte>,
    videoStartTime: Option<int>,
    sent: seq<CapturerOutput>)

  const INITIAL_ENCODER := EncoderState(0, None, [], None, [])

  predicate ReadableSample(buffer: SampleBuffer) {
    buffer.data.Some? ==> Readable(buffer.data.value)
  }

  function FormatBytes(e: EncoderState, desc: FormatDesc): seq<byte> {
    if e.formatDesc == Some(desc) then e.cachedFormatBytes else AnnexB(desc.params)
  }

  function Handle(e: EncoderState, buffer: SampleBuffer): EncoderState
    requires ReadableSample(buffer)
  {
    var start := if e.videoStartTime.Some? then e.videoStartTime.value else buffer.pts;
    var format := FormatBytes(e, buffer.format);
    var out := ElemStream(buffer.data, buffer.key, format);
    EncoderState(
      e.framesCount + 1,
      Some(buffer.format),
      format,
      Some(start),
      if out == [] then e.sent else e.sent + [CapturerOutput(out, buffer.pts - start)])
  }

  /** The cache always holds the parameter sets of the last descriptor seen. */
  ghost predicate CacheFresh(e: EncoderState) {
    e.formatDesc.Some? ==> e.cachedFormatBytes == AnnexB(e.formatDesc.value.params)
  }

  lemma HandleKeepsCache(e: EncoderState, buffer: SampleBuffer)
    requires ReadableSample(buffer) && CacheFresh(e)
    ensures CacheFresh(Handle(e, buffer))
    ensures FormatBytes(e, buffer.format) == AnnexB(buffer.format.params)
  {
  }

  class RecordContext {
    var framesCount: nat
    var formatDesc: Option<FormatDesc>
    var sender: seq<CapturerOutput>
    var cachedFormatBytes: seq<byte>
    var videoStartTime: Option<int>

    function Abs(): EncoderState
      reads this
    {
      EncoderState(framesCount, formatDesc, cachedFormatBytes, videoStartTime, sender)
    }

    constructor ()
      ensures Abs() == INITIAL_ENCODER
    {
      framesCount, formatDesc, sender, cachedFormatBytes, videoStartTime := 0, None, [], [], None;
    }

    method HandleSampleBuffer(buffer: SampleBuffer)
      requires ReadableSample(buffer)
      modifies this
      ensures Abs() == Handle(old(Abs()), buffer)
    {
      var time := 0;
      match videoStartTime {
        case Some(start) => time := buffer.pts - start;
        case None => videoStartTime := Some(buffer.pts);
      }
      UpdateFormat(buffer.format);
      var out := ToElemStream(buffer.data, buffer.key, cachedFormatBytes);
      // an empty frame would crash the decoder
      if out != [] {
        sender := sender + [CapturerOutput(out, time)];
      }
      framesCount := framesCount + 1;
    }

    method UpdateFormat(desc: FormatDesc)
      modifies this`formatDesc, this`cachedFormatBytes
      ensures formatDesc == Some(desc)
      ensures cachedFormatBytes == FormatBytes(old(Abs()), desc)
    {
      var changed := true;
      match formatDesc {
        case None =>
          formatDesc := Some(desc);
        case Some(previous) =>
          if desc == previous {
            changed := false;
          } else {
            formatDesc := Some(desc);
          }
      }
      if changed {
        CacheFormat(desc);
      }
    }

    method CacheFormat(desc: FormatDesc)
      modifies this`cachedFormatBytes
      ensures cachedFormatBytes == AnnexB(desc.params)
    {
      cachedFormatBytes := [];
      for i := 0 to |desc.params|
        invariant cachedFormatBytes + AnnexB(desc.params[i..]) == AnnexB(desc.params)
      {
        var param := desc.params[i];
        assert desc.params[i..][1..] == desc.params[i + 1..];
        Regroup(cachedFormatBytes, START_CODE, param, AnnexB(desc.params[i + 1..]));
        cachedFormatBytes := cachedFormatBytes + START_CODE;
        cachedFormatBytes := cachedFormatBytes + param;
      }
      assert desc.params[|desc.params|..] == [];
      assert cachedFormatBytes + [] == cachedFormatBytes;
    }
  }
}
