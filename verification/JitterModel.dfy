/** The audio jitter buffer as a state machine on values (rtc/jitter.rs).
    Samples are `real`: the buffer only copies them. */
module JitterModel {
  import opened Arithmetic

  const MIN_BUFFER_MS := 100
  const MAX_BUFFER_MS := 1000
  const ACCELERATE_WHEN_PACKETS_HELD_BACK := 20
  const CAP_PACKETS_HELD_BACK := 80
  const MAX_10MS_SAMPLE_COUNT := 10 * (48_000 / 1000) * 2
  const DECODER_OUTPUT_LEN := MAX_10MS_SAMPLE_COUNT * 2

  datatype Status =
    | WaitingForFirstPacket
    | WaitingForMorePackets
    | Normal
    | IncreasingBuffer
    | DecreasingBuffer

  datatype MediaData = MediaData(payload: seq<bv8>)

  /** `capacity` is what the pre-allocated deque reports; Rust promises only a lower bound. */
  datatype Config = Config(sampleRate: nat, channels: nat, capacity: nat)

  function FramesIn10ms(cfg: Config): nat {
    cfg.sampleRate / 1000 * 10
  }

  /** S: the number of interleaved samples in 10 ms. */
  function SampleCount10ms(cfg: Config): nat {
    Interleaved(FramesIn10ms(cfg), cfg.channels)
  }

  ghost predicate ValidConfig(cfg: Config) {
    && 0 < cfg.channels
    && 1000 <= cfg.sampleRate
    && SampleCount10ms(cfg) <= MAX_10MS_SAMPLE_COUNT
    && MAX_10MS_SAMPLE_COUNT * (MAX_BUFFER_MS / 10) <= cfg.capacity
  }

  lemma SampleCountPositive(cfg: Config)
    requires ValidConfig(cfg)
    ensures cfg.channels <= SampleCount10ms(cfg)
    ensures 100 * SampleCount10ms(cfg) <= cfg.capacity
  {
    InterleavedGrows(0, FramesIn10ms(cfg), cfg.channels);
  }

  // ------------------------------------------------------------------
  // The foreign decoder: each call fails or reports samples per channel,
  // and leaves some contents in the shared output buffer.
  // ------------------------------------------------------------------

  datatype DecodeResult = DecodeError | Samples(perChannel: nat)

  datatype DecoderCall = DecoderCall(result: DecodeResult, buffer: seq<real>)

  datatype DecoderReply = DecoderReply(lastDuration: nat, fec: DecoderCall, main: DecoderCall)

  predicate CallFits(cfg: Config, call: DecoderCall) {
    && |call.buffer| == DECODER_OUTPUT_LEN
    && (call.result.Samples? ==> Interleaved(call.result.perChannel, cfg.channels) <= DECODER_OUTPUT_LEN)
  }

  predicate ReplyFits(cfg: Config, reply: DecoderReply) {
    && CallFits(cfg, reply.fec)
    && CallFits(cfg, reply.main)
    && Interleaved(reply.lastDuration, cfg.channels) <= DECODER_OUTPUT_LEN
  }

  // ------------------------------------------------------------------
  // State and operations
  // ------------------------------------------------------------------

  datatype State = State(
    status: Status,
    packets: seq<MediaData>,
    audio: seq<real>,
    previousLost: bool,
    currentTick: nat,
    totalLost: nat,
    totalPackets: nat,
    totalFec: nat,
    packetDuration: nat)

  const INITIAL_STATE := State(WaitingForFirstPacket, [], [], false, 0, 0, 0, 0, 0)

  predicate Waiting(s: State) {
    s.status == WaitingForFirstPacket || s.status == WaitingForMorePackets
  }

  /** What ties the status to the buffers between calls. */
  ghost predicate StateInv(cfg: Config, s: State) {
    && |s.audio| <= cfg.capacity
    && |s.packets| <= CAP_PACKETS_HELD_BACK + 1
    && (s.status == DecreasingBuffer ==> 94 * SampleCount10ms(cfg) < |s.audio|)
    && (s.status == WaitingForFirstPacket ==> s.audio == [] && s.packets == [])
  }

  function Insert(s: State, p: MediaData): State {
    s.(packets := (if |s.packets| > CAP_PACKETS_HELD_BACK then s.packets[CAP_PACKETS_HELD_BACK..] else s.packets) + [p],
       status := if s.status == WaitingForFirstPacket then WaitingForMorePackets else s.status)
  }

  /** On overflow as many old samples leave at the front as new ones arrive. */
  function PushAudio(cfg: Config, audio: seq<real>, frame: seq<real>): (r: seq<real>)
    requires |audio| + |frame| > cfg.capacity ==> |frame| <= |audio|
  {
    if |audio| + |frame| > cfg.capacity then audio[|frame|..] + frame else audio + frame
  }

  /** What one decoder call appends; `perChannel` is chosen by the caller, not by the result. */
  function Pushed(cfg: Config, call: DecoderCall, perChannel: nat): seq<real>
    requires CallFits(cfg, call)
    requires Interleaved(perChannel, cfg.channels) <= DECODER_OUTPUT_LEN
  {
    if call.result.DecodeError? then [] else call.buffer[..Interleaved(perChannel, cfg.channels)]
  }

  function FecFrame(cfg: Config, s: State, reply: DecoderReply): seq<real>
    requires ReplyFits(cfg, reply)
  {
    if s.previousLost then Pushed(cfg, reply.fec, reply.lastDuration) else []
  }

  function MainCount(reply: DecoderReply): nat {
    if reply.main.result.Samples? then reply.main.result.perChannel else 0
  }

  function MainFrame(cfg: Config, reply: DecoderReply): seq<real>
    requires ReplyFits(cfg, reply)
  {
    Pushed(cfg, reply.main, MainCount(reply))
  }

  function Tick(cfg: Config, s: State, reply: DecoderReply): State
    requires ValidConfig(cfg) && StateInv(cfg, s) && ReplyFits(cfg, reply)
  {
    if s.status == WaitingForFirstPacket then
      s
    else if s.packets == [] then
      s.(previousLost := true, totalLost := s.totalLost + 1, currentTick := s.currentTick + 1)
    else
      s.(packets := s.packets[1..],
         audio := PushAudio(cfg, PushAudio(cfg, s.audio, FecFrame(cfg, s, reply)), MainFrame(cfg, reply)),
         previousLost := false,
         totalFec := if s.previousLost && reply.fec.result.Samples? then s.totalFec + 1 else s.totalFec,
         totalPackets := s.totalPackets + 1,
         packetDuration := if MainCount(reply) > 0 then MainCount(reply) / (cfg.sampleRate / 1000)
                           else s.packetDuration,
         currentTick := s.currentTick + 1)
  }

  datatype Playback = Silence | Played(speed: nat, samples: seq<real>)

  /** Interleaved frames of `x`, alternately dropped and kept. */
  function Alternate(x: seq<real>, channels: nat, keep: bool): (r: seq<real>)
    requires 0 < channels
  {
    if |x| < channels then []
    else (if keep then x[..channels] else []) + Alternate(x[channels..], channels, !keep)
  }

  lemma AlternateStep(x: seq<real>, i: nat, channels: nat, keep: bool)
    requires 0 < channels && i + channels <= |x|
    ensures Alternate(x[i..], channels, keep)
         == (if keep then x[i..i + channels] else []) + Alternate(x[i + channels..], channels, !keep)
  {
    assert x[i..][..channels] == x[i..i + channels];
    assert x[i..][channels..] == x[i + channels..];
  }

  lemma {:induction false} AlternateLength(x: seq<real>, frames: nat, channels: nat)
    requires 0 < channels && |x| == Interleaved(2 * frames, channels)
    ensures |Alternate(x, channels, false)| == Interleaved(frames, channels)
  {
    if frames > 0 {
      assert Interleaved(2 * frames, channels) == Interleaved(2 * frames - 1, channels) + channels;
      assert Interleaved(2 * frames - 1, channels) == Interleaved(2 * (frames - 1), channels) + channels;
      TwoFramesOff(x, channels);
      AlternateLength(x[2 * channels..], frames - 1, channels);
    } else {
      assert x == [];
    }
  }

  /** Dropping one frame and keeping the next. */
  lemma TwoFramesOff(x: seq<real>, channels: nat)
    requires 0 < channels && 2 * channels <= |x|
    ensures Alternate(x, channels, false)
         == x[channels..2 * channels] + Alternate(x[2 * channels..], channels, false)
  {
    DropsOne(x, channels);
    KeepsOne(x[channels..], channels);
    assert x[channels..][channels..] == x[2 * channels..];
    assert x[channels..][..channels] == x[channels..2 * channels];
  }

  lemma DropsOne(x: seq<real>, channels: nat)
    requires 0 < channels <= |x|
    ensures Alternate(x, channels, false) == Alternate(x[channels..], channels, true)
  {
  }

  lemma KeepsOne(x: seq<real>, channels: nat)
    requires 0 < channels <= |x|
    ensures Alternate(x, channels, true) == x[..channels] + Alternate(x[channels..], channels, false)
  {
  }

  predicate OverBuffer(cfg: Config, s: State) {
    |s.audio| > (MAX_BUFFER_MS / 10 - 4) * SampleCount10ms(cfg) && |s.packets| > ACCELERATE_WHEN_PACKETS_HELD_BACK
  }

  predicate UnderBuffer(cfg: Config, s: State) {
    |s.audio| < MIN_BUFFER_MS / 10 * SampleCount10ms(cfg)
  }

  function NextStatus(cfg: Config, s: State): Status {
    var bufferNormal := !OverBuffer(cfg, s) && !UnderBuffer(cfg, s);
    if s.status == IncreasingBuffer && bufferNormal then Normal
    else if s.status == DecreasingBuffer && bufferNormal then Normal
    else if s.status == Normal && OverBuffer(cfg, s) then DecreasingBuffer
    else if s.status == Normal && |s.audio| < SampleCount10ms(cfg) then IncreasingBuffer
    else s.status
  }

  /** No status lets the pop loop run past the end of the deque. */
  lemma EnoughToPop(cfg: Config, s: State)
    requires ValidConfig(cfg) && StateInv(cfg, s) && !Waiting(s)
    ensures NextStatus(cfg, s) == DecreasingBuffer ==> 96 * SampleCount10ms(cfg) < |s.audio|
    ensures NextStatus(cfg, s) == Normal ==> SampleCount10ms(cfg) <= |s.audio|
    ensures NextStatus(cfg, s) in {Normal, IncreasingBuffer, DecreasingBuffer}
  {
    SampleCountPositive(cfg);
  }

  function PopAudio(cfg: Config, s: State): (r: (State, Playback))
    requires ValidConfig(cfg) && StateInv(cfg, s) && !Waiting(s)
  {
    EnoughToPop(cfg, s);
    var next := NextStatus(cfg, s);
    var n := SampleCount10ms(cfg);
    if next == IncreasingBuffer then
      (s.(status := next), Silence)
    else if next == DecreasingBuffer then
      (s.(status := next, audio := s.audio[2 * n..]), Played(2, Alternate(s.audio[..2 * n], cfg.channels, false)))
    else
      (s.(status := next, audio := s.audio[n..]), Played(1, s.audio[..n]))
  }

  function GetAudio(cfg: Config, s: State): (r: (State, Playback))
    requires ValidConfig(cfg) && StateInv(cfg, s)
  {
    if Waiting(s) then
      if |s.audio| > MIN_BUFFER_MS / 10 * SampleCount10ms(cfg) then PopAudio(cfg, s.(status := Normal))
      else (s, Silence)
    else
      PopAudio(cfg, s)
  }

  // ------------------------------------------------------------------
  // Every operation keeps the invariant
  // ------------------------------------------------------------------

  lemma InsertKeepsInv(cfg: Config, s: State, p: MediaData)
    requires ValidConfig(cfg) && StateInv(cfg, s)
    ensures StateInv(cfg, Insert(s, p))
  {
  }

  /** A push never shortens the buffer, never overfills it, and never drains more than there is. */
  lemma PushAudioKeeps(cfg: Config, audio: seq<real>, frame: seq<real>)
    requires ValidConfig(cfg) && |audio| <= cfg.capacity && |frame| <= DECODER_OUTPUT_LEN
    ensures |audio| + |frame| > cfg.capacity ==> |frame| <= |audio|
    ensures |audio| <= |PushAudio(cfg, audio, frame)| <= cfg.capacity
  {
  }

  lemma TickKeepsInv(cfg: Config, s: State, reply: DecoderReply)
    requires ValidConfig(cfg) && StateInv(cfg, s) && ReplyFits(cfg, reply)
    ensures StateInv(cfg, Tick(cfg, s, reply))
    ensures |s.audio| <= |Tick(cfg, s, reply).audio|
  {
  }

  lemma GetAudioKeepsInv(cfg: Config, s: State)
    requires ValidConfig(cfg) && StateInv(cfg, s)
    ensures StateInv(cfg, GetAudio(cfg, s).0)
  {
    var s1 := if Waiting(s) then s.(status := Normal) else s;
    EnoughToPop(cfg, s1);
  }
}
