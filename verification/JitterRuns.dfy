/** What holds over every interleaving of inserts, ticks and reads of a jitter buffer. */
module JitterRuns {
  import opened Arithmetic
  import opened JitterModel

  datatype Op = InsertOp(p: MediaData) | TickOp(reply: DecoderReply) | GetOp

  /** What has happened so far. `stream` is every sample ever decoded, `heard` every sample ever
      played, `ticks` says of each counted tick whether it was a loss, `duration` is that of the
      last packet that had samples. */
  datatype History = History(
    stream: seq<real>,
    heard: seq<real>,
    skipped: nat,
    inserted: seq<MediaData>,
    decoded: seq<nat>,
    clears: nat,
    ticks: seq<bool>,
    fecTried: nat,
    fecDone: nat,
    duration: nat)

  const NO_HISTORY := History([], [], 0, [], [], 0, [], 0, 0, 0)

  ghost predicate ValidOp(cfg: Config, op: Op) {
    op.TickOp? ==> ReplyFits(cfg, op.reply)
  }

  ghost predicate ValidOps(cfg: Config, ops: seq<Op>) {
    forall op | op in ops :: ValidOp(cfg, op)
  }

  function Step(cfg: Config, s: State, op: Op): State
    requires ValidConfig(cfg) && StateInv(cfg, s) && ValidOp(cfg, op)
  {
    match op
    case InsertOp(p) => Insert(s, p)
    case TickOp(reply) => Tick(cfg, s, reply)
    case GetOp => GetAudio(cfg, s).0
  }

  /** How much leaves a buffer of `held` samples when `more` come, and how much it holds then. */
  function Overflow(cfg: Config, held: nat, more: nat): nat {
    if held + more > cfg.capacity then more else 0
  }

  function Filled(cfg: Config, held: nat, more: nat): nat {
    if held + more > cfg.capacity then held else held + more
  }

  predicate AfterLoss(h: History) {
    h.ticks != [] && h.ticks[|h.ticks| - 1]
  }

  /** What the decoder recovers of a lost packet: the last packet's duration, out of its buffer. */
  function Recovered(cfg: Config, h: History, reply: DecoderReply): seq<real>
    requires ReplyFits(cfg, reply)
  {
    if AfterLoss(h) && reply.fec.result.Samples? then
      reply.fec.buffer[..Interleaved(reply.lastDuration, cfg.channels)]
    else []
  }

  /** What the decoder makes of the packet itself. */
  function Decoded(cfg: Config, reply: DecoderReply): seq<real>
    requires ReplyFits(cfg, reply)
  {
    match reply.main.result
    case DecodeError => []
    case Samples(perChannel) => reply.main.buffer[..Interleaved(perChannel, cfg.channels)]
  }

  function Record(cfg: Config, s: State, h: History, op: Op): History
    requires ValidConfig(cfg) && StateInv(cfg, s) && ValidOp(cfg, op)
  {
    match op
    case InsertOp(p) =>
      h.(inserted := h.inserted + [p],
         clears := if |s.packets| > CAP_PACKETS_HELD_BACK then h.clears + 1 else h.clears)
    case TickOp(reply) =>
      if h.inserted == [] then h
      else if s.packets == [] then h.(ticks := h.ticks + [true])
      else
        var fec, main := Recovered(cfg, h, reply), Decoded(cfg, reply);
        h.(ticks := h.ticks + [false],
           stream := h.stream + fec + main,
           skipped := h.skipped + Overflow(cfg, |s.audio|, |fec|)
                      + Overflow(cfg, Filled(cfg, |s.audio|, |fec|), |main|),
           decoded := h.decoded + [if |s.packets| <= |h.inserted| then |h.inserted| - |s.packets| else 0],
           fecTried := if AfterLoss(h) then h.fecTried + 1 else h.fecTried,
           fecDone := if AfterLoss(h) && reply.fec.result.Samples? then h.fecDone + 1 else h.fecDone,
           duration := if reply.main.result.Samples? && 0 < reply.main.result.perChannel
                       then reply.main.result.perChannel / (cfg.sampleRate / 1000) else h.duration)
    case GetOp =>
      match GetAudio(cfg, s).1
      case Silence => h
      case Played(speed, samples) =>
        h.(heard := h.heard + samples, skipped := if speed == 2 then h.skipped + |samples| else h.skipped)
  }

  // ------------------------------------------------------------------
  // The invariant, part by part
  // ------------------------------------------------------------------

  /** The buffer is a suffix of everything pushed, and both of its ends fall between frames. */
  ghost predicate Window(cfg: Config, s: State, h: History) {
    && 0 < cfg.channels
    && |s.audio| <= |h.stream|
    && s.audio == h.stream[|h.stream| - |s.audio|..]
    && Whole(|h.stream|, cfg.channels)
    && Whole(|s.audio|, cfg.channels)
  }

  /** Every sample pushed is heard, skipped or still buffered. */
  ghost predicate Conserved(s: State, h: History) {
    && |h.heard| + h.skipped + |s.audio| == |h.stream|
    && (h.skipped == 0 ==> h.heard + s.audio == h.stream)
  }

  ghost predicate Ascending(xs: seq<nat>) {
    forall i, j | 0 <= i < j < |xs| :: xs[i] < xs[j]
  }

  /** The queue is a suffix of the arrivals; decoded packets are earlier ones, in order. */
  ghost predicate PacketsAccounted(s: State, h: History) {
    && (s.status == WaitingForFirstPacket <==> h.inserted == [])
    && |s.packets| <= |h.inserted|
    && s.packets == h.inserted[|h.inserted| - |s.packets|..]
    && |h.inserted| == |h.decoded| + |s.packets| + CAP_PACKETS_HELD_BACK * h.clears
    && Ascending(h.decoded)
    && (forall i | 0 <= i < |h.decoded| :: h.decoded[i] < |h.inserted| - |s.packets|)
  }

  function Count(ticks: seq<bool>, lost: bool): nat {
    if ticks == [] then 0
    else Count(ticks[..|ticks| - 1], lost) + if ticks[|ticks| - 1] == lost then 1 else 0
  }

  /** The number of maximal runs of lost ticks that a packet follows. */
  function LossRunsEnded(ticks: seq<bool>): nat {
    if |ticks| < 2 then 0
    else LossRunsEnded(ticks[..|ticks| - 1]) + if ticks[|ticks| - 2] && !ticks[|ticks| - 1] then 1 else 0
  }

  ghost predicate TicksAccounted(s: State, h: History) {
    && s.currentTick == |h.ticks|
    && s.totalPackets == Count(h.ticks, false)
    && s.totalLost == Count(h.ticks, true)
    && s.previousLost == AfterLoss(h)
    && h.fecTried == LossRunsEnded(h.ticks)
    && s.totalFec == h.fecDone <= h.fecTried
    && s.packetDuration == h.duration
  }

  ghost predicate Inv(cfg: Config, s: State, h: History) {
    && StateInv(cfg, s)
    && Window(cfg, s, h)
    && Conserved(s, h)
    && PacketsAccounted(s, h)
    && TicksAccounted(s, h)
  }

  // ------------------------------------------------------------------
  // Each step keeps each part
  // ------------------------------------------------------------------

  lemma TenMillisecondsWhole(cfg: Config)
    ensures Whole(SampleCount10ms(cfg), cfg.channels)
    ensures Whole(2 * SampleCount10ms(cfg), cfg.channels)
  {
    WholeSum(SampleCount10ms(cfg), SampleCount10ms(cfg), cfg.channels);
  }

  /** Pushing extends the stream and keeps the buffer its suffix. */
  lemma PushKeepsWindow(cfg: Config, s: State, h: History, frame: seq<real>)
    requires ValidConfig(cfg) && Window(cfg, s, h) && Conserved(s, h) && |s.audio| <= cfg.capacity
    requires |frame| <= DECODER_OUTPUT_LEN && Whole(|frame|, cfg.channels)
    ensures var s' := s.(audio := PushAudio(cfg, s.audio, frame));
            var h' := h.(stream := h.stream + frame, skipped := h.skipped + Overflow(cfg, |s.audio|, |frame|));
            Window(cfg, s', h') && Conserved(s', h') && |s'.audio| <= cfg.capacity
  {
    WholeSum(|h.stream|, |frame|, cfg.channels);
    WholeSum(|s.audio|, |frame|, cfg.channels);
    if Overflow(cfg, |s.audio|, |frame|) == 0 {
      assert h.heard + (s.audio + frame) == h.heard + s.audio + frame;
    }
  }

  /** The samples a tick pushes are those the decoder left in its buffer, in whole frames. */
  lemma PushesWhatWasDecoded(cfg: Config, s: State, h: History, reply: DecoderReply)
    requires ValidConfig(cfg) && ReplyFits(cfg, reply) && s.previousLost == AfterLoss(h)
    ensures FecFrame(cfg, s, reply) == Recovered(cfg, h, reply)
    ensures MainFrame(cfg, reply) == Decoded(cfg, reply)
    ensures Whole(|Recovered(cfg, h, reply)|, cfg.channels) && |Recovered(cfg, h, reply)| <= DECODER_OUTPUT_LEN
    ensures Whole(|Decoded(cfg, reply)|, cfg.channels) && |Decoded(cfg, reply)| <= DECODER_OUTPUT_LEN
  {
    assert Interleaved(0, cfg.channels) == 0;
  }

  lemma TickKeepsWindow(cfg: Config, s: State, h: History, reply: DecoderReply)
    requires ValidConfig(cfg) && StateInv(cfg, s) && ReplyFits(cfg, reply)
    requires Window(cfg, s, h) && Conserved(s, h)
    requires s.previousLost == AfterLoss(h) && (s.status == WaitingForFirstPacket <==> h.inserted == [])
    ensures var s', h' := Tick(cfg, s, reply), Record(cfg, s, h, TickOp(reply));
            Window(cfg, s', h') && Conserved(s', h')
  {
    if s.status != WaitingForFirstPacket && s.packets != [] {
      var fec, main := Recovered(cfg, h, reply), Decoded(cfg, reply);
      PushesWhatWasDecoded(cfg, s, h, reply);
      TwoPushesKeepWindow(cfg, s, h, fec, main, Tick(cfg, s, reply), Record(cfg, s, h, TickOp(reply)));
    }
  }

  lemma TwoPushesKeepWindow(cfg: Config, s: State, h: History, fec: seq<real>, main: seq<real>,
                            s': State, h': History)
    requires ValidConfig(cfg) && Window(cfg, s, h) && Conserved(s, h) && |s.audio| <= cfg.capacity
    requires |fec| <= DECODER_OUTPUT_LEN && Whole(|fec|, cfg.channels)
    requires |main| <= DECODER_OUTPUT_LEN && Whole(|main|, cfg.channels)
    requires |PushAudio(cfg, s.audio, fec)| <= cfg.capacity
    requires s'.audio == PushAudio(cfg, PushAudio(cfg, s.audio, fec), main)
    requires h'.stream == h.stream + fec + main && h'.heard == h.heard
    requires h'.skipped == h.skipped + Overflow(cfg, |s.audio|, |fec|)
                           + Overflow(cfg, Filled(cfg, |s.audio|, |fec|), |main|)
    ensures Window(cfg, s', h') && Conserved(s', h')
  {
    PushKeepsWindow(cfg, s, h, fec);
    var s1 := s.(audio := PushAudio(cfg, s.audio, fec));
    var h1 := h.(stream := h.stream + fec, skipped := h.skipped + Overflow(cfg, |s.audio|, |fec|));
    PushKeepsWindow(cfg, s1, h1, main);
    var s2 := s1.(audio := PushAudio(cfg, s1.audio, main));
    var h2 := h1.(stream := h1.stream + main, skipped := h1.skipped + Overflow(cfg, |s1.audio|, |main|));
    SameWindow(cfg, s2, h2, s', h');
  }

  lemma SameWindow(cfg: Config, s: State, h: History, s': State, h': History)
    requires Window(cfg, s, h) && Conserved(s, h)
    requires s'.audio == s.audio && h'.stream == h.stream && h'.heard == h.heard && h'.skipped == h.skipped
    ensures Window(cfg, s', h') && Conserved(s', h')
  {
  }

  lemma ConsumingKeepsWindow(cfg: Config, s: State, h: History, n: nat)
    requires Window(cfg, s, h) && n <= |s.audio| && Whole(n, cfg.channels)
    ensures Window(cfg, s.(audio := s.audio[n..]), h)
  {
    WholeDifference(|s.audio|, n, cfg.channels);
  }

  lemma GetKeepsWindow(cfg: Config, s: State, h: History)
    requires ValidConfig(cfg) && StateInv(cfg, s) && Window(cfg, s, h)
    ensures Window(cfg, GetAudio(cfg, s).0, h)
  {
    GetConsumes(cfg, s);
    var (s', playback) := GetAudio(cfg, s);
    match playback
    case Silence =>
    case Played(speed, x) =>
      TenMillisecondsWhole(cfg);
      ConsumingKeepsWindow(cfg, s, h, speed * SampleCount10ms(cfg));
  }

  lemma GetConserves(cfg: Config, s: State, h: History)
    requires ValidConfig(cfg) && StateInv(cfg, s) && Conserved(s, h)
    ensures Conserved(GetAudio(cfg, s).0, Record(cfg, s, h, GetOp))
  {
    GetConsumes(cfg, s);
    var (s', playback) := GetAudio(cfg, s);
    if playback.Played? && playback.speed == 1 {
      assert s.audio == playback.samples + s'.audio;
      assert h.heard + playback.samples + s'.audio == h.heard + s.audio;
    }
  }

  /** A read takes S samples, 2S samples or none, from the front. */
  lemma GetConsumes(cfg: Config, s: State)
    requires ValidConfig(cfg) && StateInv(cfg, s)
    ensures var n := SampleCount10ms(cfg);
            match GetAudio(cfg, s)
            case (s', Silence) => s'.audio == s.audio
            case (s', Played(speed, x)) =>
              && speed in {1, 2} && speed * n <= |s.audio| && s'.audio == s.audio[speed * n..]
              && |x| == n
              && (speed == 1 ==> x == s.audio[..n])
              && (speed == 2 ==> x == Alternate(s.audio[..2 * n], cfg.channels, false))
    ensures GetAudio(cfg, s).0 == s.(status := GetAudio(cfg, s).0.status, audio := GetAudio(cfg, s).0.audio)
  {
    var s1 := if Waiting(s) then s.(status := Normal) else s;
    EnoughToPop(cfg, s1);
    var n := SampleCount10ms(cfg);
    if NextStatus(cfg, s1) == DecreasingBuffer {
      InterleavedSum(FramesIn10ms(cfg), FramesIn10ms(cfg), cfg.channels);
      AlternateLength(s.audio[..2 * n], FramesIn10ms(cfg), cfg.channels);
    }
  }

  lemma StepKeepsPackets(cfg: Config, s: State, h: History, op: Op)
    requires ValidConfig(cfg) && ValidOp(cfg, op) && StateInv(cfg, s) && PacketsAccounted(s, h)
    ensures PacketsAccounted(Step(cfg, s, op), Record(cfg, s, h, op))
  {
    match op
    case InsertOp(p) => InsertKeepsPackets(cfg, s, h, p);
    case TickOp(reply) =>
      if s.status != WaitingForFirstPacket && s.packets != [] {
        DecodeKeepsPackets(s, h, Tick(cfg, s, reply), Record(cfg, s, h, op));
      }
    case GetOp => GetConsumes(cfg, s);
  }

  lemma InsertKeepsPackets(cfg: Config, s: State, h: History, p: MediaData)
    requires ValidConfig(cfg) && StateInv(cfg, s) && PacketsAccounted(s, h)
    ensures PacketsAccounted(Insert(s, p), Record(cfg, s, h, InsertOp(p)))
  {
  }

  lemma DecodeKeepsPackets(s: State, h: History, s': State, h': History)
    requires PacketsAccounted(s, h) && s.packets != []
    requires s'.packets == s.packets[1..] && h'.inserted == h.inserted && h'.clears == h.clears
    requires h'.decoded == h.decoded + [|h.inserted| - |s.packets|]
    requires s'.status == s.status
    ensures PacketsAccounted(s', h')
  {
  }

  lemma LastTick(ticks: seq<bool>, lost: bool)
    ensures Count(ticks + [lost], true) == Count(ticks, true) + if lost then 1 else 0
    ensures Count(ticks + [lost], false) == Count(ticks, false) + if lost then 0 else 1
    ensures LossRunsEnded(ticks + [lost])
         == LossRunsEnded(ticks) + if ticks != [] && ticks[|ticks| - 1] && !lost then 1 else 0
  {
    var longer := ticks + [lost];
    assert longer[..|longer| - 1] == ticks;
  }

  lemma GetKeepsCounters(cfg: Config, s: State, h: History)
    requires ValidConfig(cfg) && StateInv(cfg, s)
    ensures var s', h' := GetAudio(cfg, s).0, Record(cfg, s, h, GetOp);
            && s' == s.(status := s'.status, audio := s'.audio)
            && h' == h.(heard := h'.heard, skipped := h'.skipped)
  {
    GetConsumes(cfg, s);
  }

  /** The counters after a counted tick, whatever else the tick changed. */
  lemma CountersStep(s: State, h: History, s': State, h': History, lost: bool)
    requires TicksAccounted(s, h)
    requires h'.ticks == h.ticks + [lost] && s'.currentTick == s.currentTick + 1 && s'.previousLost == lost
    requires s'.totalLost == s.totalLost + (if lost then 1 else 0)
    requires s'.totalPackets == s.totalPackets + (if lost then 0 else 1)
    requires h'.fecTried == h.fecTried + (if s.previousLost && !lost then 1 else 0)
    requires s'.totalFec - s.totalFec == h'.fecDone - h.fecDone <= h'.fecTried - h.fecTried
    requires s'.packetDuration == h'.duration
    ensures TicksAccounted(s', h')
  {
    LastTick(h.ticks, lost);
  }

  lemma StepKeepsTicks(cfg: Config, s: State, h: History, op: Op)
    requires ValidConfig(cfg) && ValidOp(cfg, op) && StateInv(cfg, s) && TicksAccounted(s, h)
    requires s.status == WaitingForFirstPacket <==> h.inserted == []
    ensures TicksAccounted(Step(cfg, s, op), Record(cfg, s, h, op))
  {
    match op
    case InsertOp(p) =>
    case TickOp(reply) =>
      if s.status != WaitingForFirstPacket {
        CountersStep(s, h, Tick(cfg, s, reply), Record(cfg, s, h, op), s.packets == []);
      }
    case GetOp => GetKeepsCounters(cfg, s, h);
  }

  lemma StepKeepsInv(cfg: Config, s: State, h: History, op: Op)
    requires ValidConfig(cfg) && ValidOp(cfg, op) && Inv(cfg, s, h)
    ensures Inv(cfg, Step(cfg, s, op), Record(cfg, s, h, op))
  {
    StepKeepsPackets(cfg, s, h, op);
    StepKeepsTicks(cfg, s, h, op);
    match op
    case InsertOp(p) => InsertKeepsInv(cfg, s, p);
    case TickOp(reply) => TickKeepsInv(cfg, s, reply); TickKeepsWindow(cfg, s, h, reply);
    case GetOp => GetAudioKeepsInv(cfg, s); GetKeepsWindow(cfg, s, h); GetConserves(cfg, s, h);
  }

  lemma StepKeepsState(cfg: Config, s: State, op: Op)
    requires ValidConfig(cfg) && ValidOp(cfg, op) && StateInv(cfg, s)
    ensures StateInv(cfg, Step(cfg, s, op))
  {
    match op
    case InsertOp(p) => InsertKeepsInv(cfg, s, p);
    case TickOp(reply) => TickKeepsInv(cfg, s, reply);
    case GetOp => GetAudioKeepsInv(cfg, s);
  }

  /** The state and the history after a run from a fresh buffer. */
  function Run(cfg: Config, ops: seq<Op>): (r: (State, History))
    requires ValidConfig(cfg) && ValidOps(cfg, ops)
    ensures StateInv(cfg, r.0)
  {
    if ops == [] then
      (INITIAL_STATE, NO_HISTORY)
    else
      var (s, h) := Run(cfg, ops[..|ops| - 1]);
      var op := ops[|ops| - 1];
      StepKeepsState(cfg, s, op);
      (Step(cfg, s, op), Record(cfg, s, h, op))
  }

  lemma {:induction false} RunKeepsInv(cfg: Config, ops: seq<Op>)
    requires ValidConfig(cfg) && ValidOps(cfg, ops)
    ensures Inv(cfg, Run(cfg, ops).0, Run(cfg, ops).1)
  {
    if ops == [] {
      assert Interleaved(0, cfg.channels) == 0;
    } else {
      RunKeepsInv(cfg, ops[..|ops| - 1]);
      var (s, h) := Run(cfg, ops[..|ops| - 1]);
      StepKeepsInv(cfg, s, h, ops[|ops| - 1]);
    }
  }

  lemma RunOneMore(cfg: Config, ops: seq<Op>, op: Op)
    requires ValidConfig(cfg) && ValidOps(cfg, ops) && ValidOp(cfg, op)
    ensures ValidOps(cfg, ops + [op])
    ensures var (s, h) := Run(cfg, ops);
            Run(cfg, ops + [op]) == (Step(cfg, s, op), Record(cfg, s, h, op))
  {
    assert (ops + [op])[..|ops|] == ops;
  }
}
