/** The promises of the jitter buffer, for every run. */
module JitterProperties {
  import opened Arithmetic
  import opened JitterModel
  import opened JitterRuns

  /** How many samples have left the buffer. */
  ghost function Head(s: State, h: History): int {
    |h.stream| - |s.audio|
  }

  /** Position of channel `c` of frame `f` in interleaved samples. */
  function Slot(f: nat, c: nat, channels: nat): nat {
    Interleaved(f, channels) + c
  }

  // ------------------------------------------------------------------
  // Where every sample comes from
  // ------------------------------------------------------------------

  lemma SlotInside(f: nat, c: nat, channels: nat, frames: nat)
    requires f < frames && c < channels
    ensures Slot(f, c, channels) < Interleaved(frames, channels)
    ensures Slot(2 * f + 1, c, channels) < Interleaved(2 * frames, channels)
    ensures 0 < f ==> Slot(f, c, channels) == Slot(f - 1, c, channels) + channels
    ensures 0 < f ==> Slot(2 * f + 1, c, channels) == Slot(2 * (f - 1) + 1, c, channels) + 2 * channels
  {
    InterleavedGrows(f, frames, channels);
    InterleavedGrows(2 * f + 1, 2 * frames, channels);
    if 0 < f {
      assert Interleaved(2 * f + 1, channels) == Interleaved(2 * f, channels) + channels;
      assert Interleaved(2 * f, channels) == Interleaved(2 * (f - 1) + 1, channels) + channels;
    }
  }

  /** Double speed plays exactly the odd frames, each sample in its own channel. */
  lemma {:induction false} OddFramesKept(x: seq<real>, channels: nat, frames: nat, f: nat, c: nat)
    requires 0 < channels && |x| == Interleaved(2 * frames, channels) && f < frames && c < channels
    ensures Slot(f, c, channels) < |Alternate(x, channels, false)| && Slot(2 * f + 1, c, channels) < |x|
    ensures Alternate(x, channels, false)[Slot(f, c, channels)] == x[Slot(2 * f + 1, c, channels)]
    decreases frames
  {
    AlternateLength(x, frames, channels);
    SlotInside(f, c, channels, frames);
    TwoFramesFewer(frames, channels);
    TwoFramesOff(x, channels);
    if f == 0 {
      assert Slot(0, c, channels) == c && Slot(1, c, channels) == channels + c;
    } else {
      OddFramesKept(x[2 * channels..], channels, frames - 1, f - 1, c);
    }
  }

  lemma TwoFramesFewer(frames: nat, channels: nat)
    requires 0 < frames
    ensures Interleaved(2 * frames, channels) == Interleaved(2 * (frames - 1), channels) + 2 * channels
  {
    InterleavedSum(2 * (frames - 1), 2, channels);
    assert Interleaved(2, channels) == Interleaved(1, channels) + channels;
  }

  /** `x` is 10 ms made of the odd frames of the next 20 ms of the stream. */
  ghost predicate OddFramesOf(cfg: Config, x: seq<real>, next: seq<real>) {
    && |x| == SampleCount10ms(cfg)
    && |next| == 2 * SampleCount10ms(cfg)
    && forall f: nat, c: nat | f < FramesIn10ms(cfg) && c < cfg.channels ::
         && Slot(f, c, cfg.channels) < |x|
         && Slot(2 * f + 1, c, cfg.channels) < |next|
         && x[Slot(f, c, cfg.channels)] == next[Slot(2 * f + 1, c, cfg.channels)]
  }

  lemma DoubleSpeedKeepsOddFrames(cfg: Config, next: seq<real>)
    requires ValidConfig(cfg) && |next| == 2 * SampleCount10ms(cfg)
    ensures OddFramesOf(cfg, Alternate(next, cfg.channels, false), next)
  {
    var frames, x := FramesIn10ms(cfg), Alternate(next, cfg.channels, false);
    InterleavedSum(frames, frames, cfg.channels);
    AlternateLength(next, frames, cfg.channels);
    forall f: nat, c: nat | f < frames && c < cfg.channels
      ensures Slot(f, c, cfg.channels) < |x|
      ensures Slot(2 * f + 1, c, cfg.channels) < |next|
      ensures x[Slot(f, c, cfg.channels)] == next[Slot(2 * f + 1, c, cfg.channels)]
    {
      OddFramesKept(next, cfg.channels, frames, f, c);
    }
  }

  /** Every read is silence, the next S samples of the stream, or the odd frames of the next 2S. */
  lemma OutputComesFromStream(cfg: Config, ops: seq<Op>)
    requires ValidConfig(cfg) && ValidOps(cfg, ops)
    ensures var (s, h) := Run(cfg, ops);
            var n, head := SampleCount10ms(cfg), Head(s, h);
            0 <= head &&
            match GetAudio(cfg, s)
            case (s', Silence) =>
              Head(s', h) == head
            case (s', Played(speed, x)) =>
              && speed in {1, 2}
              && head + speed * n <= |h.stream|
              && Head(s', h) == head + speed * n
              && (speed == 1 ==> x == h.stream[head..head + n])
              && (speed == 2 ==> OddFramesOf(cfg, x, h.stream[head..head + 2 * n]))
  {
    RunKeepsWindow(cfg, ops);
    var (s, h) := Run(cfg, ops);
    ReadComesFromWindow(cfg, s, h);
  }

  lemma RunKeepsWindow(cfg: Config, ops: seq<Op>)
    requires ValidConfig(cfg) && ValidOps(cfg, ops)
    ensures Window(cfg, Run(cfg, ops).0, Run(cfg, ops).1)
  {
    RunKeepsInv(cfg, ops);
  }

  lemma ReadComesFromWindow(cfg: Config, s: State, h: History)
    requires ValidConfig(cfg) && StateInv(cfg, s) && Window(cfg, s, h)
    ensures var n, head := SampleCount10ms(cfg), Head(s, h);
            match GetAudio(cfg, s)
            case (s', Silence) =>
              Head(s', h) == head
            case (s', Played(speed, x)) =>
              && speed in {1, 2}
              && head + speed * n <= |h.stream|
              && Head(s', h) == head + speed * n
              && (speed == 1 ==> x == h.stream[head..head + n])
              && (speed == 2 ==> OddFramesOf(cfg, x, h.stream[head..head + 2 * n]))
  {
    GetConsumes(cfg, s);
    var n, head := SampleCount10ms(cfg), Head(s, h);
    var playback := GetAudio(cfg, s).1;
    if playback.Played? {
      var took := playback.speed * n;
      assert s.audio[..took] == h.stream[head..head + took];
      if playback.speed == 2 {
        DoubleSpeedKeepsOddFrames(cfg, s.audio[..2 * n]);
      }
    }
  }

  /** Reads, ticks and inserts only ever move the front of the window forward. */
  lemma HeadOnlyGrows(cfg: Config, ops: seq<Op>, op: Op)
    requires ValidConfig(cfg) && ValidOps(cfg, ops) && ValidOp(cfg, op)
    ensures var (s, h) := Run(cfg, ops);
            var (s', h') := Run(cfg, ops + [op]);
            && h.stream <= h'.stream
            && Head(s, h) <= Head(s', h')
  {
    RunKeepsInv(cfg, ops);
    assert (ops + [op])[..|ops|] == ops;
    var (s, h) := Run(cfg, ops);
    StepMovesHeadForward(cfg, s, h, op);
  }

  lemma StepMovesHeadForward(cfg: Config, s: State, h: History, op: Op)
    requires ValidConfig(cfg) && ValidOp(cfg, op) && Inv(cfg, s, h)
    ensures h.stream <= Record(cfg, s, h, op).stream
    ensures Head(s, h) <= Head(Step(cfg, s, op), Record(cfg, s, h, op))
  {
    match op
    case InsertOp(_) =>
    case TickOp(reply) =>
      if s.status != WaitingForFirstPacket {
        TickMovesHeadForward(cfg, s, h, reply);
      }
    case GetOp =>
      GetConsumes(cfg, s);
  }

  lemma TickMovesHeadForward(cfg: Config, s: State, h: History, reply: DecoderReply)
    requires ValidConfig(cfg) && ReplyFits(cfg, reply) && StateInv(cfg, s) && s.status != WaitingForFirstPacket
    requires s.previousLost == AfterLoss(h) && h.inserted != []
    ensures h.stream <= Record(cfg, s, h, TickOp(reply)).stream
    ensures Head(s, h) <= Head(Tick(cfg, s, reply), Record(cfg, s, h, TickOp(reply)))
  {
    if s.packets != [] {
      var fec, main := Recovered(cfg, h, reply), Decoded(cfg, reply);
      PushesWhatWasDecoded(cfg, s, h, reply);
      PushAddsAtMost(cfg, s.audio, fec);
      PushAddsAtMost(cfg, PushAudio(cfg, s.audio, fec), main);
      assert h.stream + fec + main == h.stream + (fec + main);
    }
  }

  lemma PushAddsAtMost(cfg: Config, audio: seq<real>, frame: seq<real>)
    requires ValidConfig(cfg) && |audio| <= cfg.capacity && |frame| <= DECODER_OUTPUT_LEN
    ensures |PushAudio(cfg, audio, frame)| <= |audio| + |frame|
    ensures |PushAudio(cfg, audio, frame)| <= cfg.capacity
  {
  }

  /** A tick that takes a packet puts into the buffer, after what is there, exactly what the decoder
      left in its own: first, if the last counted tick was a loss, as many frames of the recovery
      as the last packet had, then as many of the packet as it says; a call that fails adds nothing.
      The stream grows by the same, and only on overflow does anything leave. */
  lemma TickAppendsDecoded(cfg: Config, ops: seq<Op>, reply: DecoderReply)
    requires ValidConfig(cfg) && ValidOps(cfg, ops) && ReplyFits(cfg, reply)
    requires Run(cfg, ops).0.packets != []
    ensures ValidOps(cfg, ops + [TickOp(reply)])
    ensures var (s, h) := Run(cfg, ops);
            var (s', h') := Run(cfg, ops + [TickOp(reply)]);
            var lost := h.ticks != [] && h.ticks[|h.ticks| - 1];
            var fec := if lost && reply.fec.result.Samples?
                       then reply.fec.buffer[..Interleaved(reply.lastDuration, cfg.channels)] else [];
            var main := if reply.main.result.Samples?
                        then reply.main.buffer[..Interleaved(reply.main.result.perChannel, cfg.channels)] else [];
            && h'.stream == h.stream + fec + main
            && (|s.audio| + |fec| + |main| <= cfg.capacity ==> s'.audio == s.audio + fec + main)
  {
    RunKeepsInv(cfg, ops);
    var (s, h) := Run(cfg, ops);
    assert ValidOp(cfg, TickOp(reply));
    RunOneMore(cfg, ops, TickOp(reply));
    PushesWhatWasDecoded(cfg, s, h, reply);
    TickPushesBoth(cfg, s, h, reply);
  }

  lemma TickPushesBoth(cfg: Config, s: State, h: History, reply: DecoderReply)
    requires ValidConfig(cfg) && StateInv(cfg, s) && ReplyFits(cfg, reply)
    requires s.status != WaitingForFirstPacket && s.packets != [] && s.previousLost == AfterLoss(h)
    ensures var fec, main := Recovered(cfg, h, reply), Decoded(cfg, reply);
            |s.audio| + |fec| + |main| <= cfg.capacity ==> Tick(cfg, s, reply).audio == s.audio + fec + main
  {
    PushesWhatWasDecoded(cfg, s, h, reply);
  }

  /** The buffer is exactly the stream from the head on, and both ends fall between frames. */
  lemma BufferIsWindow(cfg: Config, ops: seq<Op>)
    requires ValidConfig(cfg) && ValidOps(cfg, ops)
    ensures var (s, h) := Run(cfg, ops);
            && 0 <= Head(s, h)
            && s.audio == h.stream[Head(s, h)..]
            && Head(s, h) % cfg.channels == 0
            && |h.stream| % cfg.channels == 0
  {
    RunKeepsWindow(cfg, ops);
    var (s, h) := Run(cfg, ops);
    WindowEnds(cfg, s, h);
  }

  lemma WindowEnds(cfg: Config, s: State, h: History)
    requires Window(cfg, s, h)
    ensures 0 <= Head(s, h) && s.audio == h.stream[Head(s, h)..]
    ensures Head(s, h) % cfg.channels == 0 && |h.stream| % cfg.channels == 0
  {
    WholeDifference(|h.stream|, |s.audio|, cfg.channels);
    WholeHasNoRemainder(|h.stream| - |s.audio|, cfg.channels);
    WholeHasNoRemainder(|h.stream|, cfg.channels);
  }

  /** Nothing is duplicated or lost unseen; while nothing is skipped the listener hears the stream itself. */
  lemma EverySampleAccounted(cfg: Config, ops: seq<Op>)
    requires ValidConfig(cfg) && ValidOps(cfg, ops)
    ensures var (s, h) := Run(cfg, ops);
            && |h.heard| + h.skipped + |s.audio| == |h.stream|
            && (h.skipped == 0 ==> h.heard == h.stream[..Head(s, h)])
  {
    RunKeepsInv(cfg, ops);
    var (s, h) := Run(cfg, ops);
    if h.skipped == 0 {
      assert h.heard == (h.heard + s.audio)[..|h.heard|];
    }
  }

  // ------------------------------------------------------------------
  // Packets and losses
  // ------------------------------------------------------------------

  lemma PacketsAreAccounted(cfg: Config, ops: seq<Op>)
    requires ValidConfig(cfg) && ValidOps(cfg, ops)
    ensures var (s, h) := Run(cfg, ops);
            && |s.packets| <= 81
            && |h.inserted| == |h.decoded| + |s.packets| + 80 * h.clears
            && Ascending(h.decoded)
            && (forall i | 0 <= i < |h.decoded| :: h.decoded[i] < |h.inserted| - |s.packets|)
            && s.packets == h.inserted[|h.inserted| - |s.packets|..]
  {
    RunKeepsInv(cfg, ops);
  }

  /** A clear happens at 81 packets and spares exactly the newest of them. */
  lemma ClearSparesNewest(cfg: Config, ops: seq<Op>, p: MediaData)
    requires ValidConfig(cfg) && ValidOps(cfg, ops)
    ensures var (s, h) := Run(cfg, ops);
            var h' := Record(cfg, s, h, InsertOp(p));
            && (h'.clears != h.clears <==> |s.packets| == 81)
            && (h'.clears != h.clears ==>
                  && h.inserted != []
                  && Insert(s, p).packets == [h.inserted[|h.inserted| - 1], p])
            && (h'.clears == h.clears ==> Insert(s, p).packets == s.packets + [p])
  {
    RunKeepsInv(cfg, ops);
  }

  lemma {:induction false} CountsBound(ticks: seq<bool>)
    ensures Count(ticks, true) + Count(ticks, false) == |ticks|
    ensures LossRunsEnded(ticks) + (if ticks != [] && ticks[|ticks| - 1] then 1 else 0) <= Count(ticks, true)
  {
    if ticks != [] {
      var shorter, last := ticks[..|ticks| - 1], ticks[|ticks| - 1];
      CountsBound(shorter);
      CountsBoundStep(shorter, last);
      assert shorter + [last] == ticks;
    }
  }

  lemma CountsBoundStep(ticks: seq<bool>, last: bool)
    requires Count(ticks, true) + Count(ticks, false) == |ticks|
    requires LossRunsEnded(ticks) + (if ticks != [] && ticks[|ticks| - 1] then 1 else 0) <= Count(ticks, true)
    ensures Count(ticks + [last], true) + Count(ticks + [last], false) == |ticks| + 1
    ensures LossRunsEnded(ticks + [last]) + (if last then 1 else 0) <= Count(ticks + [last], true)
  {
    LastTick(ticks, last);
  }

  /** Error correction is tried once per maximal run of lost ticks that a packet ends. */
  lemma LossesRecoveredOnce(cfg: Config, ops: seq<Op>)
    requires ValidConfig(cfg) && ValidOps(cfg, ops)
    ensures var (s, h) := Run(cfg, ops);
            && s.currentTick == s.totalPackets + s.totalLost
            && h.fecTried == LossRunsEnded(h.ticks)
            && s.totalFec == h.fecDone <= h.fecTried
            && h.fecTried + (if s.previousLost then 1 else 0) <= s.totalLost
  {
    RunKeepsInv(cfg, ops);
    CountsBound(Run(cfg, ops).1.ticks);
  }

  // ------------------------------------------------------------------
  // Silence and sound
  // ------------------------------------------------------------------

  predicate Playing(s: State) {
    s.status == Normal || s.status == DecreasingBuffer
  }

  /** The number of reads among `ops`. */
  function Reads(ops: seq<Op>): nat {
    if ops == [] then 0 else (if ops[0].GetOp? then 1 else 0) + Reads(ops[1..])
  }

  /** Every read in the run from `s` returns audio (`sound`) or every one silence. */
  ghost predicate AllReads(cfg: Config, s: State, ops: seq<Op>, sound: bool)
    requires ValidConfig(cfg) && StateInv(cfg, s) && ValidOps(cfg, ops)
    decreases |ops|
  {
    ops == [] ||
    (StepKeepsState(cfg, s, ops[0]);
     && (ops[0].GetOp? ==> GetAudio(cfg, s).1.Played? == sound)
     && AllReads(cfg, Step(cfg, s, ops[0]), ops[1..], sound))
  }

  /** With k times 10 ms buffered, the next k reads return audio, whatever happens between them:
      double speed takes twice as much, but only when it leaves 940 ms behind. */
  lemma {:induction false} BufferedReadsPlay(cfg: Config, s: State, ops: seq<Op>, k: nat)
    requires ValidConfig(cfg) && StateInv(cfg, s) && ValidOps(cfg, ops)
    requires Playing(s) && k <= 95
    requires k * SampleCount10ms(cfg) <= |s.audio|
    requires Reads(ops) <= k
    ensures AllReads(cfg, s, ops, true)
    decreases |ops|
  {
    if ops != [] {
      StepKeepsState(cfg, s, ops[0]);
      var s' := Step(cfg, s, ops[0]);
      match ops[0] {
        case InsertOp(p) =>
          BufferedReadsPlay(cfg, s', ops[1..], k);
        case TickOp(reply) =>
          TickKeepsInv(cfg, s, reply);
          BufferedReadsPlay(cfg, s', ops[1..], k);
        case GetOp =>
          OneReadLess(cfg, s, k);
          BufferedReadsPlay(cfg, s', ops[1..], k - 1);
      }
    }
  }

  lemma OneReadLess(cfg: Config, s: State, k: nat)
    requires ValidConfig(cfg) && StateInv(cfg, s) && Playing(s)
    requires 1 <= k <= 95 && k * SampleCount10ms(cfg) <= |s.audio|
    ensures GetAudio(cfg, s).1.Played? && Playing(GetAudio(cfg, s).0)
    ensures (k - 1) * SampleCount10ms(cfg) <= |GetAudio(cfg, s).0.audio|
  {
    SampleCountPositive(cfg);
    BudgetStep(k, SampleCount10ms(cfg));
    EnoughToPop(cfg, s);
    GetConsumes(cfg, s);
  }

  lemma BudgetStep(k: nat, n: nat)
    requires 1 <= k <= 95
    ensures (k - 1) * n == k * n - n
    ensures n <= k * n && (k - 1) * n <= 94 * n
  {
    Distribute(n, 1, k);
    Distribute(n, k, 95);
    assert 0 <= n * (95 - k) && 0 <= n * (k - 1);
  }

  /** Once playback starts or resumes, this read and the nine after it return audio. */
  lemma ResumedPlaybackLasts(cfg: Config, s: State, ops: seq<Op>)
    requires ValidConfig(cfg) && StateInv(cfg, s) && ValidOps(cfg, ops)
    requires !Playing(s) && GetAudio(cfg, s).1.Played?
    requires Reads(ops) <= 9
    ensures StateInv(cfg, GetAudio(cfg, s).0)
    ensures AllReads(cfg, GetAudio(cfg, s).0, ops, true)
  {
    GetAudioKeepsInv(cfg, s);
    ResumeLeavesNine(cfg, s);
    BufferedReadsPlay(cfg, GetAudio(cfg, s).0, ops, 9);
  }

  lemma ResumeLeavesNine(cfg: Config, s: State)
    requires ValidConfig(cfg) && StateInv(cfg, s)
    requires !Playing(s) && GetAudio(cfg, s).1.Played?
    ensures Playing(GetAudio(cfg, s).0)
    ensures 9 * SampleCount10ms(cfg) <= |GetAudio(cfg, s).0.audio|
  {
    SampleCountPositive(cfg);
    GetConsumes(cfg, s);
    var s1 := if Waiting(s) then s.(status := Normal) else s;
    EnoughToPop(cfg, s1);
  }

  /** Exactly when a read returns audio. */
  lemma SoundExactly(cfg: Config, s: State)
    requires ValidConfig(cfg) && StateInv(cfg, s)
    ensures var n := SampleCount10ms(cfg);
            GetAudio(cfg, s).1.Played? <==>
            match s.status
            case WaitingForFirstPacket => false
            case WaitingForMorePackets => 10 * n < |s.audio|
            case Normal => n <= |s.audio|
            case DecreasingBuffer => true
            case IncreasingBuffer => 10 * n <= |s.audio| && (|s.audio| <= 96 * n || |s.packets| <= 20)
  {
    SampleCountPositive(cfg);
    var s1 := if Waiting(s) then s.(status := Normal) else s;
    EnoughToPop(cfg, s1);
  }

  /** Exactly when a read plays at double speed: with n samples in 10 ms, from more than 960 ms and
      more than 20 packets on, unless the buffer waits for its first packet or is refilling. */
  lemma SpeedExactly(cfg: Config, s: State)
    requires ValidConfig(cfg) && StateInv(cfg, s)
    ensures var n, playback := SampleCount10ms(cfg), GetAudio(cfg, s).1;
            && (playback.Played? && playback.speed == 2 <==>
                  && (s.status == WaitingForMorePackets || s.status == Normal || s.status == DecreasingBuffer)
                  && 96 * n < |s.audio| && 20 < |s.packets|)
            && (playback.Played? ==> playback.speed == 1 || playback.speed == 2)
  {
    SampleCountPositive(cfg);
    var s1 := if Waiting(s) then s.(status := Normal) else s;
    EnoughToPop(cfg, s1);
  }

  /** The status after a read tells what it was: playing at single or double speed, still waiting
      for the first 100 ms, or refilling after an underflow. */
  lemma StatusTellsPlayback(cfg: Config, s: State)
    requires ValidConfig(cfg) && StateInv(cfg, s)
    ensures var (s', playback) := GetAudio(cfg, s);
            match playback
            case Played(speed, _) => s'.status == if speed == 2 then DecreasingBuffer else Normal
            case Silence =>
              s'.status == (if s.status == WaitingForFirstPacket || s.status == WaitingForMorePackets
                            then s.status else IncreasingBuffer)
  {
  }

  /** No state along the run holds enough to leave IncreasingBuffer. */
  ghost predicate NeverEnough(cfg: Config, s: State, ops: seq<Op>)
    requires ValidConfig(cfg) && StateInv(cfg, s) && ValidOps(cfg, ops)
    decreases |ops|
  {
    && (|s.audio| < 10 * SampleCount10ms(cfg) || OverBuffer(cfg, s))
    && (ops == [] ||
        (StepKeepsState(cfg, s, ops[0]);
         NeverEnough(cfg, Step(cfg, s, ops[0]), ops[1..])))
  }

  /** After an underflow only silence comes out until 100 ms are buffered again. */
  lemma {:induction false} SilentUntilRefilled(cfg: Config, s: State, ops: seq<Op>)
    requires ValidConfig(cfg) && StateInv(cfg, s) && ValidOps(cfg, ops)
    requires s.status == IncreasingBuffer && NeverEnough(cfg, s, ops)
    ensures AllReads(cfg, s, ops, false)
    decreases |ops|
  {
    if ops != [] {
      StepKeepsState(cfg, s, ops[0]);
      SilentUntilRefilled(cfg, Step(cfg, s, ops[0]), ops[1..]);
    }
  }

  // ------------------------------------------------------------------
  // Refilling too far: the state that keeps playing silence
  // ------------------------------------------------------------------

  lemma {:induction false} TicksRefill(cfg: Config, s: State, replies: seq<DecoderReply>)
    requires ValidConfig(cfg) && StateInv(cfg, s) && s.status == IncreasingBuffer
    requires forall reply | reply in replies :: ReplyFits(cfg, reply)
    ensures var s' := AfterTicks(cfg, s, replies);
            && StateInv(cfg, s') && s'.status == IncreasingBuffer
            && |s'.packets| == (if |replies| <= |s.packets| then |s.packets| - |replies| else 0)
            && |s.audio| <= |s'.audio|
    decreases |replies|
  {
    if replies != [] {
      TickKeepsInv(cfg, s, replies[0]);
      TicksRefill(cfg, Tick(cfg, s, replies[0]), replies[1..]);
    }
  }

  function AfterTicks(cfg: Config, s: State, replies: seq<DecoderReply>): State
    requires ValidConfig(cfg) && StateInv(cfg, s)
    requires forall reply | reply in replies :: ReplyFits(cfg, reply)
    decreases |replies|
  {
    if replies == [] then s
    else
      TickKeepsInv(cfg, s, replies[0]);
      AfterTicks(cfg, Tick(cfg, s, replies[0]), replies[1..])
  }

  /** Refilled past 960 ms with more than 20 packets queued, the buffer stays silent until ticks
      alone have brought the queue down to 20: that many ticks, and no fewer. */
  lemma StuckUntilDrained(cfg: Config, s: State, replies: seq<DecoderReply>)
    requires ValidConfig(cfg) && StateInv(cfg, s) && s.status == IncreasingBuffer
    requires 96 * SampleCount10ms(cfg) < |s.audio| && 20 < |s.packets|
    requires forall reply | reply in replies :: ReplyFits(cfg, reply)
    ensures GetAudio(cfg, s) == (s, Silence)
    ensures StateInv(cfg, AfterTicks(cfg, s, replies))
    ensures GetAudio(cfg, AfterTicks(cfg, s, replies)).1.Played? <==> |s.packets| - 20 <= |replies|
  {
    TicksRefill(cfg, s, replies);
    SoundExactly(cfg, s);
    SoundExactly(cfg, AfterTicks(cfg, s, replies));
  }

  /** What the receiving side is made for: stereo at 48 kHz, where a 20 ms packet fills the
      decoder's output buffer with 1920 samples. */
  ghost predicate Stereo48k(cfg: Config) {
    ValidConfig(cfg) && SampleCount10ms(cfg) == 960 && cfg.channels == 2
  }

  function FullReply(): DecoderReply {
    var call := DecoderCall(Samples(960), seq(DECODER_OUTPUT_LEN, _ => 0.0));
    DecoderReply(0, call, call)
  }

  lemma FullReplyFits(cfg: Config)
    requires Stereo48k(cfg)
    ensures ReplyFits(cfg, FullReply()) && |MainFrame(cfg, FullReply())| == 1920
  {
    InterleavedIsProduct(960, 2);
  }

  ghost predicate Reached(cfg: Config, ops: seq<Op>, status: Status, packets: nat, audio: nat)
    requires ValidConfig(cfg)
  {
    && ValidOps(cfg, ops)
    && var s := Run(cfg, ops).0;
       s.status == status && |s.packets| == packets && audio <= |s.audio|
  }

  /** A full packet adds its samples as long as they fit. */
  lemma FullTick(cfg: Config, s: State, ticks: nat)
    requires Stereo48k(cfg) && StateInv(cfg, s) && ReplyFits(cfg, FullReply())
    requires s.status != WaitingForFirstPacket && s.packets != []
    requires ticks < 49 && 1920 * ticks <= |s.audio|
    ensures var s' := Tick(cfg, s, FullReply());
            && s'.status == s.status && s'.packets == s.packets[1..]
            && 1920 * (ticks + 1) <= |s'.audio|
  {
    FullReplyFits(cfg);
    var audio := PushAudio(cfg, s.audio, FecFrame(cfg, s, FullReply()));
    assert |s.audio| <= |audio|;
    assert |PushAudio(cfg, audio, MainFrame(cfg, FullReply()))|
        == if |audio| + 1920 > cfg.capacity then |audio| else |audio| + 1920;
  }

  /** `k` packets have been decoded, none is queued, and playback has not begun. */
  ghost predicate Primed(cfg: Config, ops: seq<Op>, k: nat)
    requires ValidConfig(cfg)
  {
    && ValidOps(cfg, ops)
    && var s := Run(cfg, ops).0;
       Waiting(s) && s.packets == [] && 1920 * k <= |s.audio|
  }

  lemma PrimesOnce(cfg: Config, ops: seq<Op>, p: MediaData, k: nat)
    requires Stereo48k(cfg) && k < 6 && Primed(cfg, ops, k)
    ensures Primed(cfg, ops + [InsertOp(p)] + [TickOp(FullReply())], k + 1)
  {
    FullReplyFits(cfg);
    RunOneMore(cfg, ops, InsertOp(p));
    RunOneMore(cfg, ops + [InsertOp(p)], TickOp(FullReply()));
    FullTick(cfg, Run(cfg, ops + [InsertOp(p)]).0, k);
  }

  lemma {:induction false} Prime(cfg: Config, ops: seq<Op>, p: MediaData, k: nat)
    requires Stereo48k(cfg) && k <= 6 && Primed(cfg, ops, k)
    ensures exists more :: Primed(cfg, more, 6)
    decreases 6 - k
  {
    if k == 6 {
      assert Primed(cfg, ops, 6);
    } else {
      PrimesOnce(cfg, ops, p, k);
      Prime(cfg, ops + [InsertOp(p)] + [TickOp(FullReply())], p, k + 1);
    }
  }

  /** 120 ms are enough to begin. */
  lemma PlaybackBegins(cfg: Config, ops: seq<Op>)
    requires Stereo48k(cfg) && Primed(cfg, ops, 6)
    ensures Reached(cfg, ops + [GetOp], Normal, 0, 0)
  {
    RunOneMore(cfg, ops, GetOp);
    FirstRead(cfg, Run(cfg, ops).0);
  }

  lemma FirstRead(cfg: Config, s: State)
    requires Stereo48k(cfg) && StateInv(cfg, s)
    requires Waiting(s) && s.packets == [] && 11520 <= |s.audio|
    ensures GetAudio(cfg, s).0.status == Normal && GetAudio(cfg, s).0.packets == []
  {
  }

  lemma QuietRead(cfg: Config, s: State)
    requires ValidConfig(cfg) && StateInv(cfg, s) && s.status == Normal && |s.packets| <= 20
    ensures var n, s' := SampleCount10ms(cfg), GetAudio(cfg, s).0;
            && s'.packets == s.packets
            && (n <= |s.audio| ==> s'.status == Normal && |s'.audio| == |s.audio| - n)
            && (|s.audio| < n ==> s'.status == IncreasingBuffer)
  {
  }

  lemma {:induction false} ReadUntilDry(cfg: Config, ops: seq<Op>)
    requires Stereo48k(cfg) && Reached(cfg, ops, Normal, 0, 0)
    ensures exists more :: Reached(cfg, more, IncreasingBuffer, 0, 0)
    decreases |Run(cfg, ops).0.audio|
  {
    RunOneMore(cfg, ops, GetOp);
    QuietRead(cfg, Run(cfg, ops).0);
    if |Run(cfg, ops).0.audio| < 960 {
      assert Reached(cfg, ops + [GetOp], IncreasingBuffer, 0, 0);
    } else {
      ReadUntilDry(cfg, ops + [GetOp]);
    }
  }

  lemma {:induction false} QueueUp(cfg: Config, ops: seq<Op>, p: MediaData, status: Status, queued: nat)
    requires Stereo48k(cfg) && queued <= 81 && Reached(cfg, ops, status, queued, 0)
    requires status != WaitingForFirstPacket
    ensures exists more :: Reached(cfg, more, status, 81, 0)
    decreases 81 - queued
  {
    if queued == 81 {
      assert Reached(cfg, ops, status, 81, 0);
    } else {
      RunOneMore(cfg, ops, InsertOp(p));
      QueueUp(cfg, ops + [InsertOp(p)], p, status, queued + 1);
    }
  }

  /** 49 full ticks buffer 980 ms and leave 32 of 81 packets. */
  lemma {:induction false} Refill(cfg: Config, ops: seq<Op>, status: Status, ticks: nat)
    requires Stereo48k(cfg) && ticks <= 49 && Reached(cfg, ops, status, 81 - ticks, 1920 * ticks)
    requires status != WaitingForFirstPacket
    ensures exists more :: Reached(cfg, more, status, 32, 94080)
    decreases 49 - ticks
  {
    if ticks == 49 {
      assert Reached(cfg, ops, status, 32, 94080);
    } else {
      FullReplyFits(cfg);
      RunOneMore(cfg, ops, TickOp(FullReply()));
      FullTick(cfg, Run(cfg, ops).0, ticks);
      Refill(cfg, ops + [TickOp(FullReply())], status, ticks + 1);
    }
  }

  ghost predicate PlaysDouble(cfg: Config, ops: seq<Op>)
    requires ValidConfig(cfg)
  {
    && ValidOps(cfg, ops)
    && var playback := GetAudio(cfg, Run(cfg, ops).0).1;
       playback.Played? && playback.speed == 2
  }

  /** Double speed is reached: when more packets come than are played. */
  lemma DoubleSpeedIsReachable(capacity: nat)
    requires 96_000 <= capacity
    ensures ValidConfig(Config(48_000, 2, capacity))
    ensures exists ops :: PlaysDouble(Config(48_000, 2, capacity), ops)
  {
    var cfg := Config(48_000, 2, capacity);
    var p := MediaData([]);
    InterleavedIsProduct(480, 2);
    RunOneMore(cfg, [], InsertOp(p));
    QueueUp(cfg, [] + [InsertOp(p)], p, WaitingForMorePackets, 1);
    var queued :| Reached(cfg, queued, WaitingForMorePackets, 81, 0);
    Refill(cfg, queued, WaitingForMorePackets, 0);
    var full :| Reached(cfg, full, WaitingForMorePackets, 32, 94080);
    SpeedExactly(cfg, Run(cfg, full).0);
    assert PlaysDouble(cfg, full);
  }

  /** A run after which more than 960 ms are buffered, and a read still returns silence and
      changes nothing. */
  ghost predicate Stuck(cfg: Config, ops: seq<Op>)
    requires ValidConfig(cfg)
  {
    && ValidOps(cfg, ops)
    && var s := Run(cfg, ops).0;
       && 96 * SampleCount10ms(cfg) < |s.audio|
       && GetAudio(cfg, s) == (s, Silence)
  }

  lemma DryIsReachable(cfg: Config, p: MediaData)
    requires Stereo48k(cfg)
    ensures exists dry :: Reached(cfg, dry, IncreasingBuffer, 0, 0)
  {
    assert Primed(cfg, [], 0);
    Prime(cfg, [], p, 0);
    var primed :| Primed(cfg, primed, 6);
    PlaybackBegins(cfg, primed);
    ReadUntilDry(cfg, primed + [GetOp]);
  }

  /** So 100 ms buffered do not always end the silence: on every buffer for stereo at 48 kHz,
      whatever its capacity, such a run exists. */
  lemma StuckIsReachable(capacity: nat)
    requires 96_000 <= capacity
    ensures ValidConfig(Config(48_000, 2, capacity))
    ensures exists ops :: Stuck(Config(48_000, 2, capacity), ops)
  {
    var cfg := Config(48_000, 2, capacity);
    var p := MediaData([]);
    InterleavedIsProduct(480, 2);
    DryIsReachable(cfg, p);
    var dry :| Reached(cfg, dry, IncreasingBuffer, 0, 0);
    QueueUp(cfg, dry, p, IncreasingBuffer, 0);
    var queued :| Reached(cfg, queued, IncreasingBuffer, 81, 0);
    Refill(cfg, queued, IncreasingBuffer, 0);
    var full :| Reached(cfg, full, IncreasingBuffer, 32, 94080);
    SoundExactly(cfg, Run(cfg, full).0);
    assert Stuck(cfg, full);
  }
}
