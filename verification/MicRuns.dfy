/** What holds over every interleaving of the device callback and the event loop. */
module MicRuns {
  import opened Arithmetic
  import opened MicModel

  /** The callback runs on its own thread, so it may fall between any two turns of the loop. */
  datatype MicOp =
    | CaptureOp(data: seq<real>)
    | FrameOp
    | EncodeOp
    | ToggleOp(enabled: bool)
    | ChangeDeviceOp(dev: Device)

  /** A 20 ms frame taken from the ring, and whether the microphone was on then. */
  datatype Taken = Taken(frame: seq<real>, on: bool)

  /** The path told without any buffer: the samples delivered since the device ring was last emptied
      and how many of them are used up, the 10 ms frames the encoder ring accepted, the number it
      lost, and the 20 ms frames taken from it. */
  datatype MicHistory = MicHistory(
    dev: Device,
    on: bool,
    delivered: seq<real>,
    used: nat,
    accepted: seq<seq<real>>,
    dropped: nat,
    taken: seq<Taken>)

  ghost predicate Allowed(dev: Device, op: MicOp) {
    match op
    case CaptureOp(data) => Whole(|data|, dev.channels)
    case ChangeDeviceOp(newDev) => ValidDevice(newDev)
    case _ => true
  }

  function Step(m: MicState, env: Env, op: MicOp): MicState
    requires EnvFits(env) && |m.ring| <= MAX_FRAME_SIZE
  {
    match op
    case CaptureOp(data) => Capture(m, data)
    case FrameOp => if |m.device| < Device10ms(m.dev) then m else ProcessFrame(m, env)
    case EncodeOp => EncodeTick(m, env)
    case ToggleOp(enabled) => Toggle(m, enabled)
    case ChangeDeviceOp(dev) => ChangeDevice(m, dev)
  }

  /** 10 ms of a device, with every sample of a mono device twice in a row. */
  function InStereo(dev: Device, raw: seq<real>): seq<real> {
    if dev.channels == 1 then seq(2 * |raw|, k requires 0 <= k < 2 * |raw| => raw[k / 2]) else raw
  }

  /** The first 960 samples, and silence where there are fewer. */
  function TenMs(x: seq<real>): (r: seq<real>)
    ensures |r| == 960
  {
    seq(960, k requires 0 <= k < 960 => if k < |x| then x[k] else 0.0)
  }

  /** The `n`-th 10 ms frame, out of what the device delivered. */
  function Processed(env: Env, n: nat, dev: Device, raw: seq<real>): (frame: seq<real>)
    requires EnvFits(env)
    ensures |frame| == 960
  {
    env.capture(n, TenMs(env.resample(n, InStereo(dev, raw))))
  }

  /** 10 ms of the device, in interleaved samples. */
  function TenMsOf(dev: Device): nat {
    Interleaved(dev.sampleRate / 1000 * 10, dev.channels)
  }

  function Waiting(h: MicHistory): int {
    |h.accepted| - 2 * |h.taken|
  }

  /** The callback's data goes in whole or not at all, up to 80 ms and 480 samples; six frames of
      10 ms fill the encoder ring and two make a frame to encode. */
  function Record(h: MicHistory, env: Env, op: MicOp): MicHistory
    requires EnvFits(env) && h.used <= |h.delivered| && 0 <= Waiting(h)
  {
    match op
    case CaptureOp(data) =>
      if |h.delivered| - h.used + |data| <= 8 * TenMsOf(h.dev) + 480 then h.(delivered := h.delivered + data) else h
    case FrameOp =>
      if |h.delivered| - h.used < TenMsOf(h.dev) then h
      else
        var raw := h.delivered[h.used..h.used + TenMsOf(h.dev)];
        var n := |h.accepted| + h.dropped;
        if Waiting(h) < 6 then
          h.(used := h.used + TenMsOf(h.dev), accepted := h.accepted + [Processed(env, n, h.dev, raw)])
        else h.(used := h.used + TenMsOf(h.dev), dropped := h.dropped + 1)
    case EncodeOp =>
      if Waiting(h) < 2 then h
      else
        var at := 2 * |h.taken|;
        h.(taken := h.taken + [Taken(h.accepted[at] + h.accepted[at + 1], h.on)])
    case ToggleOp(on) => if on then h.(on := on, delivered := [], used := 0) else h.(on := on)
    case ChangeDeviceOp(dev) => h.(dev := dev, delivered := [], used := 0)
  }

  /** The packets made of the frames taken: the frame itself or, muted, 20 ms of silence; nearly
      empty ones are left out and take no time. */
  function SentOf(env: Env, taken: seq<Taken>): seq<Packet> {
    if taken == [] then []
    else
      var n := |taken| - 1;
      var before := SentOf(env, taken[..n]);
      var input := if taken[n].on then taken[n].frame else seq(1920, _ => 0.0);
      if env.encodedLen(n, input) < 3 then before else before + [Packet(960 * |before|, input)]
  }

  function Flatten(frames: seq<seq<real>>): seq<real> {
    if frames == [] then [] else frames[0] + Flatten(frames[1..])
  }

  /** The length of `k` frames of 10 ms. */
  function SamplesIn(k: nat): nat {
    960 * k
  }

  ghost predicate WholeFrames(frames: seq<seq<real>>) {
    forall f | f in frames :: |f| == FRAME_10MS
  }

  /** The device ring is what was delivered and is not used up. */
  ghost predicate DeviceFollows(m: MicState, h: MicHistory) {
    && m.dev == h.dev && m.enabled == h.on
    && h.used <= |h.delivered|
    && m.device == h.delivered[h.used..]
  }

  /** The ring is the accepted frames not yet taken, and every frame taken was two of them in a row. */
  ghost predicate RingFollows(m: MicState, h: MicHistory) {
    && WholeFrames(h.accepted)
    && 2 * |h.taken| <= |h.accepted|
    && m.ring == Flatten(h.accepted[2 * |h.taken|..])
    && |m.ring| <= MAX_FRAME_SIZE
    && m.captured == |h.accepted| + h.dropped
    && Paired(h.taken, h.accepted)
  }

  /** Each frame taken is two accepted ones in a row. */
  ghost predicate Paired(taken: seq<Taken>, accepted: seq<seq<real>>) {
    && 2 * |taken| <= |accepted|
    && forall i | 0 <= i < |taken| :: taken[i].frame == accepted[2 * i] + accepted[2 * i + 1]
  }

  /** What was sent is what the frames taken make. */
  ghost predicate SentFollows(m: MicState, h: MicHistory, env: Env) {
    m.encoded == |h.taken| && m.sent == SentOf(env, h.taken) && m.rtpTime == 960 * |m.sent|
  }

  ghost predicate Follows(m: MicState, h: MicHistory, env: Env) {
    DeviceFollows(m, h) && RingFollows(m, h) && SentFollows(m, h, env)
  }

  /** The device ring holds whole interleaved frames of its device, within its bound. */
  ghost predicate DeviceInv(m: MicState) {
    && ValidDevice(m.dev)
    && Whole(|m.device|, m.dev.channels)
    && |m.device| <= DeviceRingSize(m.dev)
  }

  // ------------------------------------------------------------------
  // The encoder ring
  // ------------------------------------------------------------------

  lemma PairedTakes(taken: seq<Taken>, accepted: seq<seq<real>>, on: bool)
    requires Paired(taken, accepted) && 2 * |taken| + 2 <= |accepted|
    ensures Paired(taken + [Taken(accepted[2 * |taken|] + accepted[2 * |taken| + 1], on)], accepted)
  {
  }

  lemma {:induction false} FlattenLength(frames: seq<seq<real>>)
    requires WholeFrames(frames)
    ensures |Flatten(frames)| == SamplesIn(|frames|)
  {
    if frames != [] {
      FlattenLength(frames[1..]);
    }
  }

  /** The ring holds 10 ms for every accepted frame not yet taken. */
  lemma RingLength(m: MicState, h: MicHistory)
    requires RingFollows(m, h)
    ensures |m.ring| == SamplesIn(Waiting(h))
  {
    FlattenLength(h.accepted[2 * |h.taken|..]);
  }

  lemma {:induction false} FlattenAppend(frames: seq<seq<real>>, f: seq<real>)
    ensures Flatten(frames + [f]) == Flatten(frames) + f
  {
    if frames == [] {
      assert [f][1..] == [];
    } else {
      FlattenAppend(frames[1..], f);
      assert (frames + [f])[1..] == frames[1..] + [f];
    }
  }

  lemma FlattenFirstTwo(frames: seq<seq<real>>)
    requires WholeFrames(frames) && 2 <= |frames|
    ensures |frames[0] + frames[1]| == ENCODER_FRAME_SIZE
    ensures Flatten(frames) == frames[0] + frames[1] + Flatten(frames[2..])
  {
    FlattenFirst(frames);
    FlattenFirst(frames[1..]);
    assert frames[1..][1..] == frames[2..];
    Associate(frames[0], frames[1], Flatten(frames[2..]));
  }

  lemma FlattenFirst(frames: seq<seq<real>>)
    requires frames != []
    ensures Flatten(frames) == frames[0] + Flatten(frames[1..])
  {
  }

  lemma Associate(a: seq<real>, b: seq<real>, c: seq<real>)
    ensures a + (b + c) == a + b + c
  {
  }

  /** Six frames fill the ring; with fewer, a whole frame fits. */
  lemma RoomForWholeFrames(waiting: nat)
    requires SamplesIn(waiting) <= MAX_FRAME_SIZE
    ensures waiting <= 6
    ensures waiting < 6 <==> SamplesIn(waiting) + FRAME_10MS <= MAX_FRAME_SIZE
    ensures waiting == 6 ==> SamplesIn(waiting) == MAX_FRAME_SIZE
    ensures waiting < 2 <==> SamplesIn(waiting) < ENCODER_FRAME_SIZE
  {
  }

  lemma AcceptKeepsRing(m: MicState, h: MicHistory, frame: seq<real>)
    requires RingFollows(m, h) && |frame| == FRAME_10MS && |m.ring| + FRAME_10MS <= MAX_FRAME_SIZE
    ensures RingFollows(m.(ring := m.ring + frame, captured := m.captured + 1),
                        h.(accepted := h.accepted + [frame]))
  {
    var waiting := h.accepted[2 * |h.taken|..];
    FlattenAppend(waiting, frame);
    assert (h.accepted + [frame])[2 * |h.taken|..] == waiting + [frame];
  }

  /** The oldest 20 ms of the ring are the two oldest frames in it. */
  lemma RingFront(m: MicState, h: MicHistory, at: nat)
    requires RingFollows(m, h) && at == 2 * |h.taken| && at + 2 <= |h.accepted|
    ensures ENCODER_FRAME_SIZE <= |m.ring|
    ensures m.ring[..ENCODER_FRAME_SIZE] == h.accepted[at] + h.accepted[at + 1]
    ensures m.ring[ENCODER_FRAME_SIZE..] == Flatten(h.accepted[at + 2..])
  {
    TakesTheNextTwo(h.accepted, at);
  }

  lemma TakeKeepsRing(m: MicState, h: MicHistory, m': MicState, h': MicHistory, at: nat)
    requires RingFollows(m, h) && at == 2 * |h.taken| && at + 2 <= |h.accepted| && ENCODER_FRAME_SIZE <= |m.ring|
    requires m' == m.(ring := m.ring[ENCODER_FRAME_SIZE..])
    requires h' == h.(taken := h.taken + [Taken(h.accepted[at] + h.accepted[at + 1], h.on)])
    ensures RingFollows(m', h')
  {
    RingFront(m, h, at);
    PairedTakes(h.taken, h.accepted, h.on);
    RingTaken(m, h, m', h', at + 2);
  }

  lemma RingTaken(m: MicState, h: MicHistory, m': MicState, h': MicHistory, at: nat)
    requires RingFollows(m, h) && at == 2 * |h'.taken| && Paired(h'.taken, h.accepted)
    requires m' == m.(ring := m'.ring) && h' == h.(taken := h'.taken)
    requires at <= |h.accepted| && m'.ring == Flatten(h.accepted[at..]) && |m'.ring| <= |m.ring|
    ensures RingFollows(m', h')
  {
  }

  lemma TakesTheNextTwo(frames: seq<seq<real>>, at: nat)
    requires WholeFrames(frames) && at + 2 <= |frames|
    ensures ENCODER_FRAME_SIZE <= |Flatten(frames[at..])|
    ensures Flatten(frames[at..])[..ENCODER_FRAME_SIZE] == frames[at] + frames[at + 1]
    ensures Flatten(frames[at..])[ENCODER_FRAME_SIZE..] == Flatten(frames[at + 2..])
  {
    var waiting := frames[at..];
    FlattenFirstTwo(waiting);
    SplitAfter(frames[at] + frames[at + 1], Flatten(waiting[2..]));
    assert waiting[2..] == frames[at + 2..];
  }

  lemma SplitAfter(x: seq<real>, y: seq<real>)
    ensures (x + y)[..|x|] == x && (x + y)[|x|..] == y
  {
  }

  // ------------------------------------------------------------------
  // Each step follows its history
  // ------------------------------------------------------------------

  lemma Device10msWhole(dev: Device)
    ensures Device10ms(dev) == TenMsOf(dev)
    ensures Whole(Device10ms(dev), dev.channels)
    ensures DeviceFrameSize(dev) == 2 * Device10ms(dev)
  {
    var frames := dev.sampleRate / 1000 * 10;
    InterleavedSum(frames, frames, dev.channels);
  }

  /** A 10 ms frame is the foreign processing of what the device delivered, in stereo, topped up. */
  lemma FrameIsProcessed(m: MicState, env: Env)
    requires EnvFits(env) && Device10ms(m.dev) <= |m.device|
    ensures FrameOf(m, env) == Processed(env, m.captured, m.dev, m.device[..Device10ms(m.dev)])
  {
    var raw := m.device[..Device10ms(m.dev)];
    assert Stereo(m.dev, raw) == InStereo(m.dev, raw);
    var resampled := env.resample(m.captured, Stereo(m.dev, raw));
    assert Fit(resampled) == TenMs(resampled);
  }

  lemma FrameUsesDevice(m: MicState, h: MicHistory)
    requires DeviceFollows(m, h) && Device10ms(m.dev) <= |m.device|
    ensures h.used + TenMsOf(h.dev) <= |h.delivered|
    ensures m.device[..Device10ms(m.dev)] == h.delivered[h.used..h.used + TenMsOf(h.dev)]
    ensures m.device[Device10ms(m.dev)..] == h.delivered[h.used + TenMsOf(h.dev)..]
  {
    Device10msWhole(m.dev);
  }

  /** What a push does to a ring of whole frames. */
  lemma PushFollows(m: MicState, h: MicHistory, frame: seq<real>)
    requires RingFollows(m, h) && |frame| == FRAME_10MS
    ensures var m' := m.(ring := m.ring + Truncated(m.ring, frame), captured := m.captured + 1);
            RingFollows(m', if Waiting(h) < 6 then h.(accepted := h.accepted + [frame])
                            else h.(dropped := h.dropped + 1))
  {
    RingLength(m, h);
    RoomForWholeFrames(Waiting(h));
    if Waiting(h) < 6 {
      AcceptKeepsRing(m, h, frame);
    } else {
      assert Truncated(m.ring, frame) == [];
      assert m.ring + [] == m.ring;
    }
  }

  lemma FrameFollows(m: MicState, h: MicHistory, env: Env)
    requires EnvFits(env) && Follows(m, h, env) && Device10ms(m.dev) <= |m.device|
    ensures Follows(ProcessFrame(m, env), Record(h, env, FrameOp), env)
  {
    RecordsFrame(m, h, env);
    PushFollows(m, h, FrameOf(m, env));
    RestFollows(m, h, env, ProcessFrame(m, env), Record(h, env, FrameOp));
  }

  lemma RecordsFrame(m: MicState, h: MicHistory, env: Env)
    requires EnvFits(env) && DeviceFollows(m, h) && Device10ms(m.dev) <= |m.device|
    requires m.captured == |h.accepted| + h.dropped && 0 <= Waiting(h)
    ensures Record(h, env, FrameOp)
         == if Waiting(h) < 6 then
              h.(used := h.used + TenMsOf(h.dev), accepted := h.accepted + [FrameOf(m, env)])
            else h.(used := h.used + TenMsOf(h.dev), dropped := h.dropped + 1)
  {
    FrameIsProcessed(m, env);
    FrameUsesDevice(m, h);
  }

  /** The parts a 10 ms frame does not touch, and the device ring it uses. */
  lemma RestFollows(m: MicState, h: MicHistory, env: Env, m': MicState, h': MicHistory)
    requires DeviceFollows(m, h) && SentFollows(m, h, env) && Device10ms(m.dev) <= |m.device|
    requires m' == m.(device := m.device[Device10ms(m.dev)..], ring := m'.ring, captured := m'.captured)
    requires h' == h.(used := h.used + TenMsOf(h.dev), accepted := h'.accepted, dropped := h'.dropped)
    ensures DeviceFollows(m', h') && SentFollows(m', h', env)
  {
    FrameUsesDevice(m, h);
  }

  lemma SentOneMore(env: Env, taken: seq<Taken>, t: Taken)
    ensures var before := SentOf(env, taken);
            var input := if t.on then t.frame else seq(1920, _ => 0.0);
            SentOf(env, taken + [t])
            == if env.encodedLen(|taken|, input) < 3 then before else before + [Packet(960 * |before|, input)]
  {
    assert (taken + [t])[..|taken|] == taken;
  }

  lemma EncodeFollows(m: MicState, h: MicHistory, env: Env)
    requires EnvFits(env) && Follows(m, h, env)
    ensures Follows(EncodeTick(m, env), Record(h, env, EncodeOp), env)
  {
    RingLength(m, h);
    RoomForWholeFrames(Waiting(h));
    if 2 <= Waiting(h) {
      var at := 2 * |h.taken|;
      var h' := Record(h, env, EncodeOp);
      RingFront(m, h, at);
      TakeKeepsRing(m, h, m.(ring := m.ring[ENCODER_FRAME_SIZE..]), h', at);
      EncodeSends(m, h, env, h.accepted[at] + h.accepted[at + 1]);
    }
  }

  /** What an encode adds to what was sent. */
  lemma EncodeSends(m: MicState, h: MicHistory, env: Env, frame: seq<real>)
    requires SentFollows(m, h, env) && m.enabled == h.on
    requires ENCODER_FRAME_SIZE <= |m.ring| && frame == m.ring[..ENCODER_FRAME_SIZE]
    ensures SentFollows(EncodeTick(m, env), h.(taken := h.taken + [Taken(frame, h.on)]), env)
  {
    SentOneMore(env, h.taken, Taken(frame, h.on));
    assert EncoderInput(m) == if h.on then frame else seq(1920, _ => 0.0);
  }

  lemma StepFollows(m: MicState, h: MicHistory, env: Env, op: MicOp)
    requires EnvFits(env) && Follows(m, h, env)
    ensures Follows(Step(m, env, op), Record(h, env, op), env)
  {
    match op
    case FrameOp =>
      Device10msWhole(m.dev);
      if Device10ms(m.dev) <= |m.device| {
        FrameFollows(m, h, env);
      }
    case EncodeOp => EncodeFollows(m, h, env);
    case CaptureOp(data) => CaptureFollows(m, h, data);
    case ToggleOp(_) =>
    case ChangeDeviceOp(_) =>
  }

  lemma CaptureFollows(m: MicState, h: MicHistory, data: seq<real>)
    requires DeviceFollows(m, h)
    ensures |m.device| + |data| <= DeviceRingSize(m.dev)
        <==> |h.delivered| - h.used + |data| <= 8 * TenMsOf(h.dev) + 480
    ensures DeviceFollows(m.(device := m.device + data), h.(delivered := h.delivered + data))
  {
    Device10msWhole(m.dev);
  }

  lemma StepKeepsDevice(m: MicState, env: Env, op: MicOp)
    requires EnvFits(env) && |m.ring| <= MAX_FRAME_SIZE && DeviceInv(m) && Allowed(m.dev, op)
    ensures DeviceInv(Step(m, env, op))
  {
    match op
    case CaptureOp(data) => WholeSum(|m.device|, |data|, m.dev.channels);
    case ToggleOp(_) => assert Interleaved(0, m.dev.channels) == 0;
    case ChangeDeviceOp(dev) => assert Interleaved(0, dev.channels) == 0;
    case FrameOp =>
      Device10msWhole(m.dev);
      if Device10ms(m.dev) <= |m.device| {
        WholeDifference(|m.device|, Device10ms(m.dev), m.dev.channels);
      }
    case EncodeOp =>
  }

  // ------------------------------------------------------------------
  // Over whole runs
  // ------------------------------------------------------------------

  function Start(dev: Device, enabled: bool): (r: (MicState, MicHistory)) {
    (MicState(dev, [], [], enabled, 0, 0, 0, []), MicHistory(dev, enabled, [], 0, [], 0, []))
  }

  /** A fresh event loop on a device, run through `ops`, and the same told by its history. */
  function Run(dev: Device, enabled: bool, env: Env, ops: seq<MicOp>): (r: (MicState, MicHistory))
    requires EnvFits(env)
    ensures Follows(r.0, r.1, env)
  {
    if ops == [] then Start(dev, enabled)
    else
      var (m, h) := Run(dev, enabled, env, ops[..|ops| - 1]);
      var op := ops[|ops| - 1];
      StepFollows(m, h, env, op);
      (Step(m, env, op), Record(h, env, op))
  }

  /** Callbacks deliver whole frames of the device in use; devices have channels. */
  ghost predicate ValidRun(dev: Device, enabled: bool, env: Env, ops: seq<MicOp>)
    requires EnvFits(env)
  {
    && ValidDevice(dev)
    && (ops != [] ==>
          && ValidRun(dev, enabled, env, ops[..|ops| - 1])
          && Allowed(Run(dev, enabled, env, ops[..|ops| - 1]).0.dev, ops[|ops| - 1]))
  }

  lemma {:induction false} RunKeepsDevice(dev: Device, enabled: bool, env: Env, ops: seq<MicOp>)
    requires EnvFits(env) && ValidRun(dev, enabled, env, ops)
    ensures DeviceInv(Run(dev, enabled, env, ops).0)
  {
    if ops == [] {
      assert Interleaved(0, dev.channels) == 0;
    } else {
      var before, op := ops[..|ops| - 1], ops[|ops| - 1];
      RunKeepsDevice(dev, enabled, env, before);
      StepKeepsDevice(Run(dev, enabled, env, before).0, env, op);
    }
  }

  // ------------------------------------------------------------------
  // The promises
  // ------------------------------------------------------------------

  /** The encoder ring never holds a torn frame: what is in it, what was taken from it and what
      was lost are whole 10 ms stereo frames, in order, and each frame taken is two in a row. */
  lemma NoTornFrames(dev: Device, enabled: bool, env: Env, ops: seq<MicOp>)
    requires EnvFits(env)
    ensures var (m, h) := Run(dev, enabled, env, ops);
            && (forall f | f in h.accepted :: |f| == 960)
            && 2 * |h.taken| <= |h.accepted|
            && m.ring == Flatten(h.accepted[2 * |h.taken|..])
            && |m.ring| == 960 * (|h.accepted| - 2 * |h.taken|) <= 5760
            && m.captured == |h.accepted| + h.dropped
            && forall i | 0 <= i < |h.taken| :: h.taken[i].frame == h.accepted[2 * i] + h.accepted[2 * i + 1]
  {
    var (m, h) := Run(dev, enabled, env, ops);
    RingLength(m, h);
  }

  /** What is sent is, in order, the frames taken whose encoding has at least three bytes: each as it
      is if the microphone was on when it was taken, and as 20 ms of silence if it was muted. */
  lemma SendsWhatTheSwitchSays(dev: Device, enabled: bool, env: Env, ops: seq<MicOp>)
    requires EnvFits(env)
    ensures var (m, h) := Run(dev, enabled, env, ops);
            m.encoded == |h.taken| && m.sent == SentOf(env, h.taken)
  {
  }

  /** The last position of the switch among `ops`. */
  function Switch(enabled: bool, ops: seq<MicOp>): bool {
    if ops == [] then enabled
    else if ops[|ops| - 1].ToggleOp? then ops[|ops| - 1].enabled
    else Switch(enabled, ops[..|ops| - 1])
  }

  lemma SwitchStep(m: MicState, env: Env, op: MicOp)
    requires EnvFits(env) && |m.ring| <= MAX_FRAME_SIZE
    ensures Step(m, env, op).enabled == if op.ToggleOp? then op.enabled else m.enabled
  {
  }

  lemma {:induction false} SwitchIsLastToggle(dev: Device, enabled: bool, env: Env, ops: seq<MicOp>)
    requires EnvFits(env)
    ensures Run(dev, enabled, env, ops).0.enabled == Switch(enabled, ops)
    ensures Run(dev, enabled, env, ops).1.on == Switch(enabled, ops)
  {
    if ops != [] {
      var before, op := ops[..|ops| - 1], ops[|ops| - 1];
      SwitchIsLastToggle(dev, enabled, env, before);
      SwitchStep(Run(dev, enabled, env, before).0, env, op);
    }
  }

  /** The device ring is what the callback delivered since the ring was last emptied, in order, less
      what has been used up, and the next 10 ms frame is made of the oldest of it. */
  lemma FramesComeFromDevice(dev: Device, enabled: bool, env: Env, ops: seq<MicOp>)
    requires EnvFits(env)
    ensures var (m, h) := Run(dev, enabled, env, ops);
            && h.used <= |h.delivered| && m.device == h.delivered[h.used..] && m.dev == h.dev
            && (Device10ms(m.dev) <= |m.device| ==>
                  FrameOf(m, env) == Processed(env, m.captured, m.dev, m.device[..Device10ms(m.dev)]))
  {
    var m := Run(dev, enabled, env, ops).0;
    if Device10ms(m.dev) <= |m.device| {
      FrameIsProcessed(m, env);
    }
  }

  ghost predicate Timed(sent: seq<Packet>) {
    forall i | 0 <= i < |sent| :: sent[i].rtpTime == 960 * i && |sent[i].input| == 1920
  }

  lemma {:induction false} TimesOf(env: Env, taken: seq<Taken>)
    requires forall t | t in taken :: |t.frame| == 1920
    ensures Timed(SentOf(env, taken))
  {
    if taken != [] {
      var n := |taken| - 1;
      assert taken[n] in taken;
      TimesOf(env, taken[..n]);
      var before := SentOf(env, taken[..n]);
      var input := if taken[n].on then taken[n].frame else seq(1920, _ => 0.0);
      assert |input| == 1920;
      assert Timed(before + [Packet(960 * |before|, input)]);
    }
  }

  /** Packets sent carry consecutive times, 960 apart, even across packets skipped as nearly empty. */
  lemma PacketTimesHaveNoGaps(dev: Device, enabled: bool, env: Env, ops: seq<MicOp>)
    requires EnvFits(env)
    ensures var m := Run(dev, enabled, env, ops).0;
            m.rtpTime == 960 * |m.sent| && Timed(m.sent)
  {
    var (m, h) := Run(dev, enabled, env, ops);
    SentIsTimed(m, h, env);
  }

  lemma SentIsTimed(m: MicState, h: MicHistory, env: Env)
    requires RingFollows(m, h) && SentFollows(m, h, env)
    ensures Timed(m.sent)
  {
    TakenWhole(h.taken, h.accepted);
    TimesOf(env, h.taken);
  }

  lemma TakenWhole(taken: seq<Taken>, accepted: seq<seq<real>>)
    requires Paired(taken, accepted) && WholeFrames(accepted)
    ensures forall t | t in taken :: |t.frame| == 1920
  {
  }

  /** A full ring loses the newest 10 ms frame entirely; only a ring of six frames is full. */
  lemma OverflowDropsWholeFrames(dev: Device, enabled: bool, env: Env, ops: seq<MicOp>)
    requires EnvFits(env)
    ensures var (m, h) := Run(dev, enabled, env, ops);
            Device10ms(m.dev) <= |m.device| ==>
              var m' := ProcessFrame(m, env);
              if |m.ring| == 5760 then m'.ring == m.ring else m'.ring == m.ring + FrameOf(m, env)
  {
    var (m, h) := Run(dev, enabled, env, ops);
    RingLength(m, h);
    RoomForWholeFrames(Waiting(h));
    if |m.ring| == 5760 && Device10ms(m.dev) <= |m.device| {
      assert Truncated(m.ring, FrameOf(m, env)) == [];
      assert m.ring + [] == m.ring;
    }
  }

  /** The device ring keeps whole interleaved frames and never overflows, across clears and device changes. */
  lemma DeviceRingStaysAligned(dev: Device, enabled: bool, env: Env, ops: seq<MicOp>)
    requires EnvFits(env) && ValidRun(dev, enabled, env, ops)
    ensures var m := Run(dev, enabled, env, ops).0;
            && 0 < m.dev.channels && |m.device| % m.dev.channels == 0
            && |m.device| <= 8 * Device10ms(m.dev) + DEVICE_BUFFER_SIZE
  {
    RunKeepsDevice(dev, enabled, env, ops);
    var m := Run(dev, enabled, env, ops).0;
    Device10msWhole(m.dev);
    WholeHasNoRemainder(|m.device|, m.dev.channels);
  }

  function FrameOps(n: nat): seq<MicOp> {
    if n == 0 then [] else FrameOps(n - 1) + [FrameOp]
  }

  /** The steps from `m` on, first to last. */
  function StepAll(m: MicState, env: Env, ops: seq<MicOp>): (r: MicState)
    requires EnvFits(env) && |m.ring| <= MAX_FRAME_SIZE
    ensures |r.ring| <= MAX_FRAME_SIZE
  {
    if ops == [] then m else Step(StepAll(m, env, ops[..|ops| - 1]), env, ops[|ops| - 1])
  }

  lemma OneMoreFrame(start: MicState, env: Env, n: nat)
    requires EnvFits(env) && |start.ring| <= MAX_FRAME_SIZE
    ensures StepAll(start, env, FrameOps(n + 1)) == Step(StepAll(start, env, FrameOps(n)), env, FrameOp)
  {
    assert FrameOps(n + 1)[..|FrameOps(n)|] == FrameOps(n);
  }

  lemma {:induction false} DrainIsFrames(m: MicState, env: Env, done: nat, start: MicState)
    requires EnvFits(env) && ValidDevice(m.dev) && |m.ring| <= MAX_FRAME_SIZE && |start.ring| <= MAX_FRAME_SIZE
    requires StepAll(start, env, FrameOps(done)) == m
    ensures exists n :: StepAll(start, env, FrameOps(n)) == DrainDevice(m, env)
    decreases |m.device|
  {
    if Device10ms(m.dev) <= |m.device| {
      OneMoreFrame(start, env, done);
      DrainIsFrames(ProcessFrame(m, env), env, done + 1, start);
    }
  }

  lemma {:induction false} DrainLeavesLess(m: MicState, env: Env)
    requires EnvFits(env) && ValidDevice(m.dev) && |m.ring| <= MAX_FRAME_SIZE
    ensures DrainDevice(m, env).dev == m.dev && |DrainDevice(m, env).device| < Device10ms(m.dev)
    decreases |m.device|
  {
    if Device10ms(m.dev) <= |m.device| {
      DrainLeavesLess(ProcessFrame(m, env), env);
    }
  }

  /** Undisturbed, a whole call of the loop is frames followed by one encode, and leaves less than
      10 ms in the device ring. */
  lemma ProcessLeavesLessThanOneFrame(m: MicState, env: Env)
    requires EnvFits(env) && ValidDevice(m.dev) && |m.ring| <= MAX_FRAME_SIZE
    ensures |ProcessAudio(m, env).device| < Device10ms(m.dev)
    ensures exists n :: StepAll(m, env, FrameOps(n) + [EncodeOp]) == ProcessAudio(m, env)
  {
    DrainLeavesLess(m, env);
    DrainIsFrames(m, env, 0, m);
    var n :| StepAll(m, env, FrameOps(n)) == DrainDevice(m, env);
    assert (FrameOps(n) + [EncodeOp])[..|FrameOps(n)|] == FrameOps(n);
    assert StepAll(m, env, FrameOps(n) + [EncodeOp]) == ProcessAudio(m, env);
  }
}
