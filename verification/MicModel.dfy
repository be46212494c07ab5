/** The microphone path as a state machine on values (rtc/audio_input.rs): the device ring,
    10 ms stereo frames at 48 kHz, and 20 ms encoder frames. */
module MicModel {
  import opened Arithmetic

  /** 60 ms, 20 ms and 10 ms of stereo at 48 kHz (48 samples a millisecond, two channels). */
  const MAX_FRAME_SIZE: nat := 5760
  const ENCODER_FRAME_SIZE: nat := 1920
  const FRAME_10MS: nat := 960

  /** 100 ms of the same. */
  const PROCESSOR_BUFFER_LEN: nat := 9600

  const DEVICE_BUFFER_SIZE := 480

  datatype Device = Device(sampleRate: nat, channels: nat)

  /** 20 ms at the device's own rate and channels. */
  function DeviceFrameSize(dev: Device): nat {
    Interleaved(dev.sampleRate / 1000 * 20, dev.channels)
  }

  function Device10ms(dev: Device): nat {
    DeviceFrameSize(dev) / 2
  }

  function DeviceRingSize(dev: Device): nat {
    DeviceFrameSize(dev) * 4 + DEVICE_BUFFER_SIZE
  }

  /** 10 ms of the device, doubled when mono, fit the buffer in front of the resampler. */
  predicate ValidDevice(dev: Device) {
    && 0 < dev.channels
    && 0 < Device10ms(dev)
    && (if dev.channels == 1 then 2 * Device10ms(dev) else Device10ms(dev)) <= MAX_FRAME_SIZE
  }

  /** Foreign code; the first argument numbers its calls, so each may behave differently. */
  datatype Env = Env(
    resample: (nat, seq<real>) -> seq<real>,
    capture: (nat, seq<real>) -> seq<real>,
    encodedLen: (nat, seq<real>) -> nat)

  ghost predicate EnvFits(env: Env) {
    && (forall n, x :: |env.resample(n, x)| <= PROCESSOR_BUFFER_LEN)
    && (forall n, x :: |env.capture(n, x)| == |x|)
  }

  datatype Packet = Packet(rtpTime: nat, input: seq<real>)

  datatype MicState = MicState(
    dev: Device,
    device: seq<real>,
    ring: seq<real>,
    enabled: bool,
    rtpTime: nat,
    captured: nat,
    encoded: nat,
    sent: seq<Packet>)

  function Zeros(n: nat): seq<real> {
    seq(n, _ => 0.0)
  }

  function Duplicate(x: seq<real>): (r: seq<real>)
    ensures |r| == 2 * |x|
    ensures forall k | 0 <= k < |x| :: r[2 * k] == x[k] && r[2 * k + 1] == x[k]
  {
    seq(2 * |x|, i requires 0 <= i < 2 * |x| => x[i / 2])
  }

  function Stereo(dev: Device, x: seq<real>): seq<real> {
    if dev.channels == 1 then Duplicate(x) else x
  }

  /** Exactly 10 ms, padded with silence or cut. */
  function Fit(x: seq<real>): (r: seq<real>)
    ensures |r| == FRAME_10MS
  {
    if |x| < FRAME_10MS then x + Zeros(FRAME_10MS - |x|) else x[..FRAME_10MS]
  }

  /** The device callback: all of the data or none of it. */
  function Capture(m: MicState, data: seq<real>): MicState {
    if |m.device| + |data| <= DeviceRingSize(m.dev) then m.(device := m.device + data) else m
  }

  function FrameOf(m: MicState, env: Env): (frame: seq<real>)
    requires EnvFits(env) && Device10ms(m.dev) <= |m.device|
    ensures |frame| == FRAME_10MS
  {
    var raw := m.device[..Device10ms(m.dev)];
    env.capture(m.captured, Fit(env.resample(m.captured, Stereo(m.dev, raw))))
  }

  /** What a bounded ring takes of a pushed slice: as much as fits, silently. */
  function Truncated(ring: seq<real>, frame: seq<real>): seq<real>
    requires |ring| <= MAX_FRAME_SIZE
  {
    if |ring| + |frame| <= MAX_FRAME_SIZE then frame else frame[..MAX_FRAME_SIZE - |ring|]
  }

  /** One turn of the processing loop. */
  function ProcessFrame(m: MicState, env: Env): MicState
    requires EnvFits(env) && Device10ms(m.dev) <= |m.device| && |m.ring| <= MAX_FRAME_SIZE
  {
    m.(device := m.device[Device10ms(m.dev)..],
       ring := m.ring + Truncated(m.ring, FrameOf(m, env)),
       captured := m.captured + 1)
  }

  function EncoderInput(m: MicState): seq<real>
    requires ENCODER_FRAME_SIZE <= |m.ring|
  {
    if m.enabled then m.ring[..ENCODER_FRAME_SIZE] else Zeros(ENCODER_FRAME_SIZE)
  }

  /** Encode 20 ms if they are there; nearly empty packets are not sent and take no time. */
  function EncodeTick(m: MicState, env: Env): MicState {
    if |m.ring| < ENCODER_FRAME_SIZE then m
    else
      var input := EncoderInput(m);
      var m1 := m.(ring := m.ring[ENCODER_FRAME_SIZE..], encoded := m.encoded + 1);
      if env.encodedLen(m.encoded, input) < 3 then m1
      else m1.(rtpTime := m.rtpTime + ENCODER_FRAME_SIZE / 2, sent := m.sent + [Packet(m.rtpTime, input)])
  }

  function Toggle(m: MicState, enabled: bool): MicState {
    m.(enabled := enabled, device := if enabled then [] else m.device)
  }

  function ChangeDevice(m: MicState, dev: Device): MicState {
    m.(dev := dev, device := [])
  }

  /** The processing loop run until less than 10 ms of the device remain. */
  function DrainDevice(m: MicState, env: Env): (r: MicState)
    requires EnvFits(env) && ValidDevice(m.dev) && |m.ring| <= MAX_FRAME_SIZE
    ensures |r.ring| <= MAX_FRAME_SIZE
    decreases |m.device|
  {
    if |m.device| < Device10ms(m.dev) then m else DrainDevice(ProcessFrame(m, env), env)
  }

  function ProcessAudio(m: MicState, env: Env): MicState
    requires EnvFits(env) && ValidDevice(m.dev) && |m.ring| <= MAX_FRAME_SIZE
  {
    EncodeTick(DrainDevice(m, env), env)
  }
}
