/** The audio input event loop as an object with preallocated buffers (rtc/audio_input.rs). */
module MicInput {
  import opened MicModel

  class AudioInputEventLoop {
    var dev: Device
    var consumer: seq<real>
    var audioRing: seq<real>
    var enabled: bool
    var rtpTime: nat
    var captured: nat
    var encoded: nat
    var engine: seq<Packet>
    const processorBuffer: array<real>
    const resamplerPreBuffer: array<real>
    const resamplerBuffer: array<real>
    const encoderBuffer: array<real>

    function Abs(): MicState
      reads this
    {
      MicState(dev, consumer, audioRing, enabled, rtpTime, captured, encoded, engine)
    }

    ghost predicate Valid()
      reads this
    {
      && ValidDevice(dev)
      && |audioRing| <= MAX_FRAME_SIZE
      && processorBuffer.Length == PROCESSOR_BUFFER_LEN
      && resamplerPreBuffer.Length == MAX_FRAME_SIZE / 2
      && resamplerBuffer.Length == MAX_FRAME_SIZE
      && encoderBuffer.Length == ENCODER_FRAME_SIZE
      && resamplerPreBuffer != resamplerBuffer
    }

    constructor (dev: Device, enabled: bool)
      requires ValidDevice(dev)
      ensures Valid()
      ensures fresh(processorBuffer) && fresh(resamplerPreBuffer) && fresh(resamplerBuffer) && fresh(encoderBuffer)
      ensures Abs() == MicState(dev, [], [], enabled, 0, 0, 0, [])
    {
      this.dev, this.enabled := dev, enabled;
      consumer, audioRing, engine := [], [], [];
      rtpTime, captured, encoded := 0, 0, 0;
      processorBuffer := new real[PROCESSOR_BUFFER_LEN](_ => 0.0);
      resamplerPreBuffer := new real[MAX_FRAME_SIZE / 2](_ => 0.0);
      resamplerBuffer := new real[MAX_FRAME_SIZE](_ => 0.0);
      encoderBuffer := new real[ENCODER_FRAME_SIZE](_ => 0.0);
    }

    /** The capture callback of the device stream. */
    method OnDeviceData(data: seq<real>)
      requires Valid()
      modifies this`consumer
      ensures Valid() && Abs() == Capture(old(Abs()), data)
    {
      var free := DeviceRingSize(dev) - |consumer|;
      if free >= |data| {
        consumer := consumer + data;
      }
    }

    method DoToggle(on: bool)
      requires Valid()
      modifies this`enabled, this`consumer
      ensures Valid() && Abs() == Toggle(old(Abs()), on)
    {
      enabled := on;
      if on {
        consumer := [];
      }
    }

    method DoChangeDevice(dev: Device)
      requires Valid() && ValidDevice(dev)
      modifies this`dev, this`consumer
      ensures Valid() && Abs() == ChangeDevice(old(Abs()), dev)
    {
      this.dev := dev;
      consumer := [];
    }

    /** Called when the device has new audio. */
    method DoProcessAudio(env: Env)
      requires Valid() && EnvFits(env)
      modifies this, processorBuffer, resamplerPreBuffer, resamplerBuffer, encoderBuffer
      ensures Valid() && Abs() == ProcessAudio(old(Abs()), env)
    {
      while Device10ms(dev) <= |consumer|
        invariant Valid()
        invariant DrainDevice(Abs(), env) == DrainDevice(old(Abs()), env)
        decreases |consumer|
      {
        DoProcessFrame(env);
      }
      AudioTick(env);
    }

    method DoProcessFrame(env: Env)
      requires Valid() && EnvFits(env) && Device10ms(dev) <= |consumer|
      modifies this, processorBuffer, resamplerPreBuffer, resamplerBuffer
      ensures Valid() && Abs() == ProcessFrame(old(Abs()), env)
      ensures |consumer| < |old(consumer)|
    {
      var count := GetAudio();
      var resampled := env.resample(captured, resamplerBuffer[..count]);
      FillProcessorBuffer(resampled);
      var frame := env.capture(captured, processorBuffer[..FRAME_10MS]);
      captured := captured + 1;
      PushSlice(frame);
    }

    /** 10 ms from the device ring, made stereo in place; the caller has seen that they are there. */
    method GetAudio() returns (count: nat)
      requires Valid() && Device10ms(dev) <= |consumer|
      modifies this`consumer, resamplerPreBuffer, resamplerBuffer
      ensures consumer == old(consumer)[Device10ms(dev)..]
      ensures count <= resamplerBuffer.Length
      ensures resamplerBuffer[..count] == Stereo(dev, old(consumer)[..Device10ms(dev)])
    {
      var n := Device10ms(dev);
      if dev.channels == 1 {
        count := n * 2;
        PopSlice(resamplerPreBuffer, n);
        var i := 0;
        while i < count
          invariant i % 2 == 0 && 0 <= i <= count
          invariant consumer == old(consumer)[n..]
          invariant resamplerPreBuffer[..n] == old(consumer)[..n]
          invariant forall k | 0 <= k < i :: resamplerBuffer[k] == old(consumer)[k / 2]
        {
          var sample := resamplerPreBuffer[i / 2];
          assert sample == resamplerPreBuffer[..n][i / 2];
          resamplerBuffer[i] := sample;
          resamplerBuffer[i + 1] := sample;
          i := i + 2;
        }
        assert resamplerBuffer[..count] == Duplicate(old(consumer)[..n]);
      } else {
        count := n;
        PopSlice(resamplerBuffer, n);
      }
    }

    /** Moves the first `n` samples of the device ring to the front of `dest`. */
    method PopSlice(dest: array<real>, n: nat)
      requires n <= |consumer| && n <= dest.Length
      modifies this`consumer, dest
      ensures consumer == old(consumer)[n..]
      ensures dest[..n] == old(consumer)[..n]
    {
      forall i | 0 <= i < n {
        dest[i] := consumer[i];
      }
      consumer := consumer[n..];
    }

    /** Resampled audio, topped up with silence to 10 ms. */
    method FillProcessorBuffer(resampled: seq<real>)
      requires |resampled| <= processorBuffer.Length && processorBuffer.Length == PROCESSOR_BUFFER_LEN
      modifies processorBuffer
      ensures processorBuffer[..FRAME_10MS] == Fit(resampled)
    {
      forall i | 0 <= i < |resampled| {
        processorBuffer[i] := resampled[i];
      }
      if |resampled| < FRAME_10MS {
        forall i | |resampled| <= i < FRAME_10MS {
          processorBuffer[i] := 0.0;
        }
      }
    }

    /** The bounded ring takes as much of the slice as fits. */
    method PushSlice(frame: seq<real>)
      requires |audioRing| <= MAX_FRAME_SIZE
      modifies this`audioRing
      ensures audioRing == old(audioRing) + Truncated(old(audioRing), frame)
      ensures |audioRing| <= MAX_FRAME_SIZE
    {
      var free := MAX_FRAME_SIZE - |audioRing|;
      var count := if |frame| <= free then |frame| else free;
      audioRing := audioRing + frame[..count];
    }

    /** Pop 20 ms, encode and send. */
    method AudioTick(env: Env)
      requires Valid()
      modifies this, encoderBuffer
      ensures Valid() && Abs() == EncodeTick(old(Abs()), env)
    {
      if |audioRing| < ENCODER_FRAME_SIZE {
        return;
      }
      forall i | 0 <= i < ENCODER_FRAME_SIZE {
        encoderBuffer[i] := audioRing[i];
      }
      assert encoderBuffer[..] == audioRing[..ENCODER_FRAME_SIZE];
      audioRing := audioRing[ENCODER_FRAME_SIZE..];
      var input := if enabled then encoderBuffer[..] else Zeros(ENCODER_FRAME_SIZE);
      // the duration that the source asserts before encoding
      assert |input| / 2 * 1000 / 48_000 == 20;
      var len := env.encodedLen(encoded, input);
      encoded := encoded + 1;
      if len < 3 {
        return;
      }
      var time := rtpTime;
      rtpTime := time + |input| / 2;
      engine := engine + [Packet(time, input)];
    }
  }
}
