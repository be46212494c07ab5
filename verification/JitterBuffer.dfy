/** The jitter buffer as the object the player, the ticker and the network
    share (rtc/jitter.rs). Each method is one atomic step: none of them awaits. */
module Jitter {
  import opened Arithmetic
  import opened JitterModel

  /** How much is popped to fill `n` samples at normal or double speed. */
  function Taken(n: nat, speed: nat): nat {
    if speed == 2 then 2 * n else n
  }

  /** 10 ms at either speed is a whole number of frames. */
  lemma PopCounts(cfg: Config, speed: nat)
    requires 0 < cfg.channels
    ensures var n, frames := Taken(SampleCount10ms(cfg), speed), Taken(FramesIn10ms(cfg), speed);
            n == Interleaved(frames, cfg.channels) && n / cfg.channels == frames
  {
    InterleavedSum(FramesIn10ms(cfg), FramesIn10ms(cfg), cfg.channels);
    FrameCount(Taken(FramesIn10ms(cfg), speed), cfg.channels);
  }

  /** After `pos` of the `all` samples to consume, `out` is what has been kept so far. */
  ghost predicate PopProgress(all: seq<real>, out: seq<real>, pos: nat, channels: nat, speed: nat, keep: bool)
    requires 0 < channels && pos <= |all|
  {
    if speed == 1 then out == all[..pos]
    else out + Alternate(all[pos..], channels, keep) == Alternate(all, channels, false)
  }

  lemma PopProgressStep(all: seq<real>, out: seq<real>, pos: nat, channels: nat, speed: nat, keep: bool)
    requires 0 < channels && pos + channels <= |all|
    requires PopProgress(all, out, pos, channels, speed, keep)
    ensures speed == 1 || keep ==>
              PopProgress(all, out + all[pos..pos + channels], pos + channels, channels, speed, !keep)
    ensures speed != 1 && !keep ==> PopProgress(all, out, pos + channels, channels, speed, true)
  {
    AlternateStep(all, pos, channels, keep);
    var tail := Alternate(all[pos + channels..], channels, !keep);
    assert out + (all[pos..pos + channels] + tail) == out + all[pos..pos + channels] + tail;
    assert out + ([] + tail) == out + tail;
    assert all[..pos] + all[pos..pos + channels] == all[..pos + channels];
  }

  lemma PopProgressStart(all: seq<real>, channels: nat, speed: nat)
    requires 0 < channels
    ensures PopProgress(all, [], 0, channels, speed, false)
  {
    assert all[0..] == all;
    assert [] + Alternate(all, channels, false) == Alternate(all, channels, false);
  }

  lemma PopProgressDone(all: seq<real>, out: seq<real>, channels: nat, speed: nat, keep: bool)
    requires 0 < channels
    requires PopProgress(all, out, |all|, channels, speed, keep)
    ensures out == if speed == 1 then all else Alternate(all, channels, false)
  {
    assert all[..|all|] == all;
    assert all[|all|..] == [];
    assert out + [] == out;
  }

  /** What the first `i` frames of `all` contribute to the output. */
  ghost function Picked(all: seq<real>, i: nat, channels: nat, speed: nat): seq<real>
    requires Interleaved(i, channels) <= |all|
  {
    if i == 0 then []
    else
      Picked(all, i - 1, channels, speed)
      + if speed == 1 || i % 2 == 0 then all[Interleaved(i - 1, channels)..Interleaved(i, channels)] else []
  }

  lemma {:induction false} PickedProgress(all: seq<real>, i: nat, channels: nat, speed: nat)
    requires 0 < channels && Interleaved(i, channels) <= |all|
    ensures PopProgress(all, Picked(all, i, channels, speed), Interleaved(i, channels), channels, speed, i % 2 == 1)
  {
    if i == 0 {
      PopProgressStart(all, channels, speed);
    } else {
      PickedProgress(all, i - 1, channels, speed);
      var out := Picked(all, i - 1, channels, speed);
      PopProgressStep(all, out, Interleaved(i - 1, channels), channels, speed, (i - 1) % 2 == 1);
      assert out + [] == out;
    }
  }

  lemma NextPick(all: seq<real>, buffer: seq<real>, i: nat, channels: nat, speed: nat)
    requires all <= buffer && Interleaved(i + 1, channels) <= |all|
    ensures var rest := buffer[Interleaved(i, channels)..];
            && channels <= |rest|
            && rest[channels..] == buffer[Interleaved(i + 1, channels)..]
            && Picked(all, i + 1, channels, speed)
               == Picked(all, i, channels, speed) + if speed == 1 || i % 2 == 1 then rest[..channels] else []
  {
    var rest := buffer[Interleaved(i, channels)..];
    assert rest[..channels] == all[Interleaved(i, channels)..Interleaved(i + 1, channels)];
  }

  lemma {:induction false} PickedGrows(all: seq<real>, i: nat, n: nat, channels: nat, speed: nat)
    requires i <= n && Interleaved(n, channels) <= |all|
    ensures Interleaved(i, channels) <= |all|
    ensures |Picked(all, i, channels, speed)| <= |Picked(all, n, channels, speed)|
  {
    if i < n {
      PickedGrows(all, i, n - 1, channels, speed);
    }
  }

  /** What one turn of the loop over `n` frames takes and contributes. */
  lemma PopTurn(all: seq<real>, buffer: seq<real>, i: nat, n: nat, channels: nat, speed: nat)
    requires all <= buffer && i < n && Interleaved(n, channels) <= |all|
    ensures Interleaved(i, channels) <= |all| && Interleaved(i + 1, channels) <= |all|
    ensures var rest := buffer[Interleaved(i, channels)..];
            && channels <= |rest|
            && rest[channels..] == buffer[Interleaved(i + 1, channels)..]
            && Picked(all, i + 1, channels, speed)
               == Picked(all, i, channels, speed) + if speed == 1 || i % 2 == 1 then rest[..channels] else []
    ensures |Picked(all, i + 1, channels, speed)| <= |Picked(all, n, channels, speed)|
  {
    InterleavedGrows(i, n, channels);
    PickedGrows(all, i + 1, n, channels, speed);
    NextPick(all, buffer, i, channels, speed);
  }

  /** All frames together: everything, or the odd frames. */
  lemma PickedAll(all: seq<real>, frames: nat, tenMs: nat, channels: nat, speed: nat)
    requires 0 < channels && (speed == 1 || speed == 2)
    requires frames == Taken(tenMs, speed)
    requires |all| == Interleaved(frames, channels)
    ensures Picked(all, frames, channels, speed) == if speed == 1 then all else Alternate(all, channels, false)
    ensures |Picked(all, frames, channels, speed)| == Interleaved(tenMs, channels)
  {
    PickedProgress(all, frames, channels, speed);
    PopProgressDone(all, Picked(all, frames, channels, speed), channels, speed, frames % 2 == 1);
    if speed == 2 {
      AlternateLength(all, tenMs, channels);
    }
  }

  class JitterBuffer {
    const cfg: Config
    var status: Status
    var packets: seq<MediaData>
    var audioBuffer: seq<real>
    const decoderOutputBuffer: array<real>
    var previousLost: bool
    var currentTick: nat
    var totalLost: nat
    var totalPackets: nat
    var totalFec: nat
    var packetDuration: nat

    function Abs(): State
      reads this
    {
      State(status, packets, audioBuffer, previousLost, currentTick, totalLost, totalPackets, totalFec, packetDuration)
    }

    ghost predicate Valid()
      reads this
    {
      && ValidConfig(cfg)
      && decoderOutputBuffer.Length == DECODER_OUTPUT_LEN
      && StateInv(cfg, Abs())
    }

    constructor (cfg: Config)
      requires ValidConfig(cfg)
      ensures Valid() && fresh(decoderOutputBuffer) && this.cfg == cfg
      ensures Abs() == INITIAL_STATE
    {
      this.cfg := cfg;
      status := WaitingForFirstPacket;
      packets, audioBuffer := [], [];
      decoderOutputBuffer := new real[DECODER_OUTPUT_LEN](_ => 0.0);
      previousLost := false;
      currentTick, totalLost, totalPackets, totalFec, packetDuration := 0, 0, 0, 0, 0;
    }

    method InsertPacket(p: MediaData)
      requires Valid()
      modifies this
      ensures Valid() && Abs() == Insert(old(Abs()), p)
    {
      if |packets| > CAP_PACKETS_HELD_BACK {
        // clear all but the newest packet
        for i := 0 to CAP_PACKETS_HELD_BACK
          invariant packets == old(packets)[i..]
          invariant Abs() == old(Abs()).(packets := packets)
        {
          packets := packets[1..];
        }
      }
      packets := packets + [p];
      if status == WaitingForFirstPacket {
        status := WaitingForMorePackets;
      }
    }

    /** The foreign decoder overwrites the shared output buffer. */
    method DecodeFloat(call: DecoderCall)
      requires |call.buffer| == decoderOutputBuffer.Length
      modifies decoderOutputBuffer
      ensures decoderOutputBuffer[..] == call.buffer
    {
      forall i | 0 <= i < decoderOutputBuffer.Length {
        decoderOutputBuffer[i] := call.buffer[i];
      }
    }

    /** Called every 20 ms. */
    method DoTick(reply: DecoderReply)
      requires Valid() && ReplyFits(cfg, reply)
      modifies this, decoderOutputBuffer
      ensures Valid() && Abs() == Tick(cfg, old(Abs()), reply)
    {
      if status == WaitingForFirstPacket {
        return;
      }
      TickKeepsInv(cfg, Abs(), reply);
      if packets != [] {
        DecodeOldest(reply);
      } else {
        previousLost := true;
        totalLost := totalLost + 1;
      }
      currentTick := currentTick + 1;
    }

    /** A tick that finds a packet, all but the count of ticks. */
    method DecodeOldest(reply: DecoderReply)
      requires Valid() && ReplyFits(cfg, reply) && packets != [] && status != WaitingForFirstPacket
      modifies this, decoderOutputBuffer
      ensures Abs() == Tick(cfg, old(Abs()), reply).(currentTick := old(currentTick))
    {
      packets := packets[1..];
      RecoverLost(reply);
      DecodePacket(reply);
      totalPackets := totalPackets + 1;
    }

    /** After a lost tick, the next packet first yields its forward error correction. */
    method RecoverLost(reply: DecoderReply)
      requires ValidConfig(cfg) && decoderOutputBuffer.Length == DECODER_OUTPUT_LEN
      requires |audioBuffer| <= cfg.capacity && ReplyFits(cfg, reply)
      modifies this`audioBuffer, this`totalFec, this`previousLost, decoderOutputBuffer
      ensures !previousLost
      ensures |audioBuffer| <= cfg.capacity
      ensures audioBuffer == PushAudio(cfg, old(audioBuffer), FecFrame(cfg, old(Abs()), reply))
      ensures totalFec == if old(previousLost) && reply.fec.result.Samples? then old(totalFec) + 1 else old(totalFec)
    {
      if previousLost {
        DecodeFloat(reply.fec);
        var pushed := PushDecoderResult(reply.fec, reply.lastDuration);
        if pushed {
          totalFec := totalFec + 1;
        }
        previousLost := false;
      } else {
        assert PushAudio(cfg, audioBuffer, []) == audioBuffer;
      }
    }

    method DecodePacket(reply: DecoderReply)
      requires ValidConfig(cfg) && decoderOutputBuffer.Length == DECODER_OUTPUT_LEN
      requires |audioBuffer| <= cfg.capacity && ReplyFits(cfg, reply)
      modifies this`audioBuffer, this`packetDuration, decoderOutputBuffer
      ensures |audioBuffer| <= cfg.capacity
      ensures audioBuffer == PushAudio(cfg, old(audioBuffer), MainFrame(cfg, reply))
      ensures packetDuration == if MainCount(reply) > 0 then MainCount(reply) / (cfg.sampleRate / 1000)
                                else old(packetDuration)
    {
      DecodeFloat(reply.main);
      var sampleCount := MainCount(reply);
      var _ := PushDecoderResult(reply.main, sampleCount);
      if sampleCount > 0 {
        packetDuration := sampleCount / (cfg.sampleRate / 1000);
      }
    }

    /** A failed decode pushes nothing, not even silence. */
    method PushDecoderResult(call: DecoderCall, perChannel: nat) returns (ok: bool)
      requires ValidConfig(cfg) && |audioBuffer| <= cfg.capacity
      requires CallFits(cfg, call) && Interleaved(perChannel, cfg.channels) <= DECODER_OUTPUT_LEN
      requires decoderOutputBuffer[..] == call.buffer
      modifies this`audioBuffer
      ensures ok == call.result.Samples?
      ensures |audioBuffer| <= cfg.capacity
      ensures audioBuffer == PushAudio(cfg, old(audioBuffer), Pushed(cfg, call, perChannel))
    {
      if call.result.DecodeError? {
        assert PushAudio(cfg, audioBuffer, []) == audioBuffer;
        return false;
      }
      var total := perChannel * cfg.channels;
      InterleavedIsProduct(perChannel, cfg.channels);
      assert decoderOutputBuffer[..total] == call.buffer[..total];
      PushAudioFrame(decoderOutputBuffer[..total]);
      return true;
    }

    method PushAudioFrame(frame: seq<real>)
      requires ValidConfig(cfg) && |audioBuffer| <= cfg.capacity && |frame| <= DECODER_OUTPUT_LEN
      modifies this`audioBuffer
      ensures audioBuffer == PushAudio(cfg, old(audioBuffer), frame)
      ensures |audioBuffer| <= cfg.capacity
    {
      if |audioBuffer| + |frame| > cfg.capacity {
        // the oldest samples make room
        audioBuffer := audioBuffer[|frame|..];
      }
      ghost var room := audioBuffer;
      for i := 0 to |frame|
        invariant audioBuffer == room + frame[..i]
      {
        audioBuffer := audioBuffer + [frame[i]];
      }
      assert frame[..|frame|] == frame;
    }

    /** 10 ms of audio, or of silence. */
    method FillAudio(output: array<real>) returns (written: nat)
      requires Valid() && output.Length == SampleCount10ms(cfg) && output != decoderOutputBuffer
      modifies this`status, this`audioBuffer, output
      ensures Valid() && written == SampleCount10ms(cfg)
      ensures Abs() == GetAudio(cfg, old(Abs())).0
      ensures match GetAudio(cfg, old(Abs())).1
              case Silence => forall i | 0 <= i < output.Length :: output[i] == 0.0
              case Played(_, samples) => output[..] == samples
    {
      GetAudioKeepsInv(cfg, Abs());
      if status == WaitingForFirstPacket || status == WaitingForMorePackets {
        if |audioBuffer| > MIN_BUFFER_MS / 10 * SampleCount10ms(cfg) {
          status := Normal;
        } else {
          written := GenerateSilence(output);
          return;
        }
      }
      written := DoPopAudio(output);
    }

    method GenerateSilence(output: array<real>) returns (written: nat)
      requires output.Length == SampleCount10ms(cfg)
      modifies output
      ensures written == output.Length
      ensures forall i | 0 <= i < output.Length :: output[i] == 0.0
    {
      for i := 0 to output.Length
        invariant forall k | 0 <= k < i :: output[k] == 0.0
      {
        output[i] := 0.0;
      }
      return output.Length;
    }

    method DoPopAudio(output: array<real>) returns (written: nat)
      requires Valid() && !Waiting(Abs())
      requires output.Length == SampleCount10ms(cfg)
      modifies this`status, this`audioBuffer, output
      ensures written == SampleCount10ms(cfg)
      ensures Abs() == PopAudio(cfg, old(Abs())).0
      ensures match PopAudio(cfg, old(Abs())).1
              case Silence => forall i | 0 <= i < output.Length :: output[i] == 0.0
              case Played(_, samples) => output[..] == samples
    {
      EnoughToPop(cfg, Abs());
      status := NextStatus(cfg, Abs());
      if status == IncreasingBuffer {
        written := GenerateSilence(output);
        return;
      }
      var speed := if status == DecreasingBuffer then 2 else 1;
      written := PopFrames(output, speed);
    }

    /** The pop loop: at double speed every other frame is discarded. */
    method PopFrames(output: array<real>, speed: nat) returns (written: nat)
      requires ValidConfig(cfg) && (speed == 1 || speed == 2)
      requires output.Length == SampleCount10ms(cfg)
      requires Taken(output.Length, speed) <= |audioBuffer|
      modifies this`audioBuffer, output
      ensures written == output.Length
      ensures audioBuffer == old(audioBuffer)[Taken(output.Length, speed)..]
      ensures output[..] == if speed == 1 then old(audioBuffer)[..output.Length]
                            else Alternate(old(audioBuffer)[..2 * output.Length], cfg.channels, false)
    {
      var sampleCount := Taken(output.Length, speed);
      ghost var all := audioBuffer[..sampleCount];
      PopCounts(cfg, speed);
      var frames := sampleCount / cfg.channels;
      written := PopLoop(output, all, frames, speed);
      assert output[..output.Length] == output[..];
    }

    method PopLoop(output: array<real>, ghost all: seq<real>, frames: nat, speed: nat) returns (written: nat)
      requires 0 < cfg.channels && (speed == 1 || speed == 2)
      requires frames == Taken(FramesIn10ms(cfg), speed)
      requires Interleaved(FramesIn10ms(cfg), cfg.channels) == output.Length
      requires Interleaved(frames, cfg.channels) == |all| && all <= audioBuffer
      modifies this`audioBuffer, output
      ensures written == output.Length
      ensures audioBuffer == old(audioBuffer)[|all|..]
      ensures output[..written] == if speed == 1 then all else Alternate(all, cfg.channels, false)
    {
      written := 0;
      PickedAll(all, frames, FramesIn10ms(cfg), cfg.channels, speed);
      for i := 0 to frames
        invariant Interleaved(i, cfg.channels) <= |all|
        invariant audioBuffer == old(audioBuffer)[Interleaved(i, cfg.channels)..]
        invariant written <= output.Length
        invariant output[..written] == Picked(all, i, cfg.channels, speed)
      {
        PopTurn(all, old(audioBuffer), i, frames, cfg.channels, speed);
        written := PopFrame(output, written, speed == 1 || i % 2 == 1);
      }
    }

    /** One turn of the pop loop. */
    method PopFrame(output: array<real>, written: nat, keep: bool) returns (next: nat)
      requires cfg.channels <= |audioBuffer|
      requires written + (if keep then cfg.channels else 0) <= output.Length
      modifies this`audioBuffer, output
      ensures audioBuffer == old(audioBuffer)[cfg.channels..]
      ensures next == written + if keep then cfg.channels else 0
      ensures output[..next] == old(output[..written]) + if keep then old(audioBuffer)[..cfg.channels] else []
    {
      if keep {
        CopyFrame(output, written);
        next := written + cfg.channels;
      } else {
        DropFrame();
        next := written;
      }
    }

    method DropFrame()
      requires cfg.channels <= |audioBuffer|
      modifies this`audioBuffer
      ensures audioBuffer == old(audioBuffer)[cfg.channels..]
    {
      for j := 0 to cfg.channels
        invariant audioBuffer == old(audioBuffer)[j..]
      {
        audioBuffer := audioBuffer[1..];
      }
    }

    method CopyFrame(output: array<real>, at: nat)
      requires cfg.channels <= |audioBuffer| && at + cfg.channels <= output.Length
      modifies this`audioBuffer, output
      ensures audioBuffer == old(audioBuffer)[cfg.channels..]
      ensures output[..at + cfg.channels] == old(output[..at]) + old(audioBuffer)[..cfg.channels]
    {
      for j := 0 to cfg.channels
        invariant audioBuffer == old(audioBuffer)[j..]
        invariant output[..at + j] == old(output[..at]) + old(audioBuffer)[..j]
      {
        output[at + j] := audioBuffer[0];
        audioBuffer := audioBuffer[1..];
      }
    }
  }
}
