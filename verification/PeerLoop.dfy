/** A peer's run loop as an object (rtc/peer2.rs). */
module PeerLoop {
  import opened EngineModel
  import opened PeerLoopModel
  import opened Signals
  import opened Wrappers

  class PeerRunLoop {
    const id: PeerId
    const user: UserId
    const initialOfferer: bool
    var engineSender: seq<Command>
    var state: ConnectionState
    var iceState: IceState
    var mid: bool
    var screenMid: bool
    var pendingOffer: bool
    var signalingStarted: bool
    var ended: bool
    var answersApplied: nat
    var mediaWritten: nat

    function Abs(): LoopState
      reads this
    {
      LoopState(initialOfferer, signalingStarted, ended, state, iceState, pendingOffer, mid, screenMid,
                answersApplied, mediaWritten)
    }

    /** This loop's state and messages after a step, appended to those before. */
    ghost predicate Stepped(before: seq<Command>, step: (LoopState, seq<Command>))
      reads this
    {
      Abs() == step.0 && engineSender == before + step.1
    }

    constructor (id: PeerId, user: UserId, initialOfferer: bool)
      ensures Abs() == NewLoop(initialOfferer) && engineSender == []
      ensures this.id == id && this.user == user
    {
      this.id, this.user, this.initialOfferer := id, user, initialOfferer;
      engineSender := [];
      state, iceState := Connecting, IceNew;
      mid, screenMid, pendingOffer, signalingStarted, ended := false, false, false, false, false;
      answersApplied, mediaWritten := 0, 0;
    }

    method Turn(ev: LoopEvent)
      modifies this
      ensures Stepped(old(engineSender), LoopStep(old(Abs()), id, user, ev))
    {
      if ended || signalingStarted == ev.Start? {
        return;
      }
      match ev {
        case Start(offer) =>
          Init(offer);
        case RtcConnected =>
          state := Connected;
          SendToEngine(PeerStateChange(user, id, Connected, None));
        case IceChanged(ice) =>
          IceConnectionStateChange(ice);
        case MediaAdded(kind, h264) =>
          OnMediaAdded(kind, h264);
        case RemoteSignal(signal, ok, answer) =>
          HandleSignal(signal, ok, answer);
        case LocalCandidate(candidate) =>
          SendToEngine(SendSignal(user, Candidate(candidate)));
        case WriteMedia(kind, empty, result) =>
          DoWriteMedia(kind, empty, result);
        case NetworkFailed =>
          Failed();
      }
    }

    method Init(offer: string)
      requires !signalingStarted
      modifies this
      ensures Stepped(old(engineSender), OnStart(old(Abs()), user, offer))
    {
      signalingStarted := true;
      if initialOfferer {
        mid, screenMid := true, true;
        pendingOffer := true;
        SendToEngine(SendSignal(user, SdpSignal(Offer(offer))));
      }
    }

    method IceConnectionStateChange(ice: IceState)
      modifies this
      ensures Stepped(old(engineSender), OnIce(old(Abs()), id, user, ice))
    {
      iceState := ice;
      var reported := StateOfIce(ice);
      if reported.Some? {
        if reported.value == Connected && state != Connected {
          // the transport itself has not connected yet
        } else {
          SendToEngine(PeerStateChange(user, id, reported.value, Some(ice)));
        }
      }
    }

    method OnMediaAdded(kind: MediaKind, h264: bool)
      requires signalingStarted && !ended
      modifies this
      ensures Stepped(old(engineSender), LoopStep(old(Abs()), id, user, MediaAdded(kind, h264)))
    {
      match kind {
        case Audio =>
          mid := true;
          SendToEngine(OtherCommand);
        case Video =>
          if h264 {
            screenMid := true;
          }
      }
    }

    method HandleSignal(signal: Signal, ok: bool, answer: string)
      modifies this
      ensures Stepped(old(engineSender), OnSignal(old(Abs()), id, user, signal, ok, answer))
    {
      match signal {
        case Candidate(_) =>
        case SdpSignal(Offer(_)) =>
          if ok {
            SendToEngine(SendSignal(user, SdpSignal(Answer(answer))));
          } else {
            Failed();
          }
        case SdpSignal(Answer(_)) =>
          if pendingOffer {
            pendingOffer := false;
            if ok {
              answersApplied := answersApplied + 1;
              SendToEngine(OtherCommand);
            } else {
              Failed();
            }
          }
      }
    }

    method DoWriteMedia(kind: MediaKind, empty: bool, result: WriteResult)
      modifies this
      ensures Abs() == OnWrite(old(Abs()), kind, empty, result) && engineSender == old(engineSender)
    {
      if empty {
        return;
      }
      if state != Connected {
        return;
      }
      match kind {
        case Audio => if !mid { return; }
        case Video => if !screenMid { return; }
      }
      match result {
        case Written => mediaWritten := mediaWritten + 1;
        case NoWriter =>
        case WriteFailed => ended := true;
      }
    }

    method Failed()
      modifies this
      ensures Stepped(old(engineSender), Fail(old(Abs()), id, user))
    {
      ended := true;
      SendToEngine(PeerStateChange(user, id, Disconnected, None));
    }

    method SendToEngine(cmd: Command)
      modifies this`engineSender
      ensures engineSender == old(engineSender) + [cmd]
    {
      engineSender := engineSender + [cmd];
    }
  }
}
