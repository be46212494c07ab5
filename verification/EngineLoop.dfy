/** The engine event loop as an object (rtc/engine.rs). */
module EngineLoop {
  import opened EngineModel
  import opened Pending
  import opened Signals
  import opened Wrappers

  class EngineEventLoop {
    var callId: Option<CallId>
    var peers: map<UserId, Peer>
    var peerStates: map<UserId, PeerState>
    const pendingSignals: PendingSignals
    var remoteControl: bool
    var nextPeerId: PeerId
    var stopped: bool
    // tasks on the runtime, and what the engine has done to the outside
    var timers: multiset<Timer>
    var deferred: multiset<Deferred>
    var handed: seq<Handed>
    var made: seq<Made>
    var restarts: seq<PeerId>
    var emitted: seq<EngineEvent>

    function Abs(): EngineState
      reads this, pendingSignals
    {
      EngineState(callId, peers, peerStates, pendingSignals.signals, remoteControl, nextPeerId, stopped,
                  timers, deferred, handed, made, restarts, emitted)
    }

    ghost predicate Valid()
      reads this, pendingSignals
    {
      EngineInv(Abs())
    }

    constructor ()
      ensures fresh(pendingSignals) && Valid() && Abs() == INITIAL_ENGINE
    {
      callId, peers, peerStates, remoteControl := None, map[], map[], false;
      pendingSignals := new PendingSignals();
      nextPeerId, stopped := 0, false;
      timers, deferred, handed, made, restarts, emitted := multiset{}, multiset{}, [], [], [], [];
    }

    /** One turn of the command loop. */
    method RunCommand(cmd: Command)
      requires Valid() && !stopped
      modifies this, pendingSignals
      ensures Valid() && Abs() == Handle(old(Abs()), cmd)
    {
      ghost var before := Abs();
      Dispatch(cmd);
      HandleKeepsEngine(before, cmd);
    }

    method Dispatch(cmd: Command)
      requires Valid() && !stopped
      modifies this, pendingSignals
      ensures Abs() == Handle(old(Abs()), cmd)
    {
      match cmd {
        case Join(call) => JoinCall(call);
        case Leave => LeaveCall();
        case AddPeer(user, call, initialOfferer) => AddPeerTo(user, initialOfferer, call);
        case RemovePeer(user, call) => RemovePeerFrom(user, call);
        case SetIncomingSignal(user, call, signal) => IncomingSignal(user, call, signal);
        case SendSignal(user, signal) => OutgoingSignal(user, signal);
        case PeerStateChange(user, peer, state, iceState) => ConnectionChanged(user, peer, state, iceState);
        case MaybeReconnect(t) => TimerFired(t);
        case OtherCommand =>
      }
    }

    /** Outside a call the loop returns for good. */
    method OutgoingSignal(user: UserId, signal: Signal)
      modifies this`stopped, this`emitted
      ensures Abs() == DoSendSignal(old(Abs()), user, signal)
    {
      match callId {
        case None => stopped := true;
        case Some(call) => EmitEvent(SignalToSend(user, call, signal));
      }
    }

    method TimerFired(t: Timer)
      requires Valid()
      modifies this, pendingSignals
      ensures Abs() == DoMaybeReconnect(old(Abs()), t)
    {
      // still in the call that started the timer, with the peer that started it
      if callId != Some(t.call) || t.user !in peers || peers[t.user].id != t.peer || t.user !in peerStates {
        return;
      }
      var p := peerStates[t.user];
      if p.connection == Connected {
        return;
      }
      var initialOfferer := p.initialOfferer;
      match t.case_ {
        case DidNotGetFirstSignal =>
          if p.gotFirstOffer || p.gotFirstAnswer {
            return;
          }
          if p.establishedOnce {
            return;
          }
          RecreatePeer(t.user, t.call, initialOfferer);
        case InitialFailure =>
          if p.establishedOnce {
            return;
          }
          RecreatePeer(t.user, t.call, initialOfferer);
        case TryIceRestart =>
          if p.ice != IceDisconnected {
            return;
          }
          restarts := restarts + [peers[t.user].id];
        case Disconnect =>
          RecreatePeer(t.user, t.call, initialOfferer);
      }
    }

    method RecreatePeer(user: UserId, call: CallId, initialOfferer: bool)
      requires Valid() && callId == Some(call)
      requires user in peerStates && peerStates[user].initialOfferer == initialOfferer
      modifies this, pendingSignals
      ensures Abs() == Recreate(old(Abs()), user, call)
    {
      RemovePeerFrom(user, call);
      AddPeerTo(user, initialOfferer, call);
    }

    method ConnectionChanged(user: UserId, peer: PeerId, state: ConnectionState, iceState: Option<IceState>)
      requires Valid()
      modifies this
      ensures Abs() == DoPeerStateChange(old(Abs()), user, peer, state, iceState)
    {
      if callId.None? || user !in peers || peers[user].id != peer {
        return;
      }
      EmitEvent(ConnectionStateChange(user, callId.value, state));
      if user !in peerStates {
        return;
      }
      var p := peerStates[user].(connection := state);
      if iceState.Some? {
        p := SetIce(p, iceState.value);
      }
      peerStates := peerStates[user := p];
      if iceState == Some(IceDisconnected) {
        StartReconnectTimer(user, TryIceRestart);
        StartReconnectTimer(user, Disconnect);
      }
    }

    method StartReconnectTimer(user: UserId, c: ReconnectCase)
      modifies this`timers
      ensures Abs() == StartTimer(old(Abs()), user, c)
    {
      if callId.None? || user !in peers {
        return;
      }
      timers := timers + multiset{Timer(user, callId.value, peers[user].id, c)};
    }

    method JoinCall(call: CallId)
      modifies this, pendingSignals
      ensures Abs() == DoJoin(old(Abs()), call)
    {
      LeaveCall();
      callId := Some(call);
      remoteControl := true;
    }

    method LeaveCall()
      modifies this, pendingSignals
      ensures Abs() == DoLeave(old(Abs()))
    {
      peers, peerStates := map[], map[];
      pendingSignals.Reset();
      callId := None;
      remoteControl := false;
    }

    method AddPeerTo(user: UserId, initialOfferer: bool, call: CallId)
      requires Valid()
      modifies this, pendingSignals
      ensures Abs() == DoAddPeer(old(Abs()), user, initialOfferer, call)
    {
      if callId != Some(call) {
        return;
      }
      MakePeer(user, initialOfferer, call);
      if initialOfferer {
        StartReconnectTimer(user, DidNotGetFirstSignal);
        StartReconnectTimer(user, InitialFailure);
      }
    }

    /** The peer itself, without its timers; it shares the remote control, which must be there. */
    method MakePeer(user: UserId, initialOfferer: bool, call: CallId)
      requires remoteControl
      modifies this`nextPeerId, this`made, this`peers, this`peerStates, this`deferred, pendingSignals
      ensures Abs() == CreatePeer(old(Abs()), user, initialOfferer, call)
    {
      var id := InsertPeer(user, initialOfferer, call);
      DeferPending(id, user, initialOfferer, call);
    }

    /** The next id, and the user's new entries under it. */
    method InsertPeer(user: UserId, initialOfferer: bool, call: CallId) returns (id: PeerId)
      modifies this`nextPeerId, this`made, this`peers, this`peerStates
      ensures id == old(nextPeerId) && nextPeerId == NextPeerId(id)
      ensures made == old(made) + [Made(user, call, initialOfferer)]
      ensures peers == old(peers)[user := Peer(id, initialOfferer)]
      ensures peerStates == old(peerStates)[user := NewPeerState(initialOfferer)]
    {
      id := nextPeerId;
      nextPeerId := NextPeerId(id);
      made := made + [Made(user, call, initialOfferer)];
      peers := peers[user := Peer(id, initialOfferer)];
      peerStates := peerStates[user := NewPeerState(initialOfferer)];
    }

    /** Drains what was pending for the user; only the answering side gets it, later. */
    method DeferPending(id: PeerId, user: UserId, initialOfferer: bool, call: CallId)
      modifies this`deferred, pendingSignals
      ensures var (pending, drained) := Drain(old(pendingSignals.signals), user, initialOfferer);
              && pendingSignals.signals == pending
              && deferred == if !initialOfferer && drained.Some?
                             then old(deferred) + multiset{Deferred(id, user, call, drained.value, false)}
                             else old(deferred)
    {
      var drained := pendingSignals.DrainUser(user, initialOfferer);
      if !initialOfferer && drained.Some? {
        deferred := deferred + multiset{Deferred(id, user, call, drained.value, false)};
      }
    }

    method RemovePeerFrom(user: UserId, call: CallId)
      requires Valid()
      modifies this, pendingSignals
      ensures Valid() && Abs() == DoRemovePeer(old(Abs()), user, call)
    {
      if callId != Some(call) {
        return;
      }
      peers := peers - {user};
      peerStates := peerStates - {user};
      var _ := pendingSignals.RemoveUser(user);
    }

    method IncomingSignal(user: UserId, call: CallId, signal: Signal)
      requires Valid()
      modifies this, pendingSignals
      ensures Abs() == DoSetIncomingSignal(old(Abs()), user, call, signal)
    {
      if callId != Some(call) {
        return;
      }
      if user in peerStates {
        var p := peerStates[user];
        if IsOffer(signal) && user in peers && p.gotFirstOffer {
          // a second offer needs a fresh peer
          RecreatePeer(user, call, p.initialOfferer);
        }
      }
      GiveSignal(user, signal);
    }

    /** To the peer if there is one, else to the pending signals. */
    method GiveSignal(user: UserId, signal: Signal)
      modifies this`handed, this`peerStates, pendingSignals
      ensures Abs() == HandOver(old(Abs()), user, signal)
    {
      Deliver(user, signal);
      NoteSignal(user, signal);
    }

    method Deliver(user: UserId, signal: Signal)
      modifies this`handed, pendingSignals
      ensures handed == if user in peers then old(handed) + [Handed(peers[user].id, signal)] else old(handed)
      ensures pendingSignals.signals
           == if user in peers then old(pendingSignals.signals) else Add(old(pendingSignals.signals), user, signal)
    {
      if user in peers {
        handed := handed + [Handed(peers[user].id, signal)];
      } else {
        pendingSignals.AddSignal(user, signal);
      }
    }

    /** The first offer and the first answer are remembered. */
    method NoteSignal(user: UserId, signal: Signal)
      modifies this`peerStates
      ensures peerStates == if user in old(peerStates)
                            then old(peerStates)[user := Mark(old(peerStates)[user], signal)] else old(peerStates)
    {
      if user in peerStates {
        if IsOffer(signal) {
          peerStates := peerStates[user := peerStates[user].(gotFirstOffer := true)];
        } else if IsAnswer(signal) {
          peerStates := peerStates[user := peerStates[user].(gotFirstAnswer := true)];
        }
      }
    }

    method EmitEvent(event: EngineEvent)
      modifies this`emitted
      ensures emitted == old(emitted) + [event]
    {
      emitted := emitted + [event];
    }
  }
}
