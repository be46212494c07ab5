/** What one command makes the engine do, command by command and part by part. */
module CallEffects {
  import opened CallCore
  import opened CallSystem
  import opened EngineModel
  import opened Pending
  import opened Signals
  import opened Wrappers

  predicate InCall(e: EngineState, call: CallId) {
    e.callId == Some(call)
  }

  /** The incarnation a message is about is the one its user has now. */
  predicate HasNow(e: EngineState, user: UserId, peer: PeerId) {
    user in e.peers && e.peers[user].id == peer
  }

  // ------------------------------------------------------------------
  // Incarnations
  // ------------------------------------------------------------------

  /** An offer to a peer that has been handed one. */
  ghost predicate SecondOffer(e: EngineState, user: UserId, signal: Signal) {
    IsOffer(signal) && user in e.peers && HandedOffer(e.handed, e.peers[user].id)
  }

  /** When a timer replaces the peer it was started for: never one that is connected; for want of a
      first signal only if neither an offer nor an answer has been handed to it and it has never
      been connected; after an initial failure only if it never has; and after a long disconnect. */
  ghost predicate Replaced(e: EngineState, t: Timer) {
    && InCall(e, t.call) && HasNow(e, t.user, t.peer) && t.user in e.states
    && e.states[t.user].connection != Connected
    && match t.case_
       case DidNotGetFirstSignal =>
         && !HandedOffer(e.handed, t.peer) && !HandedAnswer(e.handed, t.peer)
         && !e.states[t.user].establishedOnce
       case InitialFailure => !e.states[t.user].establishedOnce
       case TryIceRestart => false
       case Disconnect => true
  }

  /** The incarnation a command makes. */
  ghost function MadeBy(e: EngineState, cmd: Command): seq<Made> {
    match cmd
    case AddPeer(user, call, role) => if InCall(e, call) then [Made(user, call, role)] else []
    case SetIncomingSignal(user, call, signal) =>
      if InCall(e, call) && SecondOffer(e, user, signal) then [Made(user, call, e.peers[user].initialOfferer)] else []
    case MaybeReconnect(t) =>
      if Replaced(e, t) then [Made(t.user, t.call, e.peers[t.user].initialOfferer)] else []
    case _ => []
  }

  lemma SupplantsMeans(e: EngineState, t: Timer)
    requires EngineInv(e) && Offers(e)
    ensures Supplants(e, MaybeReconnect(t)) <==> Replaced(e, t)
  {
  }

  lemma SecondOfferRecreates(e: EngineState, user: UserId, signal: Signal)
    requires EngineInv(e) && Offers(e)
    ensures RecreatesFor(e, user, signal) <==> SecondOffer(e, user, signal)
  {
  }

  lemma SignalMakes(e: EngineState, cmd: Command)
    requires EngineInv(e) && Offers(e) && !e.stopped && cmd.SetIncomingSignal?
    ensures Handle(e, cmd).made == e.made + MadeBy(e, cmd)
  {
    SecondOfferRecreates(e, cmd.user, cmd.signal);
    if InCall(e, cmd.call) && SecondOffer(e, cmd.user, cmd.signal) {
      RecreateMakesOne(e, cmd.user, cmd.call);
    }
  }

  lemma ReconnectMakes(e: EngineState, cmd: Command)
    requires EngineInv(e) && Offers(e) && !e.stopped && cmd.MaybeReconnect?
    ensures Handle(e, cmd).made == e.made + MadeBy(e, cmd)
  {
    SupplantsMeans(e, cmd.timer);
    if Replaced(e, cmd.timer) {
      RecreateMakesOne(e, cmd.timer.user, cmd.timer.call);
    }
  }

  lemma HandleMakes(e: EngineState, cmd: Command)
    requires EngineInv(e) && Offers(e) && !e.stopped
    ensures Handle(e, cmd).made == e.made + MadeBy(e, cmd)
  {
    if cmd.SetIncomingSignal? {
      SignalMakes(e, cmd);
    } else if cmd.MaybeReconnect? {
      ReconnectMakes(e, cmd);
    }
  }

  // ------------------------------------------------------------------
  // Signals handed to peers
  // ------------------------------------------------------------------

  /** A signal goes to the peer its user has, or to the new one if it is a second offer. */
  ghost function HandedBy(e: EngineState, cmd: Command): seq<Handed> {
    if cmd.SetIncomingSignal? && InCall(e, cmd.call) && cmd.user in e.peers then
      [Handed(if SecondOffer(e, cmd.user, cmd.signal) then e.nextPeerId else e.peers[cmd.user].id, cmd.signal)]
    else []
  }

  lemma RecreateHands(e: EngineState, user: UserId, call: CallId)
    requires user in e.states && IsCurrentCall(e, call)
    ensures var e' := Recreate(e, user, call);
            && e'.handed == e.handed && e'.emitted == e.emitted && e'.restarts == e.restarts
            && user in e'.peers && e'.peers[user].id == e.nextPeerId
  {
  }

  lemma HandleHands(e: EngineState, cmd: Command)
    requires EngineInv(e) && Offers(e) && !e.stopped
    ensures Handle(e, cmd).handed == e.handed + HandedBy(e, cmd)
  {
    match cmd
    case SetIncomingSignal(user, call, signal) =>
      SecondOfferRecreates(e, user, signal);
      if InCall(e, call) && SecondOffer(e, user, signal) {
        RecreateHands(e, user, call);
      }
    case MaybeReconnect(t) =>
      if Supplants(e, cmd) {
        RecreateHands(e, t.user, t.call);
      }
    case _ =>
  }

  // ------------------------------------------------------------------
  // What the window is told
  // ------------------------------------------------------------------

  /** Signals to send, in a call, and the states reported of the peers there are. */
  function EmittedBy(e: EngineState, cmd: Command): seq<EngineEvent> {
    match cmd
    case SendSignal(user, signal) => if e.callId.Some? then [SignalToSend(user, e.callId.value, signal)] else []
    case PeerStateChange(user, peer, state, _) =>
      if e.callId.Some? && HasNow(e, user, peer) then [ConnectionStateChange(user, e.callId.value, state)] else []
    case _ => []
  }

  lemma HandleEmits(e: EngineState, cmd: Command)
    requires EngineInv(e) && !e.stopped
    ensures Handle(e, cmd).emitted == e.emitted + EmittedBy(e, cmd)
  {
    match cmd
    case SetIncomingSignal(user, call, signal) =>
      if IsCurrentCall(e, call) && RecreatesFor(e, user, signal) {
        RecreateHands(e, user, call);
      }
    case MaybeReconnect(t) =>
      if Supplants(e, cmd) {
        RecreateHands(e, t.user, t.call);
      }
    case _ =>
  }

  // ------------------------------------------------------------------
  // ICE restarts
  // ------------------------------------------------------------------

  /** A restart is tried on a peer that is not connected and whose ICE is exactly disconnected. */
  function RestartsBy(e: EngineState, cmd: Command): seq<PeerId> {
    if cmd.MaybeReconnect? && cmd.timer.case_ == TryIceRestart
       && InCall(e, cmd.timer.call) && HasNow(e, cmd.timer.user, cmd.timer.peer) && cmd.timer.user in e.states
       && e.states[cmd.timer.user].connection != Connected && e.states[cmd.timer.user].ice == IceDisconnected
    then [cmd.timer.peer] else []
  }

  lemma HandleRestarts(e: EngineState, cmd: Command)
    requires EngineInv(e) && !e.stopped
    ensures Handle(e, cmd).restarts == e.restarts + RestartsBy(e, cmd)
  {
    match cmd
    case SetIncomingSignal(user, call, signal) =>
      if IsCurrentCall(e, call) && RecreatesFor(e, user, signal) {
        RecreateHands(e, user, call);
      }
    case MaybeReconnect(t) =>
      if Supplants(e, cmd) {
        RecreateHands(e, t.user, t.call);
      }
    case _ =>
  }

  // ------------------------------------------------------------------
  // Timers
  // ------------------------------------------------------------------

  /** Two timers for every incarnation that is to make the offer, two for every report of a
      disconnect by a peer there is. */
  ghost function TimersBy(e: EngineState, cmd: Command): multiset<Timer> {
    var made := MadeBy(e, cmd);
    (if made != [] && made[0].initialOfferer then
       multiset{Timer(made[0].user, made[0].call, e.nextPeerId, DidNotGetFirstSignal),
                Timer(made[0].user, made[0].call, e.nextPeerId, InitialFailure)}
     else multiset{})
    + (if cmd.PeerStateChange? && cmd.iceState == Some(IceDisconnected)
          && e.callId.Some? && HasNow(e, cmd.user, cmd.peer) then
         multiset{Timer(cmd.user, e.callId.value, cmd.peer, TryIceRestart),
                  Timer(cmd.user, e.callId.value, cmd.peer, Disconnect)}
       else multiset{})
  }

  function FirstTimers(user: UserId, call: CallId, id: PeerId, role: bool): multiset<Timer> {
    if role then
      multiset{Timer(user, call, id, DidNotGetFirstSignal), Timer(user, call, id, InitialFailure)}
    else multiset{}
  }

  lemma AddStarts(e: EngineState, user: UserId, role: bool, call: CallId)
    requires IsCurrentCall(e, call)
    ensures DoAddPeer(e, user, role, call).timers == e.timers + FirstTimers(user, call, e.nextPeerId, role)
  {
    var e1 := CreatePeer(e, user, role, call);
    assert e1.timers == e.timers && e1.peers[user].id == e.nextPeerId && e1.callId == Some(call);
  }

  lemma RecreateStarts(e: EngineState, user: UserId, call: CallId)
    requires IsCurrentCall(e, call) && user in e.states
    ensures Recreate(e, user, call).timers
         == e.timers + FirstTimers(user, call, e.nextPeerId, e.states[user].initialOfferer)
  {
    AddStarts(DoRemovePeer(e, user, call), user, e.states[user].initialOfferer, call);
  }

  lemma ReportStarts(e: EngineState, cmd: Command)
    requires EngineInv(e) && !e.stopped && cmd.PeerStateChange?
    ensures Handle(e, cmd).timers == e.timers + TimersBy(e, cmd)
  {
  }

  lemma HandOverStarts(e: EngineState, user: UserId, signal: Signal)
    ensures HandOver(e, user, signal).timers == e.timers
  {
  }

  lemma SignalStarts(e: EngineState, cmd: Command)
    requires EngineInv(e) && Offers(e) && !e.stopped && cmd.SetIncomingSignal?
    ensures Handle(e, cmd).timers == e.timers + TimersBy(e, cmd)
  {
    var user, call, signal := cmd.user, cmd.call, cmd.signal;
    SecondOfferRecreates(e, user, signal);
    if IsCurrentCall(e, call) {
      if RecreatesFor(e, user, signal) {
        RecreateStarts(e, user, call);
        HandOverStarts(Recreate(e, user, call), user, signal);
      } else {
        HandOverStarts(e, user, signal);
      }
    }
  }

  lemma ReconnectStarts(e: EngineState, cmd: Command)
    requires EngineInv(e) && Offers(e) && !e.stopped && cmd.MaybeReconnect?
    ensures Handle(e, cmd).timers == e.timers + TimersBy(e, cmd)
  {
    SupplantsMeans(e, cmd.timer);
    if Replaced(e, cmd.timer) {
      RecreateStarts(e, cmd.timer.user, cmd.timer.call);
    }
  }

  lemma HandleStarts(e: EngineState, cmd: Command)
    requires EngineInv(e) && Offers(e) && !e.stopped
    ensures Handle(e, cmd).timers == e.timers + TimersBy(e, cmd)
  {
    if cmd.SetIncomingSignal? {
      SignalStarts(e, cmd);
    } else if cmd.PeerStateChange? {
      ReportStarts(e, cmd);
    } else if cmd.MaybeReconnect? {
      ReconnectStarts(e, cmd);
    } else if cmd.AddPeer? && InCall(e, cmd.call) {
      AddStarts(e, cmd.user, cmd.initialOfferer, cmd.call);
    }
  }

  // ------------------------------------------------------------------
  // Pending and deferred signals
  // ------------------------------------------------------------------

  /** An offer that is waiting, and all that waits behind it, for the side that is to answer it. */
  predicate OfferWaits(e: EngineState, user: UserId) {
    user in e.pending && e.pending[user] != [] && IsOffer(e.pending[user][0])
  }

  function DeferredBy(e: EngineState, cmd: Command): multiset<Deferred> {
    if cmd.AddPeer? && InCall(e, cmd.call) && !cmd.initialOfferer && OfferWaits(e, cmd.user) then
      multiset{Deferred(e.nextPeerId, cmd.user, cmd.call, e.pending[cmd.user], false)}
    else multiset{}
  }

  lemma AddDefers(e: EngineState, user: UserId, role: bool, call: CallId)
    requires IsCurrentCall(e, call)
    ensures DoAddPeer(e, user, role, call).deferred
         == e.deferred + if !role && OfferWaits(e, user)
                         then multiset{Deferred(e.nextPeerId, user, call, e.pending[user], false)} else multiset{}
  {
  }

  lemma RecreateDefers(e: EngineState, user: UserId, call: CallId)
    requires IsCurrentCall(e, call) && user in e.states
    ensures Recreate(e, user, call).deferred == e.deferred
  {
    AddDefers(DoRemovePeer(e, user, call), user, e.states[user].initialOfferer, call);
  }

  lemma HandleDefers(e: EngineState, cmd: Command)
    requires EngineInv(e) && !e.stopped
    ensures Handle(e, cmd).deferred == e.deferred + DeferredBy(e, cmd)
  {
    match cmd
    case AddPeer(user, call, role) =>
      if IsCurrentCall(e, call) {
        AddDefers(e, user, role, call);
      }
    case SetIncomingSignal(user, call, signal) =>
      if IsCurrentCall(e, call) && RecreatesFor(e, user, signal) {
        RecreateDefers(e, user, call);
      }
    case MaybeReconnect(t) =>
      if Supplants(e, cmd) {
        RecreateDefers(e, t.user, t.call);
      }
    case _ =>
  }

  function PendingOf(e: EngineState, u: UserId): Option<seq<Signal>> {
    if u in e.pending then Some(e.pending[u]) else None
  }

  /** The signals that have come for `u` while it had no peer: those known before, and one more or
      none of them after this command. */
  function WaitingAfter(e: EngineState, u: UserId, waiting: seq<Signal>, cmd: Command): seq<Signal> {
    match cmd
    case Join(_) => []
    case Leave => []
    case AddPeer(user, call, _) => if user == u && InCall(e, call) then [] else waiting
    case RemovePeer(user, call) => if user == u && InCall(e, call) then [] else waiting
    case SetIncomingSignal(user, call, signal) =>
      if user == u && InCall(e, call) && u !in e.peers then waiting + [signal] else waiting
    case _ => waiting
  }

  lemma {:induction false} AddLast(q: Queues, u: UserId, signals: seq<Signal>, signal: Signal)
    ensures AddAll(q, u, signals + [signal]) == Add(AddAll(q, u, signals), u, signal)
    decreases |signals|
  {
    if signals == [] {
      assert [] + [signal] == [signal];
      assert AddAll(q, u, [signal]) == AddAll(Add(q, u, signal), u, [signal][1..]);
    } else {
      AddLast(Add(q, u, signals[0]), u, signals[1..], signal);
      assert (signals + [signal])[1..] == signals[1..] + [signal];
    }
  }

  /** One signal more. */
  lemma KeptLast(u: UserId, signals: seq<Signal>, signal: Signal)
    ensures Kept(signals + [signal])
         == match Kept(signals)
            case None => if signal.SdpSignal? then Some([signal]) else None
            case Some(kept) => if signal.Candidate? then Some(kept + [signal]) else Some(kept)
  {
    AddLast(map[], u, signals, signal);
    QueueHoldsFirstSdpAndCandidates(map[], u, signals);
    QueueHoldsFirstSdpAndCandidates(map[], u, signals + [signal]);
    var q: Queues := AddAll(map[], u, signals + [signal]);
    assert Kept(signals + [signal]) == if u in q then Some(q[u]) else None;
  }

  /** Without a peer, what is pending is the first description that has come and the candidates
      after it; with one, nothing is. */
  ghost predicate PendingIs(e: EngineState, u: UserId, waiting: seq<Signal>) {
    PendingOf(e, u) == Kept(waiting) && (u in e.peers ==> waiting == [])
  }

  lemma RecreateKeepsPending(e: EngineState, user: UserId, call: CallId, u: UserId)
    requires EngineInv(e) && IsCurrentCall(e, call) && user in e.states
    ensures PendingOf(Recreate(e, user, call), u) == PendingOf(e, u)
    ensures u in Recreate(e, user, call).peers <==> u in e.peers
  {
  }

  lemma HandOverKeepsPending(e: EngineState, user: UserId, signal: Signal, u: UserId, waiting: seq<Signal>)
    requires EngineInv(e) && PendingIs(e, u, waiting)
    ensures PendingIs(HandOver(e, user, signal), u,
                      if user == u && u !in e.peers then waiting + [signal] else waiting)
  {
    if user == u && u !in e.peers {
      KeptLast(u, waiting, signal);
    }
  }

  lemma SignalKeepsPending(e: EngineState, cmd: Command, u: UserId, waiting: seq<Signal>)
    requires EngineInv(e) && !e.stopped && cmd.SetIncomingSignal? && PendingIs(e, u, waiting)
    ensures PendingIs(Handle(e, cmd), u, WaitingAfter(e, u, waiting, cmd))
  {
    var user, call, signal := cmd.user, cmd.call, cmd.signal;
    if IsCurrentCall(e, call) {
      if RecreatesFor(e, user, signal) {
        RecreateKeepsPending(e, user, call, u);
        RecreateKeepsEngine(e, user, call);
        HandOverKeepsPending(Recreate(e, user, call), user, signal, u, waiting);
      } else {
        HandOverKeepsPending(e, user, signal, u, waiting);
      }
    }
  }

  lemma OthersKeepPending(e: EngineState, cmd: Command, u: UserId, waiting: seq<Signal>)
    requires EngineInv(e) && !e.stopped && PendingIs(e, u, waiting)
    requires !cmd.SetIncomingSignal? && !cmd.MaybeReconnect?
    ensures PendingIs(Handle(e, cmd), u, WaitingAfter(e, u, waiting, cmd))
  {
  }

  lemma HandleKeepsPending(e: EngineState, cmd: Command, u: UserId, waiting: seq<Signal>)
    requires EngineInv(e) && !e.stopped && PendingIs(e, u, waiting)
    ensures PendingIs(Handle(e, cmd), u, WaitingAfter(e, u, waiting, cmd))
  {
    match cmd
    case SetIncomingSignal(_, _, _) => SignalKeepsPending(e, cmd, u, waiting);
    case MaybeReconnect(t) =>
      if Supplants(e, cmd) {
        RecreateKeepsPending(e, t.user, t.call, u);
      }
    case _ => OthersKeepPending(e, cmd, u, waiting);
  }

  // ------------------------------------------------------------------
  // What is believed of a peer
  // ------------------------------------------------------------------

  datatype Belief = Belief(connection: ConnectionState, ice: IceState, established: bool)

  const NEW_BELIEF := Belief(Connecting, IceNew, false)

  function BeliefOf(e: EngineState, u: UserId): Belief
    requires u in e.states
  {
    Belief(e.states[u].connection, e.states[u].ice, e.states[u].establishedOnce)
  }

  /** A report says the state, and perhaps the ICE state; one Connected by ICE is remembered. */
  function Heard(b: Belief, cmd: Command): Belief
    requires cmd.PeerStateChange?
  {
    Belief(cmd.state, if cmd.iceState.Some? then cmd.iceState.value else b.ice,
           b.established || cmd.iceState == Some(IceConnected))
  }

  /** After a command a peer is a new incarnation of which nothing is known, or the one there was,
      of which is known what was known and what a report has just said. */
  ghost predicate BelievesAfter(e: EngineState, e': EngineState, cmd: Command, u: UserId) {
    u in e'.peers ==>
      && u in e'.states
      && ( || (e'.peers[u].id == e.nextPeerId && |e'.made| > |e.made| && BeliefOf(e', u) == NEW_BELIEF)
           || (u in e.peers && u in e.states && e'.peers[u] == e.peers[u] &&
               BeliefOf(e', u) == if Reports(e, cmd) && cmd.user == u then Heard(BeliefOf(e, u), cmd)
                                  else BeliefOf(e, u)))
  }

  lemma AddBelieves(e: EngineState, cmd: Command, user: UserId, role: bool, call: CallId, u: UserId)
    requires EngineInv(e) && IsCurrentCall(e, call) && !Reports(e, cmd)
    ensures BelievesAfter(e, DoAddPeer(e, user, role, call), cmd, u)
  {
  }

  lemma RecreateBelieves(e: EngineState, cmd: Command, user: UserId, call: CallId, u: UserId)
    requires EngineInv(e) && IsCurrentCall(e, call) && !Reports(e, cmd) && user in e.states
    ensures BelievesAfter(e, Recreate(e, user, call), cmd, u)
  {
    AddBelieves(DoRemovePeer(e, user, call), cmd, user, e.states[user].initialOfferer, call, u);
  }

  lemma HandOverBelieves(e: EngineState, e1: EngineState, cmd: Command, user: UserId, signal: Signal, u: UserId)
    requires BelievesAfter(e, e1, cmd, u)
    ensures BelievesAfter(e, HandOver(e1, user, signal), cmd, u)
  {
  }

  lemma ReportBelieves(e: EngineState, cmd: Command, u: UserId)
    requires EngineInv(e) && !e.stopped && cmd.PeerStateChange?
    ensures BelievesAfter(e, Handle(e, cmd), cmd, u)
  {
  }

  lemma SignalBelieves(e: EngineState, cmd: Command, u: UserId)
    requires EngineInv(e) && !e.stopped && cmd.SetIncomingSignal?
    ensures BelievesAfter(e, Handle(e, cmd), cmd, u)
  {
    if IsCurrentCall(e, cmd.call) {
      if RecreatesFor(e, cmd.user, cmd.signal) {
        RecreateBelieves(e, cmd, cmd.user, cmd.call, u);
        HandOverBelieves(e, Recreate(e, cmd.user, cmd.call), cmd, cmd.user, cmd.signal, u);
      } else {
        HandOverBelieves(e, e, cmd, cmd.user, cmd.signal, u);
      }
    }
  }

  lemma HandleBelieves(e: EngineState, cmd: Command, u: UserId)
    requires EngineInv(e) && !e.stopped
    ensures BelievesAfter(e, Handle(e, cmd), cmd, u)
  {
    if cmd.PeerStateChange? {
      ReportBelieves(e, cmd, u);
    } else if cmd.SetIncomingSignal? {
      SignalBelieves(e, cmd, u);
    } else if cmd.AddPeer? && InCall(e, cmd.call) {
      AddBelieves(e, cmd, cmd.user, cmd.initialOfferer, cmd.call, u);
    } else if Supplants(e, cmd) {
      RecreateBelieves(e, cmd, cmd.timer.user, cmd.timer.call, u);
    }
  }
}
