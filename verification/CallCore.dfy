/** Every command keeps the peer-shaped parts of the invariant: identities, beliefs and offers. */
module CallCore {
  import opened CallSystem
  import opened EngineModel
  import opened PeerLoopModel
  import opened Signals
  import opened Wrappers

  // ------------------------------------------------------------------
  // Creating, removing and replacing a peer
  // ------------------------------------------------------------------

  /** Everything the peer-shaped parts of the invariant say. */
  ghost predicate Core(e: EngineState, loops: seq<LoopState>) {
    EngineInv(e) && Ids(e, loops) && Beliefs(e, loops) && Offers(e)
  }

  lemma RemoveKeepsCore(e: EngineState, loops: seq<LoopState>, user: UserId, call: CallId)
    requires Core(e, loops)
    ensures Core(DoRemovePeer(e, user, call), loops)
  {
    RemoveKeepsIds(e, loops, user, call);
    RemoveKeepsOffers(e, user, call);
  }

  lemma RemoveKeepsIds(e: EngineState, loops: seq<LoopState>, user: UserId, call: CallId)
    requires EngineInv(e) && Ids(e, loops) && Beliefs(e, loops)
    ensures var e' := DoRemovePeer(e, user, call);
            EngineInv(e') && Ids(e', loops) && Beliefs(e', loops)
  {
  }

  lemma RemoveKeepsOffers(e: EngineState, user: UserId, call: CallId)
    requires Offers(e)
    ensures Offers(DoRemovePeer(e, user, call))
  {
  }

  lemma NotYetHanded(e: EngineState, id: nat)
    requires Offers(e) && |e.made| <= id
    ensures !HandedOffer(e.handed, id) && !HandedAnswer(e.handed, id)
  {
  }

  lemma CreateKeepsIds(e: EngineState, loops: seq<LoopState>, user: UserId, initialOfferer: bool, call: CallId)
    requires EngineInv(e) && Ids(e, loops) && IsCurrentCall(e, call) && |e.made| < PEER_IDS
    ensures var e' := CreatePeer(e, user, initialOfferer, call);
            Ids(e', loops + [NewLoop(initialOfferer)]) && e'.peers[user].id == |e.made|
  {
  }

  /** A new incarnation that nothing has been handed to yet. */
  lemma NewPeerKeepsOffers(e: EngineState, e': EngineState, user: UserId, p: Peer)
    requires Offers(e) && e'.handed == e.handed && |e.made| <= |e'.made|
    requires e'.peers == e.peers[user := p] && e'.states == e.states[user := NewPeerState(p.initialOfferer)]
    requires !HandedOffer(e.handed, p.id) && !HandedAnswer(e.handed, p.id)
    ensures Offers(e')
  {
  }

  lemma CreateKeepsOffers(e: EngineState, loops: seq<LoopState>, user: UserId, initialOfferer: bool, call: CallId)
    requires EngineInv(e) && Ids(e, loops) && IsCurrentCall(e, call) && |e.made| < PEER_IDS
    requires Offers(e)
    ensures Offers(CreatePeer(e, user, initialOfferer, call))
  {
    NotYetHanded(e, |e.made|);
    NewPeerKeepsOffers(e, CreatePeer(e, user, initialOfferer, call), user, Peer(e.nextPeerId, initialOfferer));
  }

  lemma CreateKeepsBeliefs(e: EngineState, loops: seq<LoopState>, user: UserId, initialOfferer: bool, call: CallId)
    requires EngineInv(e) && Ids(e, loops) && IsCurrentCall(e, call) && |e.made| < PEER_IDS
    requires Beliefs(e, loops)
    ensures Beliefs(CreatePeer(e, user, initialOfferer, call), loops + [NewLoop(initialOfferer)])
  {
  }

  lemma AddKeepsCore(e: EngineState, loops: seq<LoopState>, user: UserId, initialOfferer: bool, call: CallId)
    requires Core(e, loops) && IsCurrentCall(e, call) && |e.made| < PEER_IDS
    ensures Core(DoAddPeer(e, user, initialOfferer, call), loops + [NewLoop(initialOfferer)])
  {
    AddKeepsEngine(e, user, initialOfferer, call);
    CreateKeepsIds(e, loops, user, initialOfferer, call);
    CreateKeepsOffers(e, loops, user, initialOfferer, call);
    CreateKeepsBeliefs(e, loops, user, initialOfferer, call);
    SameShapeKeepsCore(CreatePeer(e, user, initialOfferer, call), DoAddPeer(e, user, initialOfferer, call),
                            loops + [NewLoop(initialOfferer)]);
  }

  /** Timers, ICE restarts and what is emitted are no part of a peer's shape. */
  ghost predicate SameShape(e: EngineState, e': EngineState) {
    e' == e.(timers := e'.timers, restarts := e'.restarts, emitted := e'.emitted, stopped := e'.stopped)
  }

  lemma SameShapeKeepsCore(e: EngineState, e': EngineState, loops: seq<LoopState>)
    requires SameShape(e, e')
    ensures Ids(e, loops) ==> Ids(e', loops)
    ensures Beliefs(e, loops) ==> Beliefs(e', loops)
    ensures Offers(e) ==> Offers(e')
  {
  }

  lemma RecreateKeepsCore(e: EngineState, loops: seq<LoopState>, user: UserId, call: CallId)
    requires Core(e, loops) && IsCurrentCall(e, call) && user in e.states && |e.made| < PEER_IDS
    ensures Core(Recreate(e, user, call), loops + [NewLoop(e.states[user].initialOfferer)])
  {
    RemoveKeepsCore(e, loops, user, call);
    AddKeepsCore(DoRemovePeer(e, user, call), loops, user, e.states[user].initialOfferer, call);
  }

  // ------------------------------------------------------------------
  // The other commands
  // ------------------------------------------------------------------

  /** The incarnation that is handed a first offer had had none. */
  ghost predicate MayHand(e: EngineState, user: UserId, signal: Signal) {
    user in e.peers && user in e.states && IsOffer(signal) ==> !e.states[user].gotFirstOffer
  }

  lemma HandOverKnown(e: EngineState, loops: seq<LoopState>, user: UserId, signal: Signal, u: UserId)
    requires Ids(e, loops) && Offers(e) && user in e.peers && u in e.peers
    ensures var e' := HandOver(e, user, signal);
            && e'.states[u].gotFirstOffer == HandedOffer(e'.handed, e.peers[u].id)
            && e'.states[u].gotFirstAnswer == HandedAnswer(e'.handed, e.peers[u].id)
  {
    HandedGrows(e.handed, Handed(e.peers[user].id, signal), e.peers[u].id);
    assert e.made[e.peers[u].id].user == u && e.made[e.peers[user].id].user == user;
  }

  lemma OneMoreHanded(e: EngineState, e': EngineState, h: Handed)
    requires Offers(e) && e'.peers == e.peers && e'.made == e.made && e'.states.Keys == e.states.Keys
    requires e'.handed == e.handed + [h] && h.peer < |e.made|
    requires IsOffer(h.signal) ==> !HandedOffer(e.handed, h.peer)
    requires forall u | u in e.peers :: e'.states[u].gotFirstOffer == HandedOffer(e'.handed, e.peers[u].id)
    requires forall u | u in e.peers :: e'.states[u].gotFirstAnswer == HandedAnswer(e'.handed, e.peers[u].id)
    ensures Offers(e')
  {
    HandedOnce(e.handed, h);
  }

  lemma HandOverKeepsOffers(e: EngineState, loops: seq<LoopState>, user: UserId, signal: Signal)
    requires Ids(e, loops) && Offers(e) && MayHand(e, user, signal)
    ensures Offers(HandOver(e, user, signal))
  {
    if user in e.peers {
      var e' := HandOver(e, user, signal);
      forall u | u in e.peers
        ensures e'.states[u].gotFirstOffer == HandedOffer(e'.handed, e.peers[u].id)
        ensures e'.states[u].gotFirstAnswer == HandedAnswer(e'.handed, e.peers[u].id)
      {
        HandOverKnown(e, loops, user, signal, u);
      }
      OneMoreHanded(e, e', Handed(e.peers[user].id, signal));
    }
  }

  lemma HandedOnce(handed: seq<Handed>, h: Handed)
    requires OfferedOnce(handed) && (IsOffer(h.signal) ==> !HandedOffer(handed, h.peer))
    ensures OfferedOnce(handed + [h])
  {
  }

  lemma HandedGrows(handed: seq<Handed>, h: Handed, id: nat)
    ensures HandedOffer(handed + [h], id) <==> HandedOffer(handed, id) || (h.peer == id && IsOffer(h.signal))
    ensures HandedAnswer(handed + [h], id) <==> HandedAnswer(handed, id) || (h.peer == id && IsAnswer(h.signal))
  {
    var longer := handed + [h];
    assert longer[|handed|] == h;
    assert forall k | 0 <= k < |handed| :: longer[k] == handed[k];
  }

  lemma HandOverKeepsIds(e: EngineState, loops: seq<LoopState>, user: UserId, signal: Signal)
    requires EngineInv(e) && Ids(e, loops)
    ensures Ids(HandOver(e, user, signal), loops)
  {
  }

  lemma HandOverKeepsBeliefs(e: EngineState, loops: seq<LoopState>, user: UserId, signal: Signal)
    requires EngineInv(e) && Beliefs(e, loops)
    ensures Beliefs(HandOver(e, user, signal), loops)
  {
  }

  lemma HandOverKeepsCore(e: EngineState, loops: seq<LoopState>, user: UserId, signal: Signal)
    requires Core(e, loops) && e.callId.Some? && MayHand(e, user, signal)
    ensures Core(HandOver(e, user, signal), loops)
  {
    HandOverKeepsEngine(e, user, signal);
    HandOverKeepsIds(e, loops, user, signal);
    HandOverKeepsBeliefs(e, loops, user, signal);
    HandOverKeepsOffers(e, loops, user, signal);
  }

  lemma SameOffers(e: EngineState, e': EngineState)
    requires Offers(e) && e'.peers == e.peers && e'.handed == e.handed && e'.made == e.made
    requires e'.states.Keys == e.states.Keys
    requires forall u | u in e.states :: e'.states[u].gotFirstOffer == e.states[u].gotFirstOffer
    requires forall u | u in e.states :: e'.states[u].gotFirstAnswer == e.states[u].gotFirstAnswer
    ensures Offers(e')
  {
  }

  lemma UpdateKeepsNegotiation(p: PeerState, state: ConnectionState, iceState: Option<IceState>)
    ensures UpdatePeerState(p, state, iceState).gotFirstOffer == p.gotFirstOffer
    ensures UpdatePeerState(p, state, iceState).gotFirstAnswer == p.gotFirstAnswer
  {
  }

  lemma NoteKeepsOffers(e: EngineState, user: UserId, state: ConnectionState, iceState: Option<IceState>)
    requires Offers(e) && e.callId.Some?
    ensures Offers(NoteStateChange(e, user, state, iceState))
  {
    if user in e.states {
      UpdateKeepsNegotiation(e.states[user], state, iceState);
    }
    SameOffers(e, NoteStateChange(e, user, state, iceState));
  }

  lemma NoteKeepsBeliefs(e: EngineState, loops: seq<LoopState>, user: UserId, peer: PeerId,
                         state: ConnectionState, iceState: Option<IceState>)
    requires Beliefs(e, loops) && MessageOk(e, loops, PeerStateChange(user, peer, state, iceState))
    requires e.callId.Some? && Current(e, user, peer)
    ensures Beliefs(NoteStateChange(e, user, state, iceState), loops)
  {
  }

  lemma NoteKeepsIds(e: EngineState, loops: seq<LoopState>, user: UserId, state: ConnectionState,
                     iceState: Option<IceState>)
    requires Ids(e, loops) && e.callId.Some?
    ensures Ids(NoteStateChange(e, user, state, iceState), loops)
  {
  }

  lemma StateChangeKeepsCore(e: EngineState, loops: seq<LoopState>, user: UserId, peer: PeerId,
                             state: ConnectionState, iceState: Option<IceState>)
    requires Core(e, loops) && MessageOk(e, loops, PeerStateChange(user, peer, state, iceState))
    ensures Core(DoPeerStateChange(e, user, peer, state, iceState), loops)
  {
    StateChangeKeepsEngine(e, user, peer, state, iceState);
    if e.callId.Some? && Current(e, user, peer) {
      NoteKeepsIds(e, loops, user, state, iceState);
      NoteKeepsBeliefs(e, loops, user, peer, state, iceState);
      NoteKeepsOffers(e, user, state, iceState);
      SameShapeKeepsCore(NoteStateChange(e, user, state, iceState),
                              DoPeerStateChange(e, user, peer, state, iceState), loops);
    }
  }

  lemma NoNewLoop(made: seq<Made>, loops: seq<LoopState>)
    ensures LoopsFor(made, made, loops) == loops
  {
    assert NewLoops([]) == [];
  }

  lemma OneMoreLoop(made: seq<Made>, m: Made, loops: seq<LoopState>)
    ensures LoopsFor(made, made + [m], loops) == loops + [NewLoop(m.initialOfferer)]
  {
    assert (made + [m])[|made|..] == [m];
    assert NewLoops([m]) == [NewLoop(m.initialOfferer)];
  }

  lemma RecreateMakesOne(e: EngineState, user: UserId, call: CallId)
    requires user in e.states && IsCurrentCall(e, call)
    ensures Recreate(e, user, call).made == e.made + [Made(user, call, e.states[user].initialOfferer)]
  {
  }

  ghost predicate CoreAfter(e: EngineState, e': EngineState, loops: seq<LoopState>) {
    Core(e', LoopsFor(e.made, e'.made, loops))
  }

  lemma RecreateCoreAfter(e: EngineState, loops: seq<LoopState>, user: UserId, call: CallId)
    requires Core(e, loops) && IsCurrentCall(e, call) && user in e.states && |e.made| < PEER_IDS
    ensures CoreAfter(e, Recreate(e, user, call), loops)
  {
    RecreateMakesOne(e, user, call);
    RecreateKeepsCore(e, loops, user, call);
    OneMoreLoop(e.made, Made(user, call, e.states[user].initialOfferer), loops);
  }

  lemma SameShapeAfter(e: EngineState, e': EngineState, loops: seq<LoopState>)
    requires Core(e, loops) && SameShape(e, e')
    ensures CoreAfter(e, e', loops)
  {
    SameShapeKeepsCore(e, e', loops);
    NoNewLoop(e.made, loops);
  }

  lemma ReconnectKeepsCore(e: EngineState, loops: seq<LoopState>, cmd: Command)
    requires Core(e, loops) && !e.stopped && cmd.MaybeReconnect? && |Handle(e, cmd).made| <= PEER_IDS
    ensures CoreAfter(e, Handle(e, cmd), loops)
  {
    var t := cmd.timer;
    if TimerApplies(e, t) && Replaces(e, t) {
      RecreateMakesOne(e, t.user, t.call);
      RecreateCoreAfter(e, loops, t.user, t.call);
    } else {
      SameShapeAfter(e, Handle(e, cmd), loops);
    }
  }

  /** A replaced peer may be handed anything. */
  lemma MayHandAnew(e: EngineState, user: UserId, call: CallId, signal: Signal)
    requires user in e.states && IsCurrentCall(e, call)
    ensures MayHand(Recreate(e, user, call), user, signal)
  {
  }

  lemma HandOverAfter(e: EngineState, e1: EngineState, loops: seq<LoopState>, user: UserId, signal: Signal)
    requires CoreAfter(e, e1, loops) && e1.callId.Some? && MayHand(e1, user, signal)
    ensures CoreAfter(e, HandOver(e1, user, signal), loops)
  {
    HandOverKeepsCore(e1, LoopsFor(e.made, e1.made, loops), user, signal);
  }

  lemma SignalKeepsCore(e: EngineState, loops: seq<LoopState>, cmd: Command)
    requires Core(e, loops) && !e.stopped && cmd.SetIncomingSignal? && |Handle(e, cmd).made| <= PEER_IDS
    ensures CoreAfter(e, Handle(e, cmd), loops)
  {
    var user, call, signal := cmd.user, cmd.call, cmd.signal;
    if IsCurrentCall(e, call) && RecreatesFor(e, user, signal) {
      RecreateMakesOne(e, user, call);
      RecreateCoreAfter(e, loops, user, call);
      MayHandAnew(e, user, call, signal);
      HandOverAfter(e, Recreate(e, user, call), loops, user, signal);
    } else {
      SameShapeAfter(e, e, loops);
      if IsCurrentCall(e, call) {
        HandOverAfter(e, e, loops, user, signal);
      }
    }
  }

  lemma AddCommandKeepsCore(e: EngineState, loops: seq<LoopState>, cmd: Command)
    requires Core(e, loops) && !e.stopped && cmd.AddPeer? && |Handle(e, cmd).made| <= PEER_IDS
    ensures CoreAfter(e, Handle(e, cmd), loops)
  {
    NoNewLoop(e.made, loops);
    if IsCurrentCall(e, cmd.call) {
      AddKeepsCore(e, loops, cmd.user, cmd.initialOfferer, cmd.call);
      OneMoreLoop(e.made, Made(cmd.user, cmd.call, cmd.initialOfferer), loops);
    }
  }

  lemma LeavingKeepsCore(e: EngineState, loops: seq<LoopState>, call: CallId)
    requires Core(e, loops)
    ensures Core(DoLeave(e), loops) && Core(DoJoin(e, call), loops)
  {
  }

  lemma PlainKeepsCore(e: EngineState, loops: seq<LoopState>, cmd: Command)
    requires Core(e, loops) && MessageOk(e, loops, cmd)
    requires e.stopped || (!cmd.AddPeer? && !cmd.SetIncomingSignal? && !cmd.MaybeReconnect?)
    ensures CoreAfter(e, Handle(e, cmd), loops)
  {
    NoNewLoop(e.made, loops);
    match cmd
    case PeerStateChange(user, peer, state, iceState) => StateChangeKeepsCore(e, loops, user, peer, state, iceState);
    case RemovePeer(user, call) => RemoveKeepsCore(e, loops, user, call);
    case Join(call) => LeavingKeepsCore(e, loops, call);
    case Leave => LeavingKeepsCore(e, loops, CallId(""));
    case _ =>
  }

  lemma HandleKeepsCore(e: EngineState, loops: seq<LoopState>, cmd: Command)
    requires Core(e, loops) && MessageOk(e, loops, cmd) && |Handle(e, cmd).made| <= PEER_IDS
    ensures CoreAfter(e, Handle(e, cmd), loops)
  {
    if !e.stopped && cmd.AddPeer? {
      AddCommandKeepsCore(e, loops, cmd);
    } else if !e.stopped && cmd.SetIncomingSignal? {
      SignalKeepsCore(e, loops, cmd);
    } else if !e.stopped && cmd.MaybeReconnect? {
      ReconnectKeepsCore(e, loops, cmd);
    } else {
      PlainKeepsCore(e, loops, cmd);
    }
  }
}
