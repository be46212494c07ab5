/** What a command does to the peers it does not create, and which timers it leaves running. */
module CallMoves {
  import opened CallCore
  import opened CallSystem
  import opened EngineModel
  import opened PeerLoopModel
  import opened Signals
  import opened Wrappers

  /** The same incarnation before and after; only a report may change what is believed of it. */
  ghost predicate Kept(e: EngineState, e': EngineState, reported: bool, u: UserId) {
    && u in e.peers && u in e.states && u in e'.peers && u in e'.states
    && e'.peers[u] == e.peers[u] && e'.callId == e.callId
    && (!reported ==> e'.states[u].connection == e.states[u].connection)
  }

  /** An incarnation made by this command. */
  ghost predicate Fresh(e: EngineState, e': EngineState, u: UserId) {
    && u in e'.peers && e'.callId.Some? && |e.made| <= e'.peers[u].id
    && (e'.peers[u].initialOfferer ==> Timer(u, e'.callId.value, e'.peers[u].id, InitialFailure) in e'.timers)
  }

  ghost predicate NewTimersOk(e: EngineState, e': EngineState) {
    forall t | t in e'.timers :: t in e.timers || TimerOk(e', t)
  }

  predicate Grows(e: EngineState, e': EngineState) {
    e.made <= e'.made && |e'.made| <= |e.made| + 1 && e.timers <= e'.timers
  }

  ghost predicate KeptOrFresh(e: EngineState, e': EngineState, reported: Option<UserId>) {
    forall u | u in e'.peers :: Kept(e, e', reported == Some(u), u) || Fresh(e, e', u)
  }

  ghost predicate Moves(e: EngineState, e': EngineState, reported: Option<UserId>) {
    Grows(e, e') && NewTimersOk(e, e') && KeptOrFresh(e, e', reported)
  }

  /** A user whose peer is no new incarnation has the peer it had. */
  lemma OldIsKept(e: EngineState, e': EngineState, reported: Option<UserId>, u: UserId)
    requires KeptOrFresh(e, e', reported) && u in e'.peers && e'.peers[u].id < |e.made|
    ensures Kept(e, e', reported == Some(u), u)
  {
  }

  lemma AddMoves(e: EngineState, loops: seq<LoopState>, user: UserId, initialOfferer: bool, call: CallId)
    requires EngineInv(e) && Ids(e, loops) && IsCurrentCall(e, call) && |e.made| < PEER_IDS
    ensures Moves(e, DoAddPeer(e, user, initialOfferer, call), None)
  {
    AddKeepsOthers(e, loops, user, initialOfferer, call);
    AddGrows(e, loops, user, initialOfferer, call);
  }

  lemma AddKeepsOthers(e: EngineState, loops: seq<LoopState>, user: UserId, initialOfferer: bool, call: CallId)
    requires EngineInv(e) && Ids(e, loops) && IsCurrentCall(e, call) && |e.made| < PEER_IDS
    ensures KeptOrFresh(e, DoAddPeer(e, user, initialOfferer, call), None)
  {
  }

  lemma AddGrows(e: EngineState, loops: seq<LoopState>, user: UserId, initialOfferer: bool, call: CallId)
    requires Ids(e, loops) && IsCurrentCall(e, call) && |e.made| < PEER_IDS
    ensures var e' := DoAddPeer(e, user, initialOfferer, call);
            Grows(e, e') && NewTimersOk(e, e')
  {
    var e1 := CreatePeer(e, user, initialOfferer, call);
    assert e1.peers[user].id == |e.made| && e1.made[|e.made|] == Made(user, call, initialOfferer);
    if initialOfferer {
      StartGrows(e, e1, user, DidNotGetFirstSignal);
      StartGrows(e, StartTimer(e1, user, DidNotGetFirstSignal), user, InitialFailure);
    }
  }

  /** Starting a timer for a peer that is known to the engine. */
  lemma StartGrows(e: EngineState, e1: EngineState, user: UserId, c: ReconnectCase)
    requires Grows(e, e1) && NewTimersOk(e, e1) && e1.callId.Some? && user in e1.peers
    requires TimerOk(e1, Timer(user, e1.callId.value, e1.peers[user].id, c))
    ensures Grows(e, StartTimer(e1, user, c)) && NewTimersOk(e, StartTimer(e1, user, c))
  {
  }

  /** Forgetting peers first changes nothing about how the others move. */
  lemma ForgettingMoves(e: EngineState, e1: EngineState, e': EngineState)
    requires e1.made == e.made && e1.timers == e.timers && e1.callId == e.callId
    requires forall u | u in e1.peers :: u in e.peers && e1.peers[u] == e.peers[u]
    requires forall u | u in e1.states :: u in e.states && e1.states[u] == e.states[u]
    requires Moves(e1, e', None)
    ensures Moves(e, e', None)
  {
    forall u | u in e'.peers
      ensures Kept(e, e', false, u) || Fresh(e, e', u)
    {
      assert Kept(e1, e', false, u) || Fresh(e1, e', u);
    }
  }

  lemma RecreateMoves(e: EngineState, loops: seq<LoopState>, user: UserId, call: CallId)
    requires Core(e, loops) && IsCurrentCall(e, call) && user in e.states && |e.made| < PEER_IDS
    ensures Moves(e, Recreate(e, user, call), None)
  {
    var e1 := DoRemovePeer(e, user, call);
    RemoveKeepsCore(e, loops, user, call);
    AddMoves(e1, loops, user, e.states[user].initialOfferer, call);
    ForgettingMoves(e, e1, Recreate(e, user, call));
  }

  lemma RecreateMakesFresh(e: EngineState, loops: seq<LoopState>, user: UserId, call: CallId)
    requires Ids(e, loops) && IsCurrentCall(e, call) && user in e.states && |e.made| < PEER_IDS
    ensures Fresh(e, Recreate(e, user, call), user)
  {
  }

  lemma HandOverMoves(e: EngineState, e1: EngineState, user: UserId, signal: Signal)
    requires EngineInv(e1) && Moves(e, e1, None)
    ensures Moves(e, HandOver(e1, user, signal), None)
  {
  }

  lemma RemoveMoves(e: EngineState, user: UserId, call: CallId)
    requires EngineInv(e)
    ensures Moves(e, DoRemovePeer(e, user, call), None)
  {
  }

  lemma StayMoves(e: EngineState, e': EngineState)
    requires EngineInv(e) && SameShape(e, e') && e'.timers == e.timers
    ensures Moves(e, e', None)
  {
  }

  lemma ReportMoves(e: EngineState, loops: seq<LoopState>, cmd: Command)
    requires EngineInv(e) && Ids(e, loops) && cmd.PeerStateChange? && !e.stopped
    ensures Moves(e, Handle(e, cmd), ReportedUser(e, cmd))
  {
    if Reports(e, cmd) {
      ReportGrows(e, loops, cmd);
      ReportKeepsOthers(e, cmd);
    } else {
      StayMoves(e, e);
    }
  }

  lemma ReportKeepsOthers(e: EngineState, cmd: Command)
    requires EngineInv(e) && cmd.PeerStateChange? && !e.stopped && Reports(e, cmd)
    ensures KeptOrFresh(e, Handle(e, cmd), Some(cmd.user))
  {
    NoteKeepsEngine(e, cmd.user, cmd.state, cmd.iceState);
  }

  lemma ReportGrows(e: EngineState, loops: seq<LoopState>, cmd: Command)
    requires EngineInv(e) && Ids(e, loops) && cmd.PeerStateChange? && !e.stopped && Reports(e, cmd)
    ensures Grows(e, Handle(e, cmd)) && NewTimersOk(e, Handle(e, cmd))
  {
  }

  /** The user whose peer a report that counts is about. */
  function ReportedUser(e: EngineState, cmd: Command): Option<UserId> {
    if Reports(e, cmd) then Some(cmd.user) else None
  }

  lemma SignalMoves(e: EngineState, loops: seq<LoopState>, cmd: Command)
    requires Core(e, loops) && !e.stopped && cmd.SetIncomingSignal? && |Handle(e, cmd).made| <= PEER_IDS
    ensures Moves(e, Handle(e, cmd), None)
  {
    var user, call, signal := cmd.user, cmd.call, cmd.signal;
    if IsCurrentCall(e, call) && RecreatesFor(e, user, signal) {
      RecreateMakesOne(e, user, call);
      RecreateMoves(e, loops, user, call);
      RecreateKeepsEngine(e, user, call);
      HandOverMoves(e, Recreate(e, user, call), user, signal);
    } else {
      StayMoves(e, e);
      HandOverMoves(e, e, user, signal);
    }
  }

  lemma ReconnectMoves(e: EngineState, loops: seq<LoopState>, cmd: Command)
    requires Core(e, loops) && !e.stopped && cmd.MaybeReconnect? && |Handle(e, cmd).made| <= PEER_IDS
    ensures Moves(e, Handle(e, cmd), None)
  {
    if Supplants(e, cmd) {
      SupplantMoves(e, loops, cmd);
    } else {
      StayMoves(e, Handle(e, cmd));
    }
  }

  lemma SupplantMoves(e: EngineState, loops: seq<LoopState>, cmd: Command)
    requires Core(e, loops) && !e.stopped && Supplants(e, cmd) && |Handle(e, cmd).made| <= PEER_IDS
    ensures Moves(e, Handle(e, cmd), None)
    ensures Fresh(e, Handle(e, cmd), cmd.timer.user)
  {
    RecreateMakesOne(e, cmd.timer.user, cmd.timer.call);
    RecreateMoves(e, loops, cmd.timer.user, cmd.timer.call);
    RecreateMakesFresh(e, loops, cmd.timer.user, cmd.timer.call);
  }

  lemma PlainMoves(e: EngineState, loops: seq<LoopState>, cmd: Command)
    requires Core(e, loops)
    requires e.stopped || (!cmd.AddPeer? && !cmd.SetIncomingSignal? && !cmd.MaybeReconnect? && !cmd.PeerStateChange?)
    ensures Moves(e, Handle(e, cmd), None)
  {
    if !e.stopped && cmd.RemovePeer? {
      RemoveMoves(e, cmd.user, cmd.call);
    } else if e.stopped || cmd.SendSignal? || cmd.OtherCommand? {
      StayMoves(e, Handle(e, cmd));
    }
  }

  lemma AddCommandMoves(e: EngineState, loops: seq<LoopState>, cmd: Command)
    requires Core(e, loops) && !e.stopped && cmd.AddPeer? && |Handle(e, cmd).made| <= PEER_IDS
    ensures Moves(e, Handle(e, cmd), None)
  {
    StayMoves(e, e);
    if IsCurrentCall(e, cmd.call) {
      AddMoves(e, loops, cmd.user, cmd.initialOfferer, cmd.call);
    }
  }

  lemma HandleMoves(e: EngineState, loops: seq<LoopState>, cmd: Command)
    requires Core(e, loops) && !e.stopped && |Handle(e, cmd).made| <= PEER_IDS
    ensures Moves(e, Handle(e, cmd), ReportedUser(e, cmd))
  {
    if cmd.AddPeer? {
      AddCommandMoves(e, loops, cmd);
    } else if cmd.SetIncomingSignal? {
      SignalMoves(e, loops, cmd);
    } else if cmd.MaybeReconnect? {
      ReconnectMoves(e, loops, cmd);
    } else if cmd.PeerStateChange? {
      ReportMoves(e, loops, cmd);
    } else {
      PlainMoves(e, loops, cmd);
    }
  }
}
