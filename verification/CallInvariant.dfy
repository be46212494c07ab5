/** Every step of the whole call system keeps the invariant. */
module CallInvariant {
  import opened CallCore
  import opened CallMoves
  import opened CallSystem
  import opened EngineModel
  import opened PeerLoopModel
  import opened Signals
  import opened Wrappers

  // ------------------------------------------------------------------
  // The engine takes a command
  // ------------------------------------------------------------------

  /** Loops only move forward. */
  ghost predicate Advance(loops: seq<LoopState>, loops': seq<LoopState>) {
    && |loops| <= |loops'|
    && forall id | 0 <= id < |loops| :: loops[id].state == Connected ==> loops'[id].state == Connected
  }

  lemma MessageStays(e: EngineState, e': EngineState, loops: seq<LoopState>, loops': seq<LoopState>, cmd: Command)
    requires MessageOk(e, loops, cmd) && e.made <= e'.made && Advance(loops, loops')
    ensures MessageOk(e', loops', cmd)
  {
  }

  lemma MessagesStay(e: EngineState, e': EngineState, loops: seq<LoopState>, loops': seq<LoopState>,
                     queue: seq<Command>, queue': seq<Command>)
    requires Messages(e, loops, queue) && e.made <= e'.made && Advance(loops, loops')
    requires forall t | t in e'.timers :: t in e.timers || TimerOk(e', t)
    requires forall cmd | cmd in queue' :: cmd in queue || MessageOk(e', loops', cmd)
    ensures Messages(e', loops', queue')
  {
    forall cmd | cmd in queue'
      ensures MessageOk(e', loops', cmd)
    {
      if cmd in queue {
        MessageStays(e, e', loops, loops', cmd);
      }
    }
  }

  lemma ProcessKeepsMessages(s: Sys)
    requires Inv(s) && s.queue != [] && !s.engine.stopped
    requires Moves(s.engine, Handle(s.engine, s.queue[0]), ReportedUser(s.engine, s.queue[0]))
    ensures var s' := ProcessOne(s);
            Messages(s'.engine, s'.loops, s'.queue)
  {
    var s' := ProcessOne(s);
    assert Advance(s.loops, s'.loops);
    MessagesStay(s.engine, s'.engine, s.loops, s'.loops, s.queue, s'.queue);
  }

  /** A timer that was outstanding still is, unless the engine has just taken its command. */
  lemma StillOutstanding(e: EngineState, e': EngineState, queue: seq<Command>, t: Timer)
    requires queue != [] && Outstanding(e, queue, t) && e.timers <= e'.timers && queue[0] != MaybeReconnect(t)
    ensures Outstanding(e', queue[1..], t)
  {
    assert queue == [queue[0]] + queue[1..];
    assert t in e.timers ==> t in e'.timers;
  }

  /** What a replaced user has now is not what it had. */
  lemma SupplantedIsGone(e: EngineState, loops: seq<LoopState>, cmd: Command)
    requires Core(e, loops) && !e.stopped && |Handle(e, cmd).made| <= PEER_IDS && Supplants(e, cmd)
    ensures !Kept(e, Handle(e, cmd), false, cmd.timer.user)
  {
    SupplantMoves(e, loops, cmd);
  }

  /** What the engine's step from `e` to `e'` on the oldest command is known to be. */
  ghost predicate Takes(e: EngineState, e': EngineState, loops: seq<LoopState>, queue: seq<Command>) {
    && queue != [] && !e.stopped && e' == Handle(e, queue[0]) && |e'.made| <= PEER_IDS
    && Core(e, loops) && Messages(e, loops, queue)
    && Moves(e, e', ReportedUser(e, queue[0]))
  }

  /** The InitialFailure timer of a kept peer is called off only because of a connection. */
  lemma FailureTimerTaken(e: EngineState, loops: seq<LoopState>, cmd: Command)
    requires Core(e, loops) && !e.stopped && |Handle(e, cmd).made| <= PEER_IDS
    requires cmd.MaybeReconnect? && cmd.timer.case_ == InitialFailure
    requires TimerApplies(e, cmd.timer) && Kept(e, Handle(e, cmd), false, cmd.timer.user)
    ensures Settles(e, cmd)
  {
    if Supplants(e, cmd) {
      SupplantedIsGone(e, loops, cmd);
    }
  }

  lemma OffererStaysWatched(e: EngineState, e': EngineState, loops: seq<LoopState>, queue: seq<Command>,
                            settled: set<nat>, u: UserId)
    requires Takes(e, e', loops, queue) && FailureWatched(e, queue, settled)
    requires u in e'.peers && e'.peers[u].initialOfferer && e'.callId.Some?
    ensures var t := Timer(u, e'.callId.value, e'.peers[u].id, InitialFailure);
            || Outstanding(e', queue[1..], t) || t.peer in settled
            || (Settles(e, queue[0]) && queue[0].timer == t)
  {
    var cmd := queue[0];
    var t := Timer(u, e'.callId.value, e'.peers[u].id, InitialFailure);
    if Kept(e, e', ReportedUser(e, cmd) == Some(u), u) && t.peer !in settled {
      if cmd == MaybeReconnect(t) {
        FailureTimerTaken(e, loops, cmd);
      } else {
        StillOutstanding(e, e', queue, t);
      }
    }
  }

  /** What a report leaves of its own peer. */
  lemma ReportedState(e: EngineState, cmd: Command)
    requires EngineInv(e) && !e.stopped && Reports(e, cmd)
    ensures var e' := Handle(e, cmd);
            && cmd.user in e'.states && e'.states[cmd.user].connection == cmd.state
            && (cmd.iceState == Some(IceDisconnected) ==>
                  Timer(cmd.user, e.callId.value, cmd.peer, Disconnect) in e'.timers)
  {
  }

  /** A peer that is not being reported on keeps its timer. */
  lemma UnreportedStaysWatched(e: EngineState, loops: seq<LoopState>, queue: seq<Command>, t: Timer)
    requires Core(e, loops) && !e.stopped && queue != [] && |Handle(e, queue[0]).made| <= PEER_IDS
    requires e.timers <= Handle(e, queue[0]).timers && Kept(e, Handle(e, queue[0]), false, t.user)
    requires e.callId == Some(t.call) && e.peers[t.user].id == t.peer && t.case_ == Disconnect
    requires e.states[t.user].connection != Connected && Outstanding(e, queue, t)
    ensures Outstanding(Handle(e, queue[0]), queue[1..], t)
  {
    if queue[0] == MaybeReconnect(t) {
      assert Supplants(e, queue[0]);
      SupplantedIsGone(e, loops, queue[0]);
    } else {
      StillOutstanding(e, Handle(e, queue[0]), queue, t);
    }
  }

  lemma ReportedStaysWatched(e: EngineState, loops: seq<LoopState>, queue: seq<Command>, awaiting: set<nat>)
    requires EngineInv(e) && queue != [] && !e.stopped && Reports(e, queue[0])
    requires Messages(e, loops, queue) && DisconnectWatched(e, queue, awaiting)
    requires queue[0].peer in Awaiting(e, awaiting, queue[0]) && e.timers <= Handle(e, queue[0]).timers
    ensures var e' := Handle(e, queue[0]);
            && queue[0].user in e'.states && e'.states[queue[0].user].connection != Connected
            && Outstanding(e', queue[1..], Timer(queue[0].user, e.callId.value, queue[0].peer, Disconnect))
  {
    var cmd := queue[0];
    assert MessageOk(e, loops, cmd);
    ReportedState(e, cmd);
    if cmd.iceState != Some(IceDisconnected) {
      StillOutstanding(e, Handle(e, cmd), queue, Timer(cmd.user, e.callId.value, cmd.peer, Disconnect));
    }
  }

  lemma AwaitedIsOld(e: EngineState, queue: seq<Command>, awaiting: set<nat>)
    requires DisconnectWatched(e, queue, awaiting) && queue != []
    requires forall u | u in e.peers :: e.peers[u].id < |e.made|
    ensures forall id | id in Awaiting(e, awaiting, queue[0]) :: id < |e.made|
  {
  }

  lemma AwaitedStaysWatched(e: EngineState, e': EngineState, loops: seq<LoopState>, queue: seq<Command>,
                            awaiting: set<nat>, u: UserId)
    requires Takes(e, e', loops, queue) && DisconnectWatched(e, queue, awaiting)
    requires u in e'.peers && u in e'.states && e'.callId.Some? && e'.peers[u].id in Awaiting(e, awaiting, queue[0])
    ensures e'.states[u].connection != Connected
    ensures Outstanding(e', queue[1..], Timer(u, e'.callId.value, e'.peers[u].id, Disconnect))
  {
    var cmd := queue[0];
    AwaitedIsOld(e, queue, awaiting);
    OldIsKept(e, e', ReportedUser(e, cmd), u);
    if ReportedUser(e, cmd) == Some(u) {
      ReportedStaysWatched(e, loops, queue, awaiting);
    } else {
      StillAwaited(e, awaiting, cmd, u);
      UnreportedStaysWatched(e, loops, queue, Timer(u, e.callId.value, e.peers[u].id, Disconnect));
    }
  }

  lemma StillAwaited(e: EngineState, awaiting: set<nat>, cmd: Command, u: UserId)
    requires forall v | v in e.peers :: e.peers[v].id < |e.made| && e.made[e.peers[v].id].user == v
    requires u in e.peers && e.peers[u].id in Awaiting(e, awaiting, cmd) && ReportedUser(e, cmd) != Some(u)
    ensures e.peers[u].id in awaiting
  {
  }

  /** A command brings no old incarnation back, and a replaced one is gone. */
  lemma StaysLive(e: EngineState, e': EngineState, loops: seq<LoopState>, cmd: Command, id: nat)
    requires Core(e, loops) && !e.stopped && e' == Handle(e, cmd) && |e'.made| <= PEER_IDS
    requires Moves(e, e', ReportedUser(e, cmd)) && id < |e.made| && Live(e', id)
    ensures Live(e, id) && !(Supplants(e, cmd) && id == cmd.timer.peer)
  {
    var u :| u in e'.peers && e'.peers[u].id == id;
    OldIsKept(e, e', ReportedUser(e, cmd), u);
    if Supplants(e, cmd) && id == cmd.timer.peer {
      assert e.made[id].user == u;
      SupplantedIsGone(e, loops, cmd);
    }
  }

  lemma ProcessKeepsInv(s: Sys)
    requires Inv(s) && s.queue != [] && !s.engine.stopped
    requires |Handle(s.engine, s.queue[0]).made| <= PEER_IDS
    ensures Inv(ProcessOne(s))
  {
    var e, cmd, s' := s.engine, s.queue[0], ProcessOne(s);
    assert cmd in s.queue;
    HandleKeepsCore(e, s.loops, cmd);
    HandleMoves(e, s.loops, cmd);
    ProcessKeepsMessages(s);
    KeepsFailureWatched(e, s'.engine, s.loops, s.queue, s.settled, s'.settled);
    KeepsDisconnectWatched(e, s'.engine, s.loops, s.queue, s.awaiting);
  }

  lemma KeepsFailureWatched(e: EngineState, e': EngineState, loops: seq<LoopState>, queue: seq<Command>,
                            settled: set<nat>, settled': set<nat>)
    requires Takes(e, e', loops, queue) && FailureWatched(e, queue, settled)
    requires settled' == if Settles(e, queue[0]) then settled + {queue[0].timer.peer} else settled
    ensures FailureWatched(e', queue[1..], settled')
  {
    forall u | u in e'.peers && e'.peers[u].initialOfferer && e'.callId.Some?
      ensures Outstanding(e', queue[1..], Timer(u, e'.callId.value, e'.peers[u].id, InitialFailure))
           || e'.peers[u].id in settled'
    {
      OffererStaysWatched(e, e', loops, queue, settled, u);
    }
  }

  lemma KeepsDisconnectWatched(e: EngineState, e': EngineState, loops: seq<LoopState>, queue: seq<Command>,
                               awaiting: set<nat>)
    requires Takes(e, e', loops, queue) && DisconnectWatched(e, queue, awaiting)
    requires e'.peers.Keys == e'.states.Keys
    ensures DisconnectWatched(e', queue[1..], Awaiting(e, awaiting, queue[0]))
  {
    AwaitedIsOld(e, queue, awaiting);
    forall u | u in e'.peers && e'.callId.Some? && e'.peers[u].id in Awaiting(e, awaiting, queue[0])
      ensures e'.states[u].connection != Connected
      ensures Outstanding(e', queue[1..], Timer(u, e'.callId.value, e'.peers[u].id, Disconnect))
    {
      AwaitedStaysWatched(e, e', loops, queue, awaiting, u);
    }
  }

  // ------------------------------------------------------------------
  // Everything else
  // ------------------------------------------------------------------

  /** What the other steps do: loops advance, timers move into the queue, messages are added. */
  ghost predicate Quiet(s: Sys, s': Sys) {
    && s'.engine == s.engine.(timers := s'.engine.timers, deferred := s'.engine.deferred)
    && s'.settled == s.settled && s'.awaiting == s.awaiting
    && |s'.loops| == |s.loops| && Advance(s.loops, s'.loops)
    && (forall id | 0 <= id < |s.loops| ::
          LoopInv(s'.loops[id]) && s'.loops[id].initialOfferer == s.loops[id].initialOfferer)
    && (forall cmd | cmd in s.queue :: cmd in s'.queue)
    && (forall cmd | cmd in s'.queue :: cmd in s.queue || MessageOk(s.engine, s'.loops, cmd))
    && (forall t | t in s'.engine.timers :: t in s.engine.timers)
    && (forall t | t in s.engine.timers :: Outstanding(s'.engine, s'.queue, t))
  }

  lemma QuietKeepsInv(s: Sys, s': Sys)
    requires Inv(s) && Quiet(s, s')
    ensures Inv(s')
  {
    QuietKeepsCore(s, s');
    QuietKeepsMessages(s, s');
    QuietKeepsWatched(s, s');
  }

  lemma QuietKeepsCore(s: Sys, s': Sys)
    requires Inv(s) && Quiet(s, s')
    ensures Core(s'.engine, s'.loops)
  {
  }

  lemma QuietKeepsMessages(s: Sys, s': Sys)
    requires Inv(s) && Quiet(s, s')
    ensures Messages(s'.engine, s'.loops, s'.queue)
  {
    forall cmd | cmd in s'.queue
      ensures MessageOk(s'.engine, s'.loops, cmd)
    {
      if cmd in s.queue {
        MessageStays(s.engine, s'.engine, s.loops, s'.loops, cmd);
      }
    }
  }

  lemma QuietKeepsWatched(s: Sys, s': Sys)
    requires Inv(s) && Quiet(s, s')
    ensures FailureWatched(s'.engine, s'.queue, s'.settled) && DisconnectWatched(s'.engine, s'.queue, s'.awaiting)
  {
    assert forall t | Outstanding(s.engine, s.queue, t) :: Outstanding(s'.engine, s'.queue, t);
  }

  /** A loop's turn: it moves forward and tells the engine only what is so. */
  lemma TurnIsQuiet(s: Sys, id: nat, ev: LoopEvent)
    requires Numbered(s) && id < |s.loops|
    ensures Quiet(s, TurnLoop(s, id, ev))
  {
    SentIsTrue(s, id, ev);
    var (l, sent) := LoopStep(s.loops[id], id, s.engine.made[id].user, ev);
    LoopIsQuiet(s, id, l, sent);
    TurnIs(s, id, ev);
  }

  lemma TurnIs(s: Sys, id: nat, ev: LoopEvent)
    requires Numbered(s) && id < |s.loops|
    ensures var (l, sent) := LoopStep(s.loops[id], id, s.engine.made[id].user, ev);
            TurnLoop(s, id, ev) == s.(loops := s.loops[id := l], queue := TrySend(s.queue, sent))
  {
  }

  ghost predicate LoopsOk(loops: seq<LoopState>) {
    forall id | 0 <= id < |loops| :: LoopInv(loops[id])
  }

  ghost predicate Numbered(s: Sys) {
    |s.loops| == |s.engine.made| <= PEER_IDS && LoopsOk(s.loops)
  }

  lemma SentIsTrue(s: Sys, id: nat, ev: LoopEvent)
    requires Numbered(s) && id < |s.loops|
    ensures var (l, sent) := LoopStep(s.loops[id], id, s.engine.made[id].user, ev);
            && LoopInv(l) && l.initialOfferer == s.loops[id].initialOfferer
            && (s.loops[id].state == Connected ==> l.state == Connected)
            && (forall cmd | cmd in sent :: MessageOk(s.engine, s.loops[id := l], cmd))
  {
    var user := s.engine.made[id].user;
    LoopStepKeeps(s.loops[id], id, user, ev);
    var (l, sent) := LoopStep(s.loops[id], id, user, ev);
    forall cmd | cmd in sent
      ensures MessageOk(s.engine, s.loops[id := l], cmd)
    {
      assert Truthful(l, id, user, cmd);
    }
  }

  lemma LoopIsQuiet(s: Sys, id: nat, l: LoopState, sent: seq<Command>)
    requires LoopsOk(s.loops) && id < |s.loops| && LoopInv(l) && l.initialOfferer == s.loops[id].initialOfferer
    requires s.loops[id].state == Connected ==> l.state == Connected
    requires forall cmd | cmd in sent :: MessageOk(s.engine, s.loops[id := l], cmd)
    ensures Quiet(s, s.(loops := s.loops[id := l], queue := TrySend(s.queue, sent)))
  {
  }

  lemma SignalIsQuiet(s: Sys, i: nat, ok: bool, answer: string)
    requires Numbered(s) && i < |s.engine.handed| && s.engine.handed[i].peer < |s.loops|
    ensures Quiet(s, SysStep(s, HandSignal(i, ok, answer))) || SysStep(s, HandSignal(i, ok, answer)) == s
  {
    TurnIsQuiet(s, s.engine.handed[i].peer, RemoteSignal(s.engine.handed[i].signal, ok, answer));
  }

  lemma OtherIsQuiet(s: Sys, ev: SysEvent)
    requires Numbered(s) && forall t | t in s.engine.timers :: TimerOk(s.engine, t)
    requires !ev.Process?
    ensures Quiet(s, SysStep(s, ev)) || SysStep(s, ev) == s
  {
    match ev
    case LoopTurn(id, lev) =>
      if id < |s.loops| && !lev.RemoteSignal? {
        TurnIsQuiet(s, id, lev);
      }
    case HandSignal(i, ok, answer) =>
      if i < |s.engine.handed| && s.engine.handed[i].peer < |s.loops| {
        SignalIsQuiet(s, i, ok, answer);
      }
    case _ => TaskIsQuiet(s, ev);
  }

  lemma StepKeepsInv(s: Sys, ev: SysEvent)
    requires Inv(s) && |SysStep(s, ev).engine.made| <= PEER_IDS
    ensures Inv(SysStep(s, ev))
  {
    if !ev.Process? {
      OtherIsQuiet(s, ev);
      if SysStep(s, ev) != s {
        QuietKeepsInv(s, SysStep(s, ev));
      }
    } else if s.queue != [] && !s.engine.stopped {
      ProcessKeepsInv(s);
    }
  }

  lemma SentIsQuiet(s: Sys, deferred: multiset<Deferred>, sent: seq<Command>)
    requires LoopsOk(s.loops) && forall cmd | cmd in sent :: MessageOk(s.engine, s.loops, cmd)
    ensures Quiet(s, s.(engine := s.engine.(deferred := deferred), queue := TrySend(s.queue, sent)))
  {
  }

  lemma FiringIsQuiet(s: Sys, t: Timer)
    requires LoopsOk(s.loops) && TimerOk(s.engine, t)
    ensures Quiet(s, SysStep(s, Fire(t)))
  {
    var s' := SysStep(s, Fire(t));
    forall t' | t' in s.engine.timers
      ensures Outstanding(s'.engine, s'.queue, t')
    {
      if s'.queue != s.queue && t' == t {
        assert s'.queue[|s.queue|] == MaybeReconnect(t);
      }
    }
  }

  lemma UiIsQuiet(s: Sys, cmd: Command)
    requires LoopsOk(s.loops)
    ensures Quiet(s, SysStep(s, FromUi(cmd)))
  {
    SentIsQuiet(s, s.engine.deferred, if FromOutside(cmd) then [cmd] else []);
  }

  lemma DeliveryIsQuiet(s: Sys, d: Deferred)
    requires LoopsOk(s.loops)
    ensures Quiet(s, SysStep(s, DeliverDeferred(d)))
  {
    var s' := SysStep(s, DeliverDeferred(d));
    if d in s.engine.deferred && d.signals != [] && |s.queue| < QUEUE_CAPACITY {
      SentIsQuiet(s, s'.engine.deferred, [SetIncomingSignal(d.user, d.call, d.signals[0])]);
    } else {
      SentIsQuiet(s, s.engine.deferred, []);
    }
  }

  lemma DropIsQuiet(s: Sys, d: Deferred)
    requires LoopsOk(s.loops)
    ensures Quiet(s, SysStep(s, DropDeferred(d)))
  {
    SentIsQuiet(s, SysStep(s, DropDeferred(d)).engine.deferred, []);
  }

  lemma TaskIsQuiet(s: Sys, ev: SysEvent)
    requires LoopsOk(s.loops) && forall t | t in s.engine.timers :: TimerOk(s.engine, t)
    requires !ev.Process? && !ev.LoopTurn? && !ev.HandSignal?
    ensures Quiet(s, SysStep(s, ev))
  {
    match ev
    case FromUi(cmd) => UiIsQuiet(s, cmd);
    case DeliverDeferred(d) => DeliveryIsQuiet(s, d);
    case DropDeferred(d) => DropIsQuiet(s, d);
    case Fire(t) =>
      if t in s.engine.timers {
        FiringIsQuiet(s, t);
      } else {
        SentIsQuiet(s, s.engine.deferred, []);
      }
  }
}
