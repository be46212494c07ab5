/** What holds over every run of the whole call system. */
module CallProperties {
  import opened CallCore
  import opened CallInvariant
  import opened CallMoves
  import opened CallSystem
  import opened EngineModel
  import opened PeerLoopModel
  import opened Signals
  import opened Wrappers

  // ------------------------------------------------------------------
  // Runs
  // ------------------------------------------------------------------

  lemma NextAt(run: Run, i: nat)
    requires i < |run.evs|
    ensures run.states[i + 1] == SysStep(run.states[i], run.evs[i])
  {
    assert StepFollows(run, i);
  }

  /** Peer ids have not wrapped yet. */
  predicate WithinIds(run: Run) {
    |run.states[|run.evs|].engine.made| <= PEER_IDS
  }

  lemma HandOverMakesNone(e: EngineState, user: UserId, signal: Signal)
    ensures HandOver(e, user, signal).made == e.made
  {
  }

  /** Incarnations are never forgotten. */
  lemma HandleGrows(e: EngineState, cmd: Command)
    ensures e.made <= Handle(e, cmd).made
  {
    if !e.stopped {
      match cmd
      case SetIncomingSignal(user, call, signal) =>
        if IsCurrentCall(e, call) && RecreatesFor(e, user, signal) {
          RecreateMakesOne(e, user, call);
          HandOverMakesNone(Recreate(e, user, call), user, signal);
        } else {
          HandOverMakesNone(e, user, signal);
        }
      case MaybeReconnect(t) =>
        if TimerApplies(e, t) {
          RecreateMakesOne(e, t.user, t.call);
        }
      case _ =>
    }
  }

  lemma StepGrows(s: Sys, ev: SysEvent)
    ensures s.engine.made <= SysStep(s, ev).engine.made
  {
    if ev.Process? && s.queue != [] {
      HandleGrows(s.engine, s.queue[0]);
    }
  }

  lemma {:induction false} RunGrows(run: Run, i: nat, j: nat)
    requires i <= j <= |run.evs|
    ensures run.states[i].engine.made <= run.states[j].engine.made
    decreases j
  {
    if i < j {
      RunGrows(run, i, j - 1);
      NextGrows(run, j - 1);
    }
  }

  lemma NextGrows(run: Run, i: nat)
    requires i < |run.evs|
    ensures run.states[i].engine.made <= run.states[i + 1].engine.made
  {
    NextAt(run, i);
    StepGrows(run.states[i], run.evs[i]);
  }

  lemma WithinAt(run: Run, i: nat)
    requires WithinIds(run) && i <= |run.evs|
    ensures |run.states[i].engine.made| <= PEER_IDS
    ensures i > 0 ==> |run.states[i - 1].engine.made| <= |run.states[i].engine.made|
  {
    RunGrows(run, i, |run.evs|);
    if i > 0 {
      NextGrows(run, i - 1);
    }
  }

  /** The invariant holds in every state of a run, as long as ids have not wrapped. */
  lemma {:induction false} ReachableInv(run: Run, i: nat)
    requires WithinIds(run) && i <= |run.evs|
    ensures Inv(run.states[i])
  {
    if i > 0 {
      WithinAt(run, i);
      ReachableInv(run, i - 1);
      NextAt(run, i - 1);
      StepKeepsInv(run.states[i - 1], run.evs[i - 1]);
    }
  }

  lemma StepKeepsStructure(s: Sys, ev: SysEvent)
    requires EngineInv(s.engine)
    ensures EngineInv(SysStep(s, ev).engine)
  {
    if ev.Process? && s.queue != [] {
      HandleKeepsEngine(s.engine, s.queue[0]);
    }
  }

  /** Peers and their states go together, nobody waits in both places, nothing outlives the call,
      and the remote control that every new peer needs is there: in any run whatsoever. */
  lemma {:induction false} StructureAlwaysHolds(run: Run, i: nat)
    requires i <= |run.evs|
    ensures EngineInv(run.states[i].engine)
  {
    if i > 0 {
      StructureAlwaysHolds(run, i - 1);
      NextAt(run, i - 1);
      StepKeepsStructure(run.states[i - 1], run.evs[i - 1]);
    }
  }

  // ------------------------------------------------------------------
  // Stale messages
  // ------------------------------------------------------------------

  lemma ProcessRetires(s: Sys, id: nat)
    requires Inv(s) && s.queue != [] && !s.engine.stopped && |Handle(s.engine, s.queue[0]).made| <= PEER_IDS
    requires id < |s.engine.made| && !Live(s.engine, id)
    ensures !Live(Handle(s.engine, s.queue[0]), id)
  {
    var e, cmd := s.engine, s.queue[0];
    HandleMoves(e, s.loops, cmd);
    if Live(Handle(e, cmd), id) {
      StaysLive(e, Handle(e, cmd), s.loops, cmd, id);
    }
  }

  lemma StepRetires(s: Sys, ev: SysEvent, id: nat)
    requires Inv(s) && |SysStep(s, ev).engine.made| <= PEER_IDS
    requires id < |s.engine.made| && !Live(s.engine, id)
    ensures !Live(SysStep(s, ev).engine, id)
  {
    if ev.Process? && s.queue != [] && !s.engine.stopped {
      ProcessRetires(s, id);
    } else {
      OnlyEngineRemoves(s, ev);
    }
  }

  lemma OnlyEngineRemoves(s: Sys, ev: SysEvent)
    requires Inv(s) && (!ev.Process? || s.queue == [] || s.engine.stopped)
    ensures SysStep(s, ev).engine.peers == s.engine.peers
  {
    if !ev.Process? {
      OtherIsQuiet(s, ev);
    }
  }

  ghost predicate RetiredAt(run: Run, i: nat, id: nat) {
    i <= |run.evs| && id < |run.states[i].engine.made| && !Live(run.states[i].engine, id)
  }

  lemma NextRetired(run: Run, i: nat, id: nat)
    requires WithinIds(run) && i < |run.evs| && RetiredAt(run, i, id)
    ensures RetiredAt(run, i + 1, id)
  {
    ReachableInv(run, i);
    ReachableInv(run, i + 1);
    NextAt(run, i);
    NextGrows(run, i);
    StepRetires(run.states[i], run.evs[i], id);
  }

  /** An incarnation that has been discarded never comes back. */
  lemma {:induction false} RetiredForGood(run: Run, i: nat, j: nat, id: nat)
    requires WithinIds(run) && i <= j <= |run.evs| && RetiredAt(run, i, id)
    ensures RetiredAt(run, j, id)
    decreases j
  {
    if i < j {
      RetiredForGood(run, i, j - 1, id);
      NextRetired(run, j - 1, id);
    }
  }

  predicate About(cmd: Command, id: nat) {
    (cmd.MaybeReconnect? && cmd.timer.peer == id) || (cmd.PeerStateChange? && cmd.peer == id)
  }

  /** A timer or a report of a discarded incarnation changes nothing, however late it comes and
      whoever the user's peer is by then, also after leaving and joining the same call again. */
  lemma StaleCommandsIgnored(run: Run, i: nat, j: nat, id: nat, cmd: Command)
    requires WithinIds(run) && i <= j <= |run.evs| && RetiredAt(run, i, id) && About(cmd, id)
    ensures Handle(run.states[j].engine, cmd) == run.states[j].engine
  {
    RetiredForGood(run, i, j, id);
  }

  /** The engine takes a command at step `i`. */
  ghost predicate TakesAt(run: Run, i: nat) {
    i < |run.evs| && run.evs[i] == Process && run.states[i].queue != [] && !run.states[i].engine.stopped
  }

  /** The engine takes, at step `i`, a timer's command that makes it replace incarnation `id`. */
  ghost predicate ReplacesAt(run: Run, i: nat, id: nat) {
    TakesAt(run, i) &&
    var cmd := run.states[i].queue[0];
    Supplants(run.states[i].engine, cmd) && cmd.timer.peer == id
  }

  lemma SupplantRetires(s: Sys, e': EngineState)
    requires Inv(s) && !s.engine.stopped && s.queue != [] && Supplants(s.engine, s.queue[0])
    requires e' == Handle(s.engine, s.queue[0]) && |e'.made| <= PEER_IDS
    ensures var id := s.queue[0].timer.peer;
            id < |s.engine.made| && !Live(e', id)
  {
    var e, cmd := s.engine, s.queue[0];
    HandleMoves(e, s.loops, cmd);
    if Live(e', cmd.timer.peer) {
      StaysLive(e, e', s.loops, cmd, cmd.timer.peer);
    }
  }

  /** Where the engine takes a command, what comes next is what handling it gives. */
  lemma TakenAt(run: Run, i: nat)
    requires TakesAt(run, i)
    ensures run.states[i + 1].engine == Handle(run.states[i].engine, run.states[i].queue[0])
  {
    NextAt(run, i);
  }

  /** Timers replace an incarnation at most once, and never while it is believed Connected. */
  lemma ReplacedAtMostOnce(run: Run, i: nat, j: nat, id: nat)
    requires WithinIds(run) && ReplacesAt(run, i, id) && ReplacesAt(run, j, id)
    ensures i == j
    ensures var e := run.states[i].engine;
            exists u :: u in e.states && u in e.peers && e.peers[u].id == id && e.states[u].connection != Connected
  {
    var u := run.states[i].queue[0].timer.user;
    assert u in run.states[i].engine.states;
    if i < j {
      ReplacedStaysAway(run, i, j, id);
    } else if j < i {
      ReplacedStaysAway(run, j, i, id);
    }
  }

  lemma SupplantedAt(run: Run, i: nat)
    requires WithinIds(run) && TakesAt(run, i) && Supplants(run.states[i].engine, run.states[i].queue[0])
    ensures var id := run.states[i].queue[0].timer.peer;
            id < |run.states[i].engine.made| && !Live(run.states[i + 1].engine, id)
  {
    ReachableInv(run, i);
    WithinAt(run, i + 1);
    TakenAt(run, i);
    SupplantRetires(run.states[i], run.states[i + 1].engine);
  }

  lemma ReplacedIsRetired(run: Run, i: nat, id: nat)
    requires WithinIds(run) && ReplacesAt(run, i, id)
    ensures RetiredAt(run, i + 1, id)
  {
    SupplantedAt(run, i);
    WithinAt(run, i + 1);
  }

  lemma ReplacedStaysAway(run: Run, i: nat, j: nat, id: nat)
    requires WithinIds(run) && ReplacesAt(run, i, id) && i < j < |run.evs|
    ensures RetiredAt(run, j, id)
  {
    ReplacedIsRetired(run, i, id);
    RetiredForGood(run, i + 1, j, id);
  }

  // ------------------------------------------------------------------
  // What the engine believes
  // ------------------------------------------------------------------

  lemma TurnConnects(s: Sys, turned: nat, lev: LoopEvent, id: nat)
    requires Numbered(s) && turned < |s.loops| && id < |s.loops|
    ensures TurnLoop(s, turned, lev).loops[id].state == Connected
        <==> s.loops[id].state == Connected
             || (id == turned && lev == RtcConnected && s.loops[id].signalingStarted && !s.loops[id].ended)
  {
    StepNeedsTransport(s.loops[turned], turned, s.engine.made[turned].user, lev);
  }

  lemma StepConnects(s: Sys, ev: SysEvent, id: nat)
    requires Inv(s) && id < |SysStep(s, ev).loops| && |SysStep(s, ev).engine.made| <= PEER_IDS
    ensures SysStep(s, ev).loops[id].state == Connected
        ==> (id < |s.loops| && s.loops[id].state == Connected) || ev == LoopTurn(id, RtcConnected)
    ensures id < |s.loops| && s.loops[id].state == Connected ==> SysStep(s, ev).loops[id].state == Connected
  {
    match ev
    case LoopTurn(turned, lev) =>
      if turned < |s.loops| && !lev.RemoteSignal? {
        TurnConnects(s, turned, lev, id);
      }
    case HandSignal(i, ok, answer) =>
      if i < |s.engine.handed| && i !in s.delivered && s.engine.handed[i].peer < |s.loops| {
        TurnConnects(s, s.engine.handed[i].peer, RemoteSignal(s.engine.handed[i].signal, ok, answer), id);
      }
    case _ =>
  }

  ghost predicate TransportConnected(run: Run, j: nat, id: nat)
    requires j <= |run.evs|
  {
    exists i | 0 <= i < j :: run.evs[i] == LoopTurn(id, RtcConnected)
  }

  predicate ConnectedAt(run: Run, i: nat, id: nat) {
    i <= |run.evs| && id < |run.states[i].loops| && run.states[i].loops[id].state == Connected
  }

  lemma NextConnected(run: Run, i: nat, id: nat)
    requires WithinIds(run) && i < |run.evs|
    ensures ConnectedAt(run, i, id) ==> ConnectedAt(run, i + 1, id)
    ensures ConnectedAt(run, i + 1, id) ==> ConnectedAt(run, i, id) || run.evs[i] == LoopTurn(id, RtcConnected)
  {
    ReachableInv(run, i);
    ReachableInv(run, i + 1);
    NextAt(run, i);
    NextGrows(run, i);
    if id < |run.states[i + 1].loops| {
      StepConnects(run.states[i], run.evs[i], id);
    }
  }

  lemma {:induction false} ConnectedHasCause(run: Run, j: nat, id: nat)
    requires WithinIds(run) && ConnectedAt(run, j, id)
    ensures TransportConnected(run, j, id)
  {
    if j > 0 {
      NextConnected(run, j - 1, id);
      if ConnectedAt(run, j - 1, id) {
        ConnectedHasCause(run, j - 1, id);
      }
    }
  }

  lemma {:induction false} ConnectedStays(run: Run, i: nat, j: nat, id: nat)
    requires WithinIds(run) && ConnectedAt(run, i, id) && i <= j <= |run.evs|
    ensures ConnectedAt(run, j, id)
    decreases j
  {
    if i < j {
      ConnectedStays(run, i, j - 1, id);
      NextConnected(run, j - 1, id);
    }
  }

  predicate BelievedConnected(e: EngineState, u: UserId) {
    u in e.peers && u in e.states && (e.states[u].connection == Connected || e.states[u].establishedOnce)
  }

  /** Nothing says Connected of an incarnation, in the engine or on its way there, before that
      incarnation's transport has connected; and its own loop then stays Connected. */
  lemma ConnectedIsTrue(run: Run, j: nat, u: UserId, cmd: Command)
    requires WithinIds(run) && j <= |run.evs|
    ensures var s := run.states[j];
            BelievedConnected(s.engine, u) ==> TransportConnected(run, j, s.engine.peers[u].id)
    ensures var s := run.states[j];
            cmd in s.queue && cmd.PeerStateChange? && cmd.state == Connected ==> TransportConnected(run, j, cmd.peer)
  {
    ReachableInv(run, j);
    var s := run.states[j];
    if BelievedConnected(s.engine, u) {
      ConnectedHasCause(run, j, s.engine.peers[u].id);
    }
    if cmd in s.queue && cmd.PeerStateChange? && cmd.state == Connected {
      assert MessageOk(s.engine, s.loops, cmd);
      ConnectedHasCause(run, j, cmd.peer);
    }
  }

  // ------------------------------------------------------------------
  // Nobody is stranded
  // ------------------------------------------------------------------

  /** The InitialFailure timer of `id` comes due at step `i` and finds it has connected. */
  ghost predicate SettlesAt(run: Run, i: nat, id: nat) {
    TakesAt(run, i) && Settles(run.states[i].engine, run.states[i].queue[0]) && run.states[i].queue[0].timer.peer == id
  }

  lemma NextSettled(run: Run, i: nat, id: nat)
    requires i < |run.evs|
    ensures id in run.states[i + 1].settled <==> id in run.states[i].settled || SettlesAt(run, i, id)
  {
    NextAt(run, i);
  }

  lemma {:induction false} SettledMeans(run: Run, j: nat, id: nat)
    requires j <= |run.evs|
    ensures id in run.states[j].settled <==> exists i :: 0 <= i < j && SettlesAt(run, i, id)
  {
    if j > 0 {
      SettledMeans(run, j - 1, id);
      NextSettled(run, j - 1, id);
    }
  }

  lemma FailureTimerReplaces(e: EngineState, u: UserId)
    requires EngineInv(e) && u in e.peers
    ensures e.callId.Some? &&
            (Supplants(e, MaybeReconnect(Timer(u, e.callId.value, e.peers[u].id, InitialFailure)))
             <==> !BelievedConnected(e, u))
  {
  }

  lemma SettledHadConnected(run: Run, j: nat, id: nat)
    requires WithinIds(run) && j <= |run.evs| && id in run.states[j].settled
    ensures exists i :: 0 <= i < j && SettlesAt(run, i, id)
    ensures TransportConnected(run, j, id)
  {
    SettledMeans(run, j, id);
    var i :| 0 <= i < j && SettlesAt(run, i, id);
    ReachableInv(run, i);
    ConnectedHasCause(run, i, id);
  }

  lemma OffererWatched(s: Sys, u: UserId)
    requires Inv(s) && u in s.engine.peers && s.engine.peers[u].initialOfferer
    ensures EngineInv(s.engine) && s.engine.callId.Some?
    ensures var t := Timer(u, s.engine.callId.value, s.engine.peers[u].id, InitialFailure);
            Outstanding(s.engine, s.queue, t) || t.peer in s.settled
  {
  }

  /** An initial offerer in a call either still has its InitialFailure timer to come, or that timer
      came when the incarnation had connected. Were it to come now, it would replace the peer
      exactly if nothing yet says the peer has connected. */
  lemma NoOffererStranded(run: Run, j: nat, u: UserId)
    requires WithinIds(run) && j <= |run.evs|
    requires u in run.states[j].engine.peers && run.states[j].engine.peers[u].initialOfferer
    ensures var s := run.states[j];
            var id := s.engine.peers[u].id;
            s.engine.callId.Some? &&
            var t := Timer(u, s.engine.callId.value, id, InitialFailure);
            && (Supplants(s.engine, MaybeReconnect(t)) <==> !BelievedConnected(s.engine, u))
            && ( || Outstanding(s.engine, s.queue, t)
                 || ((exists i :: 0 <= i < j && SettlesAt(run, i, id)) && TransportConnected(run, j, id)))
  {
    ReachableInv(run, j);
    var s := run.states[j];
    OffererWatched(s, u);
    FailureTimerReplaces(s.engine, u);
    if s.engine.peers[u].id in s.settled {
      SettledHadConnected(run, j, s.engine.peers[u].id);
    }
  }

  // ------------------------------------------------------------------
  // Disconnections
  // ------------------------------------------------------------------

  ghost predicate ReportsAt(run: Run, i: nat, id: nat) {
    TakesAt(run, i) && Reports(run.states[i].engine, run.states[i].queue[0]) && run.states[i].queue[0].peer == id
  }

  ghost predicate DisconnectsAt(run: Run, i: nat, id: nat) {
    ReportsAt(run, i, id) && run.states[i].queue[0].iceState == Some(IceDisconnected)
  }

  ghost predicate ConnectsAt(run: Run, i: nat, id: nat) {
    ReportsAt(run, i, id) && run.states[i].queue[0].state == Connected
  }

  /** ICE Disconnected has been reported of `id`, and nothing Connected since. */
  ghost predicate LastDisconnected(run: Run, j: nat, id: nat) {
    exists i :: 0 <= i < j && DisconnectsAt(run, i, id) && forall k | i < k < j :: !ConnectsAt(run, k, id)
  }

  lemma ReportIsConsistent(e: EngineState, loops: seq<LoopState>, queue: seq<Command>)
    requires Messages(e, loops, queue) && queue != [] && queue[0].PeerStateChange?
    ensures queue[0].iceState == Some(IceDisconnected) ==> queue[0].state != Connected
  {
    assert MessageOk(e, loops, queue[0]);
  }

  lemma NextAwaiting(run: Run, i: nat, id: nat)
    requires WithinIds(run) && i < |run.evs|
    ensures id in run.states[i + 1].awaiting
        <==> DisconnectsAt(run, i, id) || (id in run.states[i].awaiting && !ConnectsAt(run, i, id))
    ensures !(DisconnectsAt(run, i, id) && ConnectsAt(run, i, id))
  {
    NextAt(run, i);
    if ReportsAt(run, i, id) {
      ReachableInv(run, i);
      ReportIsConsistent(run.states[i].engine, run.states[i].loops, run.states[i].queue);
    }
  }

  lemma NextLastDisconnected(run: Run, j: nat, id: nat)
    ensures LastDisconnected(run, j + 1, id)
        <==> DisconnectsAt(run, j, id) || (LastDisconnected(run, j, id) && !ConnectsAt(run, j, id))
  {
    if LastDisconnected(run, j, id) && !ConnectsAt(run, j, id) {
      var i :| 0 <= i < j && DisconnectsAt(run, i, id) && forall k | i < k < j :: !ConnectsAt(run, k, id);
      assert forall k | i < k < j + 1 :: !ConnectsAt(run, k, id);
    }
  }

  lemma {:induction false} AwaitingMeans(run: Run, j: nat, id: nat)
    requires WithinIds(run) && j <= |run.evs|
    ensures id in run.states[j].awaiting <==> LastDisconnected(run, j, id)
  {
    if j > 0 {
      AwaitingMeans(run, j - 1, id);
      NextAwaiting(run, j - 1, id);
      NextLastDisconnected(run, j - 1, id);
    }
  }

  /** While a user's peer is disconnected and has not been reported Connected since, a Disconnect
      timer is still to come, and were it to come now it would replace the peer. */
  lemma DisconnectedIsWatched(run: Run, j: nat, u: UserId)
    requires WithinIds(run) && j <= |run.evs|
    requires u in run.states[j].engine.peers && LastDisconnected(run, j, run.states[j].engine.peers[u].id)
    ensures var s := run.states[j];
            s.engine.callId.Some? &&
            var t := Timer(u, s.engine.callId.value, s.engine.peers[u].id, Disconnect);
            Outstanding(s.engine, s.queue, t) && Supplants(s.engine, MaybeReconnect(t))
  {
    ReachableInv(run, j);
    AwaitingMeans(run, j, run.states[j].engine.peers[u].id);
  }

  // ------------------------------------------------------------------
  // Negotiation
  // ------------------------------------------------------------------

  /** No incarnation is handed two offers; the engine knows which have had one; a loop applies at
      most one answer, and only if it made the offer. */
  lemma NegotiatedOnce(run: Run, j: nat, u: UserId, id: nat)
    requires WithinIds(run) && j <= |run.evs|
    ensures OfferedOnce(run.states[j].engine.handed)
    ensures var e := run.states[j].engine;
            u in e.peers && u in e.states ==>
              (e.states[u].gotFirstOffer <==> HandedOffer(e.handed, e.peers[u].id))
    ensures var s := run.states[j];
            id < |s.loops| && id < |s.engine.made| ==>
              s.loops[id].answersApplied <= (if s.engine.made[id].initialOfferer then 1 else 0)
  {
    ReachableInv(run, j);
  }
}
