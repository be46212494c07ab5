/** Who is in the call, in which role, and whether the engine still runs: decided by explicit
    commands alone, whatever timers, offers and reports do in between. */
module CallRoster {
  import opened CallProperties
  import opened CallSystem
  import opened EngineModel
  import opened PeerLoopModel
  import opened Signals
  import opened Wrappers

  /** Every user's initial-offerer role, as the user interface sees the call. */
  datatype Roster = Roster(call: Option<CallId>, roles: map<UserId, bool>, stopped: bool)

  function RosterOf(e: EngineState): Roster {
    Roster(e.callId, Roles(e.states), e.stopped)
  }

  function Roles(states: map<UserId, PeerState>): map<UserId, bool> {
    map u | u in states :: states[u].initialOfferer
  }

  predicate Explicit(cmd: Command) {
    cmd.Join? || cmd.Leave? || cmd.AddPeer? || cmd.RemovePeer? || cmd.SendSignal?
  }

  function RosterStep(r: Roster, cmd: Command): Roster {
    if r.stopped then r
    else
      match cmd
      case Join(call) => Roster(Some(call), map[], false)
      case Leave => Roster(None, map[], false)
      case AddPeer(user, call, role) => if r.call == Some(call) then r.(roles := r.roles[user := role]) else r
      case RemovePeer(user, call) => if r.call == Some(call) then r.(roles := r.roles - {user}) else r
      case SendSignal(_, _) => r.(stopped := r.call.None?)
      case _ => r
  }

  lemma RolesSet(states: map<UserId, PeerState>, user: UserId, p: PeerState)
    ensures Roles(states[user := p]) == Roles(states)[user := p.initialOfferer]
  {
  }

  lemma RolesDrop(states: map<UserId, PeerState>, user: UserId)
    ensures Roles(states - {user}) == Roles(states) - {user}
  {
  }

  lemma RolesSame(states: map<UserId, PeerState>, user: UserId, p: PeerState)
    requires user in states && p.initialOfferer == states[user].initialOfferer
    ensures Roles(states[user := p]) == Roles(states)
  {
  }

  lemma RolesBack(roles: map<UserId, bool>, user: UserId)
    requires user in roles
    ensures (roles - {user})[user := roles[user]] == roles
  {
  }

  /** Replacing a peer keeps its role. */
  lemma RecreateKeepsRoles(e: EngineState, user: UserId, call: CallId)
    requires IsCurrentCall(e, call) && user in e.states
    ensures RosterOf(Recreate(e, user, call)) == RosterOf(e)
  {
    RolesDrop(e.states, user);
    RolesSet(e.states - {user}, user, NewPeerState(e.states[user].initialOfferer));
    RolesBack(Roles(e.states), user);
  }

  lemma HandOverKeepsRoles(e: EngineState, user: UserId, signal: Signal)
    ensures RosterOf(HandOver(e, user, signal)) == RosterOf(e)
  {
    if user in e.states {
      RolesSame(e.states, user, Mark(e.states[user], signal));
    }
  }

  lemma SignalKeepsRoles(e: EngineState, user: UserId, call: CallId, signal: Signal)
    ensures RosterOf(DoSetIncomingSignal(e, user, call, signal)) == RosterOf(e)
  {
    if IsCurrentCall(e, call) {
      if RecreatesFor(e, user, signal) {
        RecreateKeepsRoles(e, user, call);
        HandOverKeepsRoles(Recreate(e, user, call), user, signal);
      } else {
        HandOverKeepsRoles(e, user, signal);
      }
    }
  }

  lemma ReconnectKeepsRoles(e: EngineState, t: Timer)
    ensures RosterOf(DoMaybeReconnect(e, t)) == RosterOf(e)
  {
    if TimerApplies(e, t) {
      RecreateKeepsRoles(e, t.user, t.call);
    }
  }

  lemma ReportKeepsRoles(e: EngineState, cmd: Command)
    requires cmd.PeerStateChange?
    ensures RosterOf(DoPeerStateChange(e, cmd.user, cmd.peer, cmd.state, cmd.iceState)) == RosterOf(e)
  {
    if cmd.user in e.states {
      RolesSame(e.states, cmd.user, UpdatePeerState(e.states[cmd.user], cmd.state, cmd.iceState));
    }
  }

  lemma MemberRefines(e: EngineState, cmd: Command)
    requires !e.stopped && (cmd.AddPeer? || cmd.RemovePeer?)
    ensures RosterOf(Handle(e, cmd)) == RosterStep(RosterOf(e), cmd)
  {
    if cmd.AddPeer? {
      RolesSet(e.states, cmd.user, NewPeerState(cmd.initialOfferer));
    } else {
      RolesDrop(e.states, cmd.user);
    }
  }

  /** The engine refines its roster. */
  lemma RosterRefines(e: EngineState, cmd: Command)
    ensures RosterOf(Handle(e, cmd)) == RosterStep(RosterOf(e), cmd)
  {
    if !e.stopped {
      match cmd
      case AddPeer(_, _, _) => MemberRefines(e, cmd);
      case RemovePeer(_, _) => MemberRefines(e, cmd);
      case SetIncomingSignal(user, call, signal) => SignalKeepsRoles(e, user, call, signal);
      case MaybeReconnect(t) => ReconnectKeepsRoles(e, t);
      case PeerStateChange(_, _, _, _) => ReportKeepsRoles(e, cmd);
      case _ =>
    }
  }

  // ------------------------------------------------------------------
  // Over runs
  // ------------------------------------------------------------------

  /** The roster after `j` steps of a run, made by its explicit commands alone. */
  ghost function ExplicitRoster(run: Run, j: nat): Roster
    requires j <= |run.evs|
  {
    if j == 0 then RosterOf(INITIAL_ENGINE)
    else
      var before := ExplicitRoster(run, j - 1);
      if TakesAt(run, j - 1) && Explicit(run.states[j - 1].queue[0]) then
        RosterStep(before, run.states[j - 1].queue[0])
      else before
  }

  lemma StepRoster(s: Sys, ev: SysEvent)
    ensures RosterOf(SysStep(s, ev).engine)
         == if ev == Process && s.queue != [] && !s.engine.stopped then RosterStep(RosterOf(s.engine), s.queue[0])
            else RosterOf(s.engine)
  {
    if ev == Process && s.queue != [] {
      RosterRefines(s.engine, s.queue[0]);
    }
  }

  /** What the engine takes at a step is all that can change its roster. */
  lemma NextRoster(run: Run, i: nat)
    requires i < |run.evs|
    ensures RosterOf(run.states[i + 1].engine)
         == if TakesAt(run, i) then RosterStep(RosterOf(run.states[i].engine), run.states[i].queue[0])
            else RosterOf(run.states[i].engine)
  {
    NextAt(run, i);
    StepRoster(run.states[i], run.evs[i]);
  }

  /** In any run the call, its members and their roles are what the explicit commands made them:
      timers, offers and reports, with all the peers they replace, leave no trace in it. */
  lemma {:induction false} OnlyExplicitCommandsCount(run: Run, j: nat)
    requires j <= |run.evs|
    ensures RosterOf(run.states[j].engine) == ExplicitRoster(run, j)
  {
    if j > 0 {
      OnlyExplicitCommandsCount(run, j - 1);
      NextRoster(run, j - 1);
    }
  }

  // ------------------------------------------------------------------
  // The end of the engine
  // ------------------------------------------------------------------

  ghost predicate SendsOutsideCallAt(run: Run, i: nat) {
    TakesAt(run, i) && run.states[i].queue[0].SendSignal? && run.states[i].engine.callId.None?
  }

  lemma NextStopped(run: Run, i: nat)
    requires i < |run.evs|
    ensures run.states[i + 1].engine.stopped <==> run.states[i].engine.stopped || SendsOutsideCallAt(run, i)
  {
    NextAt(run, i);
    StepRoster(run.states[i], run.evs[i]);
  }

  /** The command loop has ended exactly if a signal to send was taken while in no call; there is
      no way back. */
  lemma {:induction false} StopsExactly(run: Run, j: nat)
    requires j <= |run.evs|
    ensures run.states[j].engine.stopped <==> exists i :: 0 <= i < j && SendsOutsideCallAt(run, i)
  {
    if j > 0 {
      StopsExactly(run, j - 1);
      NextStopped(run, j - 1);
    }
  }

  ghost predicate JustJoined(s: Sys, call: CallId) {
    !s.engine.stopped && s.queue == [] && s.engine.callId == Some(call) && s.engine.made == [] && s.loops == []
  }

  /** In a call with one initial offerer, whose loop has not started yet. */
  ghost predicate JustAdded(s: Sys, u: UserId) {
    && !s.engine.stopped && s.queue == []
    && |s.engine.made| == 1 && s.engine.made[0].user == u
    && s.loops == [NewLoop(true)]
  }

  /** The user wants to leave, and the offer is behind that in the queue. */
  ghost predicate AboutToLeave(s: Sys, u: UserId, offer: string) {
    !s.engine.stopped && s.queue == [Leave, SendSignal(u, SdpSignal(Offer(offer)))]
  }

  lemma JoinsAt(run: Run, call: CallId)
    requires 2 <= |run.evs| && run.evs[0] == FromUi(Join(call)) && run.evs[1] == Process
    ensures JustJoined(run.states[2], call)
  {
    NextAt(run, 0);
    NextAt(run, 1);
    assert run.states[1].queue == [Join(call)] && run.states[1].engine == INITIAL_ENGINE;
  }

  lemma AddsAt(run: Run, i: nat, u: UserId, call: CallId)
    requires i + 2 <= |run.evs| && run.evs[i] == FromUi(AddPeer(u, call, true)) && run.evs[i + 1] == Process
    requires JustJoined(run.states[i], call)
    ensures JustAdded(run.states[i + 2], u)
  {
    NextAt(run, i);
    NextAt(run, i + 1);
    var e := run.states[i].engine;
    assert run.states[i + 1].queue == [AddPeer(u, call, true)] && run.states[i + 1].engine == e;
    assert DoAddPeer(e, u, true, call).made[|e.made|..] == [Made(u, call, true)];
    assert NewLoops([Made(u, call, true)]) == [NewLoop(true)];
  }

  lemma OffersLateAt(run: Run, i: nat, u: UserId, offer: string)
    requires i + 2 <= |run.evs| && run.evs[i] == FromUi(Leave) && run.evs[i + 1] == LoopTurn(0, Start(offer))
    requires JustAdded(run.states[i], u)
    ensures AboutToLeave(run.states[i + 2], u, offer)
  {
    NextAt(run, i);
    NextAt(run, i + 1);
    assert run.states[i + 1].queue == [Leave];
  }

  lemma EndsAt(run: Run, i: nat, u: UserId, offer: string)
    requires i + 2 <= |run.evs| && run.evs[i] == Process && run.evs[i + 1] == Process
    requires AboutToLeave(run.states[i], u, offer)
    ensures !run.states[i + 1].engine.stopped && run.states[i + 2].engine.stopped
  {
    NextAt(run, i);
    NextAt(run, i + 1);
    assert run.states[i + 1].queue == [SendSignal(u, SdpSignal(Offer(offer)))];
  }

  ghost predicate EndsWithLastStep(run: Run) {
    var n := |run.evs|;
    0 < n && !run.states[n - 1].engine.stopped && run.states[n].engine.stopped
  }

  /** It does happen: a peer sends its offer when the user's wish to leave is already queued. */
  lemma LeavingCanStopTheEngine(u: UserId, call: CallId, offer: string)
    ensures exists run: Run :: |run.evs| == 8 && EndsWithLastStep(run)
  {
    var run := RunOf([FromUi(Join(call)), Process, FromUi(AddPeer(u, call, true)), Process,
                      FromUi(Leave), LoopTurn(0, Start(offer)), Process, Process]);
    JoinsAt(run, call);
    AddsAt(run, 2, u, call);
    OffersLateAt(run, 4, u, offer);
    EndsAt(run, 6, u, offer);
    assert EndsWithLastStep(run);
  }
}
