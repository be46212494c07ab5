/** Why the number of incarnations matters: ids are 16 bits wide, and one incarnation more than
    there are ids brings a discarded one back. */
module CallBound {
  import opened CallProperties
  import opened CallSystem
  import opened EngineModel
  import opened Signals
  import opened Wrappers

  /** Joins, then adds the same user `n` times while no timer fires; this takes `i` steps. */
  ghost predicate Adds(run: Run, i: nat, u: UserId, call: CallId, n: nat) {
    && 2 <= i <= |run.evs|
    && if n == 0 then i == 2 && run.evs[0] == FromUi(Join(call)) && run.evs[1] == Process
       else 4 <= i && run.evs[i - 2] == FromUi(AddPeer(u, call, true)) && run.evs[i - 1] == Process
            && Adds(run, i - 2, u, call, n - 1)
  }

  function EventAt(u: UserId, call: CallId, i: nat): SysEvent {
    if i == 0 then FromUi(Join(call)) else if i % 2 == 1 then Process else FromUi(AddPeer(u, call, true))
  }

  lemma {:induction false} ThereAreAdds(run: Run, i: nat, u: UserId, call: CallId, n: nat)
    requires i == 2 + 2 * n <= |run.evs| && forall k: nat | k < |run.evs| :: run.evs[k] == EventAt(u, call, k)
    ensures Adds(run, i, u, call, n)
    decreases n
  {
    if n > 0 {
      ThereAreAdds(run, i - 2, u, call, n - 1);
      assert run.evs[i - 2] == EventAt(u, call, i - 2) && run.evs[i - 1] == EventAt(u, call, i - 1);
    }
  }

  ghost predicate AddedTo(e: EngineState, u: UserId, call: CallId, n: nat) {
    && !e.stopped && e.callId == Some(call)
    && |e.made| == n && e.nextPeerId == n % PEER_IDS
    && e.peers.Keys == e.states.Keys == (if n == 0 then {} else {u})
    && (n > 0 ==>
          && e.peers[u] == Peer((n - 1) % PEER_IDS, true)
          && e.states[u] == NewPeerState(true)
          && Timer(u, call, 0, InitialFailure) in e.timers)
  }

  ghost predicate Added(s: Sys, u: UserId, call: CallId, n: nat) {
    s.queue == [] && AddedTo(s.engine, u, call, n)
  }

  lemma JoinsFirst(run: Run, u: UserId, call: CallId)
    requires 2 <= |run.evs| && run.evs[0] == FromUi(Join(call)) && run.evs[1] == Process
    ensures AddedAt(run, 2, u, call, 0)
  {
    NextAt(run, 0);
    assert run.states[1].queue == [Join(call)];
    NextAt(run, 1);
  }

  lemma StartsBoth(e: EngineState, u: UserId, call: CallId)
    requires e.callId == Some(call) && u in e.peers
    ensures var e' := StartTimer(StartTimer(e, u, DidNotGetFirstSignal), u, InitialFailure);
            && e' == e.(timers := e'.timers)
            && (forall t | t in e.timers :: t in e'.timers)
            && Timer(u, call, e.peers[u].id, InitialFailure) in e'.timers
  {
  }

  lemma AddsToEngine(e: EngineState, u: UserId, call: CallId, n: nat)
    requires AddedTo(e, u, call, n)
    ensures AddedTo(DoAddPeer(e, u, true, call), u, call, n + 1)
  {
    var e1 := CreatePeer(e, u, true, call);
    assert e1.peers.Keys == {u} && e1.states.Keys == {u};
    assert e1.nextPeerId == (n + 1) % PEER_IDS && e1.peers[u].id == n % PEER_IDS;
    StartsBoth(e1, u, call);
  }

  lemma AddsOnce(s: Sys, u: UserId, call: CallId, n: nat)
    requires Added(s, u, call, n)
    ensures Added(SysStep(SysStep(s, FromUi(AddPeer(u, call, true))), Process), u, call, n + 1)
  {
    var s1 := SysStep(s, FromUi(AddPeer(u, call, true)));
    assert s1.queue == [AddPeer(u, call, true)] && s1.engine == s.engine;
    AddsToEngine(s.engine, u, call, n);
  }

  ghost predicate AddedAt(run: Run, i: nat, u: UserId, call: CallId, n: nat) {
    i <= |run.evs| && Added(run.states[i], u, call, n)
  }

  lemma AddsAt(run: Run, i: nat, u: UserId, call: CallId, n: nat)
    requires 2 <= i <= |run.evs| && run.evs[i - 2] == FromUi(AddPeer(u, call, true)) && run.evs[i - 1] == Process
    requires 0 < n && AddedAt(run, i - 2, u, call, n - 1)
    ensures AddedAt(run, i, u, call, n)
  {
    AddsOnce(run.states[i - 2], u, call, n - 1);
    NextAt(run, i - 2);
    NextAt(run, i - 1);
  }

  lemma {:induction false} AddsUpTo(run: Run, i: nat, u: UserId, call: CallId, n: nat)
    requires Adds(run, i, u, call, n)
    ensures AddedAt(run, i, u, call, n)
    decreases n
  {
    if n == 0 {
      JoinsFirst(run, u, call);
    } else {
      AddsUpTo(run, i - 2, u, call, n - 1);
      AddsAt(run, i, u, call, n);
    }
  }

  /** Incarnation 0 was discarded by step `i`, and its timer replaces somebody else's peer later. */
  ghost predicate Confused(run: Run, i: nat, t: Timer) {
    && RetiredAt(run, i, 0) && t.peer == 0 && t in run.states[i].engine.timers
    && Supplants(run.states[|run.evs|].engine, MaybeReconnect(t))
  }

  lemma Confuses(run: Run, u: UserId, call: CallId)
    requires AddedAt(run, 6, u, call, 2) && AddedAt(run, |run.evs|, u, call, PEER_IDS + 1)
    ensures Confused(run, 6, Timer(u, call, 0, InitialFailure))
    ensures |run.states[|run.evs|].engine.made| == PEER_IDS + 1
  {
    assert !Live(run.states[6].engine, 0);
  }

  /** With one incarnation more than there are ids, what holds of every shorter run fails. */
  lemma BoundIsTight(u: UserId, call: CallId)
    ensures exists run: Run, i, t :: Confused(run, i, t) && |run.states[|run.evs|].engine.made| == PEER_IDS + 1
  {
    var n := PEER_IDS + 1;
    var run := RunOf(seq(2 + 2 * n, i requires 0 <= i < 2 + 2 * n => EventAt(u, call, i)));
    ThereAreAdds(run, 6, u, call, 2);
    ThereAreAdds(run, 2 + 2 * n, u, call, n);
    AddsUpTo(run, 6, u, call, 2);
    AddsUpTo(run, 2 + 2 * n, u, call, n);
    Confuses(run, u, call);
  }
}
