/** What the engine has done after any run, told by the commands it has taken. */
module CallHistory {
  import opened CallEffects
  import opened CallInvariant
  import opened CallProperties
  import opened CallSystem
  import opened EngineModel
  import opened PeerLoopModel
  import opened Pending
  import opened Signals
  import opened Wrappers

  // ------------------------------------------------------------------
  // One step of a run
  // ------------------------------------------------------------------

  /** The parts that only the engine changes. */
  lemma NotTaken(run: Run, i: nat)
    requires i < |run.evs| && !TakesAt(run, i)
    ensures var e, e' := run.states[i].engine, run.states[i + 1].engine;
            e' == e.(timers := e'.timers, deferred := e'.deferred)
  {
    NextAt(run, i);
  }

  lemma EngineKnown(run: Run, i: nat)
    requires WithinIds(run) && i <= |run.evs|
    ensures var s := run.states[i];
            && EngineInv(s.engine) && Offers(s.engine) && Ids(s.engine, s.loops)
            && (|s.engine.made| < PEER_IDS ==> s.engine.nextPeerId == |s.engine.made|)
  {
    ReachableInv(run, i);
  }

  // ------------------------------------------------------------------
  // Logs
  // ------------------------------------------------------------------

  ghost function AllEmitted(run: Run, j: nat): seq<EngineEvent>
    requires j <= |run.evs|
  {
    if j == 0 then []
    else AllEmitted(run, j - 1)
         + if TakesAt(run, j - 1) then EmittedBy(run.states[j - 1].engine, run.states[j - 1].queue[0]) else []
  }

  /** In any run whatsoever the window is told exactly the signals taken to send in a call and the
      states reported of the peers there are, in order. */
  lemma {:induction false} EmittedExactly(run: Run, j: nat)
    requires j <= |run.evs|
    ensures run.states[j].engine.emitted == AllEmitted(run, j)
  {
    if j > 0 {
      EmittedExactly(run, j - 1);
      EmitStep(run, j - 1);
    }
  }

  lemma EmitStep(run: Run, i: nat)
    requires i < |run.evs|
    ensures run.states[i + 1].engine.emitted
         == run.states[i].engine.emitted
            + if TakesAt(run, i) then EmittedBy(run.states[i].engine, run.states[i].queue[0]) else []
  {
    if TakesAt(run, i) {
      StructureAlwaysHolds(run, i);
      TakenAt(run, i);
      HandleEmits(run.states[i].engine, run.states[i].queue[0]);
    } else {
      NotTaken(run, i);
    }
  }

  ghost function AllHanded(run: Run, j: nat): seq<Handed>
    requires j <= |run.evs|
  {
    if j == 0 then []
    else AllHanded(run, j - 1)
         + if TakesAt(run, j - 1) then HandedBy(run.states[j - 1].engine, run.states[j - 1].queue[0]) else []
  }

  /** Every signal taken in the current call for a user with a peer is handed to that peer, or to the
      one that replaces it if it is a second offer; nothing else is handed to any. */
  lemma {:induction false} HandedExactly(run: Run, j: nat)
    requires WithinIds(run) && j <= |run.evs|
    ensures run.states[j].engine.handed == AllHanded(run, j)
  {
    if j > 0 {
      HandedExactly(run, j - 1);
      HandStep(run, j - 1);
    }
  }

  lemma HandStep(run: Run, i: nat)
    requires WithinIds(run) && i < |run.evs|
    ensures run.states[i + 1].engine.handed
         == run.states[i].engine.handed
            + if TakesAt(run, i) then HandedBy(run.states[i].engine, run.states[i].queue[0]) else []
  {
    if TakesAt(run, i) {
      EngineKnown(run, i);
      TakenAt(run, i);
      HandleHands(run.states[i].engine, run.states[i].queue[0]);
    } else {
      NotTaken(run, i);
    }
  }

  ghost function AllMade(run: Run, j: nat): seq<Made>
    requires j <= |run.evs|
  {
    if j == 0 then []
    else AllMade(run, j - 1)
         + if TakesAt(run, j - 1) then MadeBy(run.states[j - 1].engine, run.states[j - 1].queue[0]) else []
  }

  /** Incarnations are made by adding a peer, by a second offer and by a timer that replaces, and by
      nothing else; a replaced one keeps user, call and role. */
  lemma {:induction false} MadeExactly(run: Run, j: nat)
    requires WithinIds(run) && j <= |run.evs|
    ensures run.states[j].engine.made == AllMade(run, j)
  {
    if j > 0 {
      MadeExactly(run, j - 1);
      MakeStep(run, j - 1);
    }
  }

  lemma MakeStep(run: Run, i: nat)
    requires WithinIds(run) && i < |run.evs|
    ensures run.states[i + 1].engine.made
         == run.states[i].engine.made
            + if TakesAt(run, i) then MadeBy(run.states[i].engine, run.states[i].queue[0]) else []
  {
    if TakesAt(run, i) {
      EngineKnown(run, i);
      TakenAt(run, i);
      HandleMakes(run.states[i].engine, run.states[i].queue[0]);
    } else {
      NotTaken(run, i);
    }
  }

  ghost function AllRestarts(run: Run, j: nat): seq<PeerId>
    requires j <= |run.evs|
  {
    if j == 0 then []
    else AllRestarts(run, j - 1)
         + if TakesAt(run, j - 1) then RestartsBy(run.states[j - 1].engine, run.states[j - 1].queue[0]) else []
  }

  /** In any run ICE is restarted exactly when such a timer comes due for a peer there is that is not
      connected and whose ICE is disconnected. */
  lemma {:induction false} RestartedExactly(run: Run, j: nat)
    requires j <= |run.evs|
    ensures run.states[j].engine.restarts == AllRestarts(run, j)
  {
    if j > 0 {
      RestartedExactly(run, j - 1);
      RestartStep(run, j - 1);
    }
  }

  lemma RestartStep(run: Run, i: nat)
    requires i < |run.evs|
    ensures run.states[i + 1].engine.restarts
         == run.states[i].engine.restarts
            + if TakesAt(run, i) then RestartsBy(run.states[i].engine, run.states[i].queue[0]) else []
  {
    if TakesAt(run, i) {
      StructureAlwaysHolds(run, i);
      TakenAt(run, i);
      HandleRestarts(run.states[i].engine, run.states[i].queue[0]);
    } else {
      NotTaken(run, i);
    }
  }

  // ------------------------------------------------------------------
  // Timers
  // ------------------------------------------------------------------

  ghost function Started(run: Run, j: nat): multiset<Timer>
    requires j <= |run.evs|
  {
    if j == 0 then multiset{}
    else Started(run, j - 1)
         + if TakesAt(run, j - 1) then TimersBy(run.states[j - 1].engine, run.states[j - 1].queue[0])
           else multiset{}
  }

  predicate FiresAt(run: Run, i: nat) {
    && i < |run.evs| && run.evs[i].Fire?
    && run.evs[i].timer in run.states[i].engine.timers && |run.states[i].queue| < QUEUE_CAPACITY
  }

  ghost function Fired(run: Run, j: nat): multiset<Timer>
    requires j <= |run.evs|
  {
    if j == 0 then multiset{}
    else Fired(run, j - 1) + if FiresAt(run, j - 1) then multiset{run.evs[j - 1].timer} else multiset{}
  }

  lemma FireStep(run: Run, i: nat)
    requires i < |run.evs| && !TakesAt(run, i)
    ensures var fired := if FiresAt(run, i) then multiset{run.evs[i].timer} else multiset{};
            run.states[i + 1].engine.timers + fired == run.states[i].engine.timers
    ensures FiresAt(run, i) ==>
              run.states[i + 1].queue == run.states[i].queue + [MaybeReconnect(run.evs[i].timer)]
  {
    NextAt(run, i);
  }

  lemma TimerStep(run: Run, i: nat)
    requires WithinIds(run) && TakesAt(run, i)
    ensures run.states[i + 1].engine.timers
         == run.states[i].engine.timers + TimersBy(run.states[i].engine, run.states[i].queue[0])
  {
    EngineKnown(run, i);
    TakenAt(run, i);
    HandleStarts(run.states[i].engine, run.states[i].queue[0]);
  }

  lemma MoveBetween(t: multiset<Timer>, f: multiset<Timer>, s: multiset<Timer>, t': multiset<Timer>,
                    started: multiset<Timer>, fired: multiset<Timer>)
    requires t + f == s && t' + fired == t + started
    ensures t' + (f + fired) == s + started
  {
    assert t' + (f + fired) == (t' + fired) + f;
    assert (t + started) + f == (t + f) + started;
  }

  ghost predicate TimersKept(run: Run, j: nat) {
    j <= |run.evs| && run.states[j].engine.timers + Fired(run, j) == Started(run, j)
  }

  lemma TimersMove(run: Run, i: nat)
    requires WithinIds(run) && i < |run.evs| && TimersKept(run, i)
    ensures TimersKept(run, i + 1)
  {
    var t, t' := run.states[i].engine.timers, run.states[i + 1].engine.timers;
    if TakesAt(run, i) {
      var started := TimersBy(run.states[i].engine, run.states[i].queue[0]);
      TimerStep(run, i);
      assert !FiresAt(run, i);
      MoveBetween(t, Fired(run, i), Started(run, i), t', started, multiset{});
    } else {
      var fired := if FiresAt(run, i) then multiset{run.evs[i].timer} else multiset{};
      FireStep(run, i);
      MoveBetween(t, Fired(run, i), Started(run, i), t', multiset{}, fired);
    }
  }

  /** Every timer started fires at most once, and until then it is outstanding: two for every
      incarnation that makes the offer, two for every disconnect reported of a peer there is. */
  lemma {:induction false} TimersAccounted(run: Run, j: nat)
    requires WithinIds(run) && j <= |run.evs|
    ensures TimersKept(run, j)
  {
    if j > 0 {
      TimersAccounted(run, j - 1);
      TimersMove(run, j - 1);
    }
  }

  // ------------------------------------------------------------------
  // Pending signals
  // ------------------------------------------------------------------

  /** The signals that have come for `u` in this call since it last had a peer. */
  ghost function WaitingFor(run: Run, j: nat, u: UserId): seq<Signal>
    requires j <= |run.evs|
  {
    if j == 0 then []
    else if TakesAt(run, j - 1) then
      WaitingAfter(run.states[j - 1].engine, u, WaitingFor(run, j - 1, u), run.states[j - 1].queue[0])
    else WaitingFor(run, j - 1, u)
  }

  /** In any run what is pending for a user is the first description that has come since it last had
      a peer, and the candidates after that one, in order. */
  lemma {:induction false} PendingExactly(run: Run, j: nat, u: UserId)
    requires j <= |run.evs|
    ensures PendingIs(run.states[j].engine, u, WaitingFor(run, j, u))
  {
    if j > 0 {
      PendingExactly(run, j - 1, u);
      PendingStep(run, j - 1, u, WaitingFor(run, j - 1, u));
    }
  }

  lemma PendingStep(run: Run, i: nat, u: UserId, waiting: seq<Signal>)
    requires i < |run.evs| && PendingIs(run.states[i].engine, u, waiting)
    ensures PendingIs(run.states[i + 1].engine, u,
                      if TakesAt(run, i) then
                        WaitingAfter(run.states[i].engine, u, waiting, run.states[i].queue[0])
                      else waiting)
  {
    if TakesAt(run, i) {
      StructureAlwaysHolds(run, i);
      TakenAt(run, i);
      HandleKeepsPending(run.states[i].engine, run.states[i].queue[0], u, waiting);
    } else {
      NotTaken(run, i);
    }
  }

  // ------------------------------------------------------------------
  // What is believed of a peer
  // ------------------------------------------------------------------

  /** What the reports that counted have said of an incarnation. */
  ghost function Reported(run: Run, j: nat, id: nat): Belief
    requires j <= |run.evs|
  {
    if j == 0 then NEW_BELIEF
    else if ReportsAt(run, j - 1, id) then Heard(Reported(run, j - 1, id), run.states[j - 1].queue[0])
    else Reported(run, j - 1, id)
  }

  lemma {:induction false} NothingReportedYet(run: Run, j: nat, id: nat)
    requires WithinIds(run) && j <= |run.evs|
    requires forall i: nat | i < j :: |run.states[i].engine.made| <= id
    ensures Reported(run, j, id) == NEW_BELIEF
  {
    if j > 0 {
      NothingReportedYet(run, j - 1, id);
      EngineKnown(run, j - 1);
    }
  }

  ghost predicate BelievesAt(run: Run, j: nat, u: UserId) {
    j <= |run.evs| &&
    var e := run.states[j].engine;
    u in e.peers ==> u in e.states && BeliefOf(e, u) == Reported(run, j, e.peers[u].id)
  }

  lemma ReportStep(run: Run, i: nat, u: UserId)
    requires WithinIds(run) && TakesAt(run, i) && u in run.states[i].engine.peers
    ensures ReportsAt(run, i, run.states[i].engine.peers[u].id)
        <==> Reports(run.states[i].engine, run.states[i].queue[0]) && run.states[i].queue[0].user == u
  {
    EngineKnown(run, i);
    var e, cmd := run.states[i].engine, run.states[i].queue[0];
    if Reports(e, cmd) && cmd.peer == e.peers[u].id {
      assert e.made[cmd.peer].user == u && e.made[cmd.peer].user == cmd.user;
    }
  }

  lemma NewIsUnreported(run: Run, i: nat, id: nat)
    requires WithinIds(run) && i < |run.evs| && id == |run.states[i].engine.made|
    ensures Reported(run, i + 1, id) == NEW_BELIEF
  {
    forall k: nat | k < i + 1
      ensures |run.states[k].engine.made| <= id
    {
      RunGrows(run, k, i);
    }
    NothingReportedYet(run, i + 1, id);
  }

  lemma BelieveTaken(run: Run, i: nat, u: UserId)
    requires WithinIds(run) && TakesAt(run, i) && BelievesAt(run, i, u)
    ensures BelievesAt(run, i + 1, u)
  {
    EngineKnown(run, i);
    TakenAt(run, i);
    WithinAt(run, i + 1);
    var e, e' := run.states[i].engine, run.states[i + 1].engine;
    HandleBelieves(e, run.states[i].queue[0], u);
    NewIsUnreported(run, i, |e.made|);
    if u in e.peers {
      ReportStep(run, i, u);
    }
  }

  /** The engine believes of a peer exactly what has last been reported of its incarnation; of a new
      one, nothing. */
  lemma {:induction false} BelievesReports(run: Run, j: nat, u: UserId)
    requires WithinIds(run) && j <= |run.evs|
    ensures BelievesAt(run, j, u)
  {
    if j > 0 {
      BelievesReports(run, j - 1, u);
      BelieveStep(run, j - 1, u);
    }
  }

  lemma BelieveStep(run: Run, i: nat, u: UserId)
    requires WithinIds(run) && i < |run.evs| && BelievesAt(run, i, u)
    ensures BelievesAt(run, i + 1, u)
  {
    if TakesAt(run, i) {
      BelieveTaken(run, i, u);
    } else {
      NotTaken(run, i);
    }
  }

  /** Exactly when a timer's command would replace the peer, told by what has been reported of its
      incarnation and handed to it: after a first-signal timer, for instance, if neither an offer nor
      an answer has been handed to it and nothing has said it is, or by ICE ever was, connected. */
  lemma TimerReplacesExactly(run: Run, j: nat, t: Timer)
    requires WithinIds(run) && j <= |run.evs|
    ensures var e, heard := run.states[j].engine, Reported(run, j, t.peer);
            Supplants(e, MaybeReconnect(t))
            <==> && e.callId == Some(t.call) && t.user in e.peers && e.peers[t.user].id == t.peer
                 && heard.connection != Connected
                 && match t.case_
                    case DidNotGetFirstSignal =>
                      !HandedOffer(e.handed, t.peer) && !HandedAnswer(e.handed, t.peer) && !heard.established
                    case InitialFailure => !heard.established
                    case TryIceRestart => false
                    case Disconnect => true
  {
    EngineKnown(run, j);
    BelievesReports(run, j, t.user);
    SupplantsMeans(run.states[j].engine, t);
  }

  /** Exactly when a timer's command would restart ICE. */
  lemma TimerRestartsExactly(run: Run, j: nat, t: Timer)
    requires WithinIds(run) && j <= |run.evs|
    ensures var e, heard := run.states[j].engine, Reported(run, j, t.peer);
            RestartsBy(e, MaybeReconnect(t))
            == if t.case_ == TryIceRestart
                  && e.callId == Some(t.call) && t.user in e.peers && e.peers[t.user].id == t.peer
                  && heard.connection != Connected && heard.ice == IceDisconnected
               then [t.peer] else []
  {
    EngineKnown(run, j);
    BelievesReports(run, j, t.user);
  }

  // ------------------------------------------------------------------
  // Deferred signals
  // ------------------------------------------------------------------

  /** The batch made for an incarnation, as it was when made. */
  ghost function BatchOf(run: Run, j: nat, id: nat): Option<Deferred>
    requires j <= |run.evs|
  {
    if j == 0 then None
    else
      var e := run.states[j - 1].engine;
      if TakesAt(run, j - 1) && e.nextPeerId == id && DeferredBy(e, run.states[j - 1].queue[0]) != multiset{} then
        var cmd := run.states[j - 1].queue[0];
        Some(Deferred(e.nextPeerId, cmd.user, cmd.call, e.pending[cmd.user], false))
      else BatchOf(run, j - 1, id)
  }

  /** A deferred signal for the incarnation comes back into the queue. */
  predicate ComesAt(run: Run, i: nat, id: nat) {
    && i < |run.evs| && run.evs[i].DeliverDeferred?
    && run.evs[i].batch in run.states[i].engine.deferred && run.evs[i].batch.signals != []
    && |run.states[i].queue| < QUEUE_CAPACITY && run.evs[i].batch.peer == id
  }

  function Came(run: Run, j: nat, id: nat): seq<Signal>
    requires j <= |run.evs|
  {
    if j == 0 then []
    else Came(run, j - 1, id) + if ComesAt(run, j - 1, id) then [run.evs[j - 1].batch.signals[0]] else []
  }

  ghost predicate NoBatch(deferred: multiset<Deferred>, id: nat) {
    forall d | d in deferred :: d.peer != id
  }

  ghost predicate OnlyBatch(deferred: multiset<Deferred>, id: nat, d: Deferred) {
    d.peer == id && deferred[d] == 1 && forall d' | d' in deferred && d'.peer == id :: d' == d
  }

  /** What has come of a batch and what is left of it are all of it, in order; or it was dropped
      before any of it came, and its incarnation was gone. */
  ghost predicate BatchKept(e: EngineState, id: nat, batch: Option<Deferred>, came: seq<Signal>) {
    match batch
    case None => NoBatch(e.deferred, id) && came == []
    case Some(whole) =>
      || (exists rest: seq<Signal> ::
            && OnlyBatch(e.deferred, id, whole.(signals := rest, begun := came != []))
            && whole.signals == came + rest)
      || (NoBatch(e.deferred, id) && came == [] && !Live(e, id))
  }

  lemma {:induction false} BatchIsOfMade(run: Run, j: nat, id: nat)
    requires WithinIds(run) && j <= |run.evs| && BatchOf(run, j, id).Some?
    ensures id < |run.states[j].engine.made|
  {
    if j > 0 {
      NextGrows(run, j - 1);
      EngineKnown(run, j - 1);
      if BatchOf(run, j - 1, id).Some? {
        BatchIsOfMade(run, j - 1, id);
      }
      if TakesAt(run, j - 1) && DeferredBy(run.states[j - 1].engine, run.states[j - 1].queue[0]) != multiset{} {
        DeferringMakes(run, j - 1);
      }
    }
  }

  /** A command that defers makes the incarnation it defers for. */
  lemma DeferringMakes(run: Run, i: nat)
    requires WithinIds(run) && TakesAt(run, i)
    requires DeferredBy(run.states[i].engine, run.states[i].queue[0]) != multiset{}
    ensures run.states[i].engine.nextPeerId == |run.states[i].engine.made|
    ensures |run.states[i + 1].engine.made| == |run.states[i].engine.made| + 1
  {
    MakeStep(run, i);
    WithinAt(run, i + 1);
    EngineKnown(run, i);
  }

  lemma DeferStep(run: Run, i: nat)
    requires WithinIds(run) && TakesAt(run, i)
    ensures run.states[i + 1].engine.deferred
         == run.states[i].engine.deferred + DeferredBy(run.states[i].engine, run.states[i].queue[0])
  {
    EngineKnown(run, i);
    TakenAt(run, i);
    HandleDefers(run.states[i].engine, run.states[i].queue[0]);
  }

  /** Other batches leave this one alone. */
  lemma OthersBatch(e: EngineState, e': EngineState, id: nat, batch: Option<Deferred>, came: seq<Signal>,
                    more: Deferred)
    requires BatchKept(e, id, batch, came) && e'.deferred == e.deferred + multiset{more} && more.peer != id
    requires batch.Some? && !Live(e, id) ==> !Live(e', id)
    ensures BatchKept(e', id, batch, came)
  {
    match batch
    case None =>
    case Some(whole) =>
      if rest: seq<Signal> :|
          && OnlyBatch(e.deferred, id, whole.(signals := rest, begun := came != []))
          && whole.signals == came + rest {
        assert OnlyBatch(e'.deferred, id, whole.(signals := rest, begun := came != []));
      }
  }

  lemma SameBatch(e: EngineState, e': EngineState, id: nat, batch: Option<Deferred>, came: seq<Signal>)
    requires BatchKept(e, id, batch, came) && e'.deferred == e.deferred
    requires batch.Some? && !Live(e, id) ==> !Live(e', id)
    ensures BatchKept(e', id, batch, came)
  {
  }

  lemma NewBatch(e: EngineState, e': EngineState, id: nat, d: Deferred)
    requires NoBatch(e.deferred, id) && e'.deferred == e.deferred + multiset{d} && d.peer == id && !d.begun
    ensures BatchKept(e', id, Some(d), [])
  {
    assert d.(signals := d.signals, begun := false) == d;
    assert OnlyBatch(e'.deferred, id, d);
    assert d.signals == [] + d.signals;
  }

  ghost predicate BatchKeptAt(run: Run, j: nat, id: nat) {
    j <= |run.evs| && BatchKept(run.states[j].engine, id, BatchOf(run, j, id), Came(run, j, id))
  }

  lemma NotLiveStays(run: Run, i: nat, id: nat)
    requires WithinIds(run) && i < |run.evs| && BatchOf(run, i, id).Some?
    ensures !Live(run.states[i].engine, id) ==> !Live(run.states[i + 1].engine, id)
  {
    BatchIsOfMade(run, i, id);
    if !Live(run.states[i].engine, id) {
      NextRetired(run, i, id);
    }
  }

  lemma TakenKeepsBatch(run: Run, i: nat, id: nat)
    requires WithinIds(run) && TakesAt(run, i) && BatchKeptAt(run, i, id)
    ensures BatchKeptAt(run, i + 1, id)
  {
    var e, e', cmd := run.states[i].engine, run.states[i + 1].engine, run.states[i].queue[0];
    DeferStep(run, i);
    assert Came(run, i, id) + [] == Came(run, i, id);
    if BatchOf(run, i, id).Some? {
      NotLiveStays(run, i, id);
    }
    if DeferredBy(e, cmd) == multiset{} {
      SameBatch(e, e', id, BatchOf(run, i, id), Came(run, i, id));
    } else {
      var d := Deferred(e.nextPeerId, cmd.user, cmd.call, e.pending[cmd.user], false);
      DeferringMakes(run, i);
      if e.nextPeerId == id {
        if BatchOf(run, i, id).Some? {
          BatchIsOfMade(run, i, id);
          assert false;
        }
        NewBatch(e, e', id, d);
      } else {
        OthersBatch(e, e', id, BatchOf(run, i, id), Came(run, i, id), d);
      }
    }
  }

  /** One signal of the batch comes. */
  lemma ComingKeepsBatch(e: EngineState, e': EngineState, id: nat, batch: Option<Deferred>, came: seq<Signal>,
                         d: Deferred)
    requires BatchKept(e, id, batch, came) && d in e.deferred && d.peer == id && d.signals != []
    requires e'.deferred == e.deferred - multiset{d} + multiset{Later(d)}
    ensures BatchKept(e', id, batch, came + [d.signals[0]])
    ensures batch.Some? && d.user == batch.value.user && d.call == batch.value.call
  {
    var whole := batch.value;
    var rest: seq<Signal> :|
      && OnlyBatch(e.deferred, id, whole.(signals := rest, begun := came != []))
      && whole.signals == came + rest;
    assert d == whole.(signals := rest, begun := came != []);
    assert came + rest == came + [rest[0]] + rest[1..];
    assert OnlyBatch(e'.deferred, id, Later(d));
    assert Later(d) == whole.(signals := rest[1..], begun := came + [rest[0]] != []);
  }

  lemma ComingOfOther(e: EngineState, e': EngineState, id: nat, batch: Option<Deferred>, came: seq<Signal>, d: Deferred)
    requires BatchKept(e, id, batch, came) && d in e.deferred && d.peer != id && d.signals != []
    requires e'.deferred == e.deferred - multiset{d} + multiset{Later(d)} && e'.peers == e.peers
    ensures BatchKept(e', id, batch, came)
  {
    match batch
    case None =>
    case Some(whole) =>
      if rest: seq<Signal> :|
          && OnlyBatch(e.deferred, id, whole.(signals := rest, begun := came != []))
          && whole.signals == came + rest {
        assert OnlyBatch(e'.deferred, id, whole.(signals := rest, begun := came != []));
      }
  }

  lemma DropKeepsBatch(e: EngineState, e': EngineState, id: nat, batch: Option<Deferred>, came: seq<Signal>,
                       d: Deferred)
    requires BatchKept(e, id, batch, came) && |e.made| <= PEER_IDS && MayDrop(e, d)
    requires e'.deferred == e.deferred - multiset{d} && e'.peers == e.peers
    ensures BatchKept(e', id, batch, came)
  {
    match batch
    case None =>
    case Some(whole) =>
      if rest: seq<Signal> :|
          && OnlyBatch(e.deferred, id, whole.(signals := rest, begun := came != []))
          && whole.signals == came + rest {
        var kept := whole.(signals := rest, begun := came != []);
        if d == kept {
          assert NoBatch(e'.deferred, id) && came == [] && !Live(e', id);
        } else {
          assert OnlyBatch(e'.deferred, id, kept);
        }
      }
  }

  predicate DropsAt(run: Run, i: nat) {
    i < |run.evs| && run.evs[i].DropDeferred? && MayDrop(run.states[i].engine, run.evs[i].batch)
  }

  lemma DeferredMoves(run: Run, i: nat)
    requires i < |run.evs| && !TakesAt(run, i)
    ensures run.states[i + 1].engine.peers == run.states[i].engine.peers
    ensures var bag, bag' := run.states[i].engine.deferred, run.states[i + 1].engine.deferred;
            var ev := run.evs[i];
            bag' == if ev.DeliverDeferred? && ComesAt(run, i, ev.batch.peer) then
                      bag - multiset{ev.batch} + multiset{Later(ev.batch)}
                    else if DropsAt(run, i) then bag - multiset{ev.batch}
                    else bag
  {
    NextAt(run, i);
    NotTaken(run, i);
  }

  lemma OtherStepKeepsBatch(run: Run, i: nat, id: nat)
    requires WithinIds(run) && i < |run.evs| && !TakesAt(run, i) && BatchKeptAt(run, i, id)
    ensures BatchKeptAt(run, i + 1, id)
  {
    var e, e', ev := run.states[i].engine, run.states[i + 1].engine, run.evs[i];
    var batch, came := BatchOf(run, i, id), Came(run, i, id);
    DeferredMoves(run, i);
    WithinAt(run, i);
    assert came + [] == came;
    if ev.DeliverDeferred? && ComesAt(run, i, ev.batch.peer) {
      if ev.batch.peer == id {
        ComingKeepsBatch(e, e', id, batch, came, ev.batch);
      } else {
        ComingOfOther(e, e', id, batch, came, ev.batch);
      }
    } else if DropsAt(run, i) {
      DropKeepsBatch(e, e', id, batch, came, ev.batch);
    } else {
      assert Live(e', id) ==> Live(e, id);
      SameBatch(e, e', id, batch, came);
    }
  }

  /** The signals drained for an incarnation come back in their order: those that have come and those
      still to come are all there were, unless none came before the incarnation was gone. */
  lemma {:induction false} DeferredComesInOrder(run: Run, j: nat, id: nat)
    requires WithinIds(run) && j <= |run.evs|
    ensures BatchKeptAt(run, j, id)
  {
    if j > 0 {
      DeferredComesInOrder(run, j - 1, id);
      if TakesAt(run, j - 1) {
        TakenKeepsBatch(run, j - 1, id);
      } else {
        OtherStepKeepsBatch(run, j - 1, id);
      }
    }
  }

  /** Each comes as a command, for the user and the call it was drained for. */
  lemma DeferredComesAsCommand(run: Run, i: nat, id: nat)
    requires WithinIds(run) && ComesAt(run, i, id)
    ensures BatchOf(run, i, id).Some?
    ensures var whole, at := BatchOf(run, i, id).value, |Came(run, i, id)|;
            && at < |whole.signals|
            && run.states[i + 1].queue
               == run.states[i].queue + [SetIncomingSignal(whole.user, whole.call, whole.signals[at])]
  {
    DeferredComesInOrder(run, i, id);
    NextAt(run, i);
    var e, d := run.states[i].engine, run.evs[i].batch;
    ComingKeepsBatch(e, run.states[i + 1].engine, id, BatchOf(run, i, id), Came(run, i, id), d);
    var whole, came := BatchOf(run, i, id).value, Came(run, i, id);
    var rest: seq<Signal> :|
      && OnlyBatch(e.deferred, id, whole.(signals := rest, begun := came != []))
      && whole.signals == came + rest;
    assert d == whole.(signals := rest, begun := came != []);
  }

  /** When the side that is to answer adds a peer in the current call, the offer that has been waiting
      and the candidates after it are all put on their way to it, and nothing else is. */
  lemma AddingDefersTheOffer(run: Run, i: nat, u: UserId, call: CallId)
    requires WithinIds(run) && TakesAt(run, i) && run.states[i].queue[0] == AddPeer(u, call, false)
    requires run.states[i].engine.callId == Some(call)
    ensures var e, e' := run.states[i].engine, run.states[i + 1].engine;
            var waiting := Kept(WaitingFor(run, i, u));
            if waiting.Some? && IsOffer(waiting.value[0]) then
              && e'.deferred == e.deferred + multiset{Deferred(e.nextPeerId, u, call, waiting.value, false)}
              && u in e'.peers && e'.peers[u].id == e.nextPeerId
              && BatchOf(run, i + 1, e.nextPeerId) == Some(Deferred(e.nextPeerId, u, call, waiting.value, false))
            else e'.deferred == e.deferred
  {
    PendingExactly(run, i, u);
    DeferStep(run, i);
    TakenAt(run, i);
  }

  // ------------------------------------------------------------------
  // The loops
  // ------------------------------------------------------------------

  /** What happens to the loop of an incarnation at a step: its own events, and every signal handed
      to it, once. */
  function EventsFor(s: Sys, ev: SysEvent, id: nat): seq<LoopEvent> {
    match ev
    case LoopTurn(turned, lev) => if turned == id && !lev.RemoteSignal? then [lev] else []
    case HandSignal(k, ok, answer) =>
      if k < |s.engine.handed| && k !in s.delivered && s.engine.handed[k].peer == id then
        [RemoteSignal(s.engine.handed[k].signal, ok, answer)]
      else []
    case _ => []
  }

  function LoopEventsAt(run: Run, i: nat, id: nat): seq<LoopEvent>
    requires i < |run.evs|
  {
    EventsFor(run.states[i], run.evs[i], id)
  }

  /** All that has happened to it since it was made. */
  function LoopEvents(run: Run, j: nat, id: nat): seq<LoopEvent>
    requires j <= |run.evs|
  {
    if j == 0 || |run.states[j - 1].loops| <= id then []
    else LoopEvents(run, j - 1, id) + LoopEventsAt(run, j - 1, id)
  }

  lemma LoopRunOneMore(initialOfferer: bool, id: PeerId, user: UserId, evs: seq<LoopEvent>, ev: LoopEvent)
    ensures LoopRun(initialOfferer, id, user, evs + [ev]).0
         == LoopStep(LoopRun(initialOfferer, id, user, evs).0, id, user, ev).0
  {
    assert (evs + [ev])[..|evs|] == evs;
  }

  ghost predicate LoopIsRun(run: Run, j: nat, id: nat) {
    j <= |run.evs| && id < |run.states[j].loops| ==>
      && id < |run.states[j].engine.made| && id < PEER_IDS
      && var m := run.states[j].engine.made[id];
         run.states[j].loops[id] == LoopRun(m.initialOfferer, id, m.user, LoopEvents(run, j, id)).0
  }

  lemma TurnMoves(s: Sys, turned: nat, ev: LoopEvent, id: nat)
    requires Numbered(s) && turned < |s.loops| && id < |s.loops|
    ensures |TurnLoop(s, turned, ev).loops| == |s.loops|
    ensures TurnLoop(s, turned, ev).loops[id]
         == if turned == id then LoopStep(s.loops[id], id, s.engine.made[id].user, ev).0 else s.loops[id]
  {
  }

  lemma ProcessLeavesLoops(s: Sys, id: nat)
    requires s.queue != [] && !s.engine.stopped && id < |s.loops|
    ensures id < |ProcessOne(s).loops| && ProcessOne(s).loops[id] == s.loops[id]
  {
  }

  /** One step of a loop that is there, or none. */
  lemma StepMovesLoop(s: Sys, ev: SysEvent, id: nat)
    requires Numbered(s) && id < |s.loops|
    requires forall k | 0 <= k < |s.engine.handed| :: s.engine.handed[k].peer < |s.loops|
    ensures id < |SysStep(s, ev).loops|
    ensures SysStep(s, ev).loops[id]
         == if EventsFor(s, ev, id) == [] then s.loops[id]
            else LoopStep(s.loops[id], id, s.engine.made[id].user, EventsFor(s, ev, id)[0]).0
    ensures |EventsFor(s, ev, id)| <= 1
  {
    match ev
    case Process =>
      if s.queue != [] && !s.engine.stopped {
        ProcessLeavesLoops(s, id);
      }
    case LoopTurn(turned, lev) =>
      if turned < |s.loops| {
        TurnMoves(s, turned, lev, id);
      }
    case HandSignal(k, ok, answer) =>
      if k < |s.engine.handed| && k !in s.delivered {
        TurnMoves(s, s.engine.handed[k].peer, RemoteSignal(s.engine.handed[k].signal, ok, answer), id);
      }
    case _ =>
  }

  lemma LoopMoves(run: Run, i: nat, id: nat)
    requires WithinIds(run) && i < |run.evs| && id < |run.states[i].loops|
    ensures id < |run.states[i].engine.made| <= PEER_IDS
    ensures run.states[i].engine.made <= run.states[i + 1].engine.made
    ensures id < |run.states[i + 1].loops|
    ensures |LoopEventsAt(run, i, id)| <= 1
    ensures run.states[i + 1].loops[id]
         == if LoopEventsAt(run, i, id) == [] then run.states[i].loops[id]
            else LoopStep(run.states[i].loops[id], id, run.states[i].engine.made[id].user,
                          LoopEventsAt(run, i, id)[0]).0
  {
    EngineKnown(run, i);
    NextGrows(run, i);
    StepMovesLoop(run.states[i], run.evs[i], id);
    NextAt(run, i);
  }

  /** New loops are those of new incarnations. */
  lemma StepBearsLoop(s: Sys, ev: SysEvent, id: nat)
    requires Numbered(s) && Numbered(SysStep(s, ev)) && |s.loops| <= id < |SysStep(s, ev).loops|
    ensures SysStep(s, ev).loops[id] == NewLoop(SysStep(s, ev).engine.made[id].initialOfferer)
  {
  }

  lemma LoopIsBorn(run: Run, i: nat, id: nat)
    requires WithinIds(run) && i < |run.evs|
    requires |run.states[i].loops| <= id < |run.states[i + 1].loops|
    ensures id < |run.states[i + 1].engine.made| <= PEER_IDS
    ensures run.states[i + 1].loops[id] == NewLoop(run.states[i + 1].engine.made[id].initialOfferer)
  {
    EngineKnown(run, i);
    EngineKnown(run, i + 1);
    NextAt(run, i);
    StepBearsLoop(run.states[i], run.evs[i], id);
  }

  lemma LoopIsRunStep(run: Run, i: nat, id: nat)
    requires WithinIds(run) && i < |run.evs| && LoopIsRun(run, i, id)
    ensures LoopIsRun(run, i + 1, id)
  {
    EngineKnown(run, i + 1);
    if id < |run.states[i].loops| {
      LoopMoves(run, i, id);
      var m, evs, more := run.states[i].engine.made[id], LoopEvents(run, i, id), LoopEventsAt(run, i, id);
      if more == [] {
        assert evs + more == evs;
      } else {
        assert more == [more[0]];
        LoopRunOneMore(m.initialOfferer, id, m.user, evs, more[0]);
      }
    } else if id < |run.states[i + 1].loops| {
      LoopIsBorn(run, i, id);
    }
  }

  /** In the whole system every incarnation's loop is in the state its own run gives, on exactly the
      events that are its own and the signals the engine has handed to it: what holds of every run
      of a loop holds of it. */
  lemma {:induction false} LoopsAreRuns(run: Run, j: nat, id: nat)
    requires WithinIds(run) && j <= |run.evs|
    ensures LoopIsRun(run, j, id)
  {
    if j > 0 {
      LoopsAreRuns(run, j - 1, id);
      LoopIsRunStep(run, j - 1, id);
    }
  }
}
