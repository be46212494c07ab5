/** The engine, its command queue, its timers and every peer's run loop together
    (rtc/engine.rs, rtc/peer2.rs). Tasks and timers run in any order. */
module CallSystem {
  import opened EngineModel
  import opened PeerLoopModel
  import opened Signals
  import opened Wrappers

  const QUEUE_CAPACITY := 2000

  /** `loops[n]` is the run loop of the n-th peer incarnation. The last three fields record history:
      the signals delivered to loops, the incarnations whose InitialFailure timer was called off,
      and those that reported ICE Disconnected with no Connected since. */
  datatype Sys = Sys(
    engine: EngineState,
    queue: seq<Command>,
    loops: seq<LoopState>,
    delivered: set<nat>,
    settled: set<nat>,
    awaiting: set<nat>)

  const INITIAL_SYS := Sys(INITIAL_ENGINE, [], [], {}, {}, {})

  datatype SysEvent =
    | FromUi(cmd: Command)
    | Process
    | Fire(timer: Timer)
    | DeliverDeferred(batch: Deferred)
    | DropDeferred(batch: Deferred)
    | HandSignal(index: nat, ok: bool, answer: string)
    | LoopTurn(id: nat, ev: LoopEvent)

  predicate FromOutside(cmd: Command) {
    cmd.Join? || cmd.Leave? || cmd.AddPeer? || cmd.RemovePeer? || cmd.SetIncomingSignal? || cmd.OtherCommand?
  }

  /** Sending without waiting drops what does not fit. */
  function TrySend(queue: seq<Command>, cmds: seq<Command>): seq<Command> {
    if |queue| + |cmds| <= QUEUE_CAPACITY then queue + cmds else queue
  }

  function NewLoops(made: seq<Made>): (r: seq<LoopState>)
    ensures |r| == |made|
  {
    seq(|made|, i requires 0 <= i < |made| => NewLoop(made[i].initialOfferer))
  }

  /** The loops after a command: one more for the incarnation it made, if any. */
  function LoopsFor(before: seq<Made>, after: seq<Made>, loops: seq<LoopState>): seq<LoopState> {
    loops + if |before| <= |after| then NewLoops(after[|before|..]) else []
  }

  /** The timer fires on its own incarnation and is called off because of a connection. */
  predicate Settles(e: EngineState, cmd: Command) {
    && cmd.MaybeReconnect? && cmd.timer.case_ == InitialFailure
    && TimerApplies(e, cmd.timer)
    && (e.states[cmd.timer.user].connection == Connected || e.states[cmd.timer.user].establishedOnce)
  }

  predicate Supplants(e: EngineState, cmd: Command) {
    cmd.MaybeReconnect? && TimerApplies(e, cmd.timer) && Replaces(e, cmd.timer)
  }

  predicate Reports(e: EngineState, cmd: Command) {
    cmd.PeerStateChange? && e.callId.Some? && Current(e, cmd.user, cmd.peer)
  }

  function Awaiting(e: EngineState, awaiting: set<nat>, cmd: Command): set<nat> {
    if !Reports(e, cmd) then awaiting
    else if cmd.state == Connected then awaiting - {cmd.peer}
    else if cmd.iceState == Some(IceDisconnected) then awaiting + {cmd.peer}
    else awaiting
  }

  /** The engine takes the oldest command. */
  function ProcessOne(s: Sys): Sys
    requires s.queue != [] && !s.engine.stopped
  {
    var e, cmd := s.engine, s.queue[0];
    var e' := Handle(e, cmd);
    s.(engine := e',
       queue := s.queue[1..],
       loops := LoopsFor(e.made, e'.made, s.loops),
       settled := if Settles(e, cmd) then s.settled + {cmd.timer.peer} else s.settled,
       awaiting := Awaiting(e, s.awaiting, cmd))
  }

  function TurnLoop(s: Sys, id: nat, ev: LoopEvent): Sys
    requires id < |s.loops| && id < |s.engine.made|
  {
    var (l, sent) := LoopStep(s.loops[id], id % PEER_IDS, s.engine.made[id].user, ev);
    s.(loops := s.loops[id := l], queue := TrySend(s.queue, sent))
  }

  /** What is left of a batch after its first signal. */
  function Later(d: Deferred): Deferred
    requires d.signals != []
  {
    d.(signals := d.signals[1..], begun := true)
  }

  /** A batch is dropped when its delay is over and nobody holds its peer any more; afterwards the
      peer is held until all has come. (Once ids have wrapped, one in use may be another peer's.) */
  predicate MayDrop(e: EngineState, d: Deferred) {
    !d.begun && ((forall u | u in e.peers :: e.peers[u].id != d.peer) || PEER_IDS < |e.made|)
  }

  /** A step that cannot be taken changes nothing. Timers and deferred deliveries wait for room. */
  function SysStep(s: Sys, ev: SysEvent): Sys {
    match ev
    case FromUi(cmd) =>
      if FromOutside(cmd) then s.(queue := TrySend(s.queue, [cmd])) else s
    case Process =>
      if s.queue == [] || s.engine.stopped then s else ProcessOne(s)
    case Fire(t) =>
      if t in s.engine.timers && |s.queue| < QUEUE_CAPACITY then
        s.(engine := s.engine.(timers := s.engine.timers - multiset{t}), queue := s.queue + [MaybeReconnect(t)])
      else s
    case DeliverDeferred(d) =>
      if d in s.engine.deferred && d.signals != [] && |s.queue| < QUEUE_CAPACITY then
        s.(engine := s.engine.(deferred := s.engine.deferred - multiset{d} + multiset{Later(d)}),
           queue := s.queue + [SetIncomingSignal(d.user, d.call, d.signals[0])])
      else s
    case DropDeferred(d) =>
      if MayDrop(s.engine, d) then s.(engine := s.engine.(deferred := s.engine.deferred - multiset{d})) else s
    case HandSignal(i, ok, answer) =>
      if i < |s.engine.handed| && i !in s.delivered && s.engine.handed[i].peer < |s.loops|
         && s.engine.handed[i].peer < |s.engine.made| then
        TurnLoop(s, s.engine.handed[i].peer, RemoteSignal(s.engine.handed[i].signal, ok, answer))
          .(delivered := s.delivered + {i})
      else s
    case LoopTurn(id, lev) =>
      if id < |s.loops| && id < |s.engine.made| && !lev.RemoteSignal? then TurnLoop(s, id, lev) else s
  }

  /** A run: its events, and the states before and after each of them. */
  datatype Trace = Trace(evs: seq<SysEvent>, states: seq<Sys>)

  ghost predicate StepFollows(t: Trace, i: nat) {
    i < |t.evs| && i + 1 < |t.states| && t.states[i + 1] == SysStep(t.states[i], t.evs[i])
  }

  ghost predicate Follows(t: Trace) {
    && |t.states| == |t.evs| + 1
    && t.states[0] == INITIAL_SYS
    && forall i: nat | i < |t.evs| :: StepFollows(t, i)
  }

  type Run = t: Trace | Follows(t) witness Trace([], [INITIAL_SYS])

  function Extend(t: Trace, ev: SysEvent): Trace
    requires t.states != []
  {
    Trace(t.evs + [ev], t.states + [SysStep(t.states[|t.states| - 1], ev)])
  }

  lemma ExtendFollows(t: Trace, ev: SysEvent)
    requires Follows(t)
    ensures Follows(Extend(t, ev))
  {
    var longer := Extend(t, ev);
    forall i: nat | i < |longer.evs|
      ensures StepFollows(longer, i)
    {
      assert i < |t.evs| ==> StepFollows(t, i);
    }
  }

  /** Every sequence of events has its run. */
  function RunOf(evs: seq<SysEvent>): (run: Run)
    ensures run.evs == evs
  {
    if evs == [] then Trace([], [INITIAL_SYS])
    else
      var before := RunOf(evs[..|evs| - 1]);
      ExtendFollows(before, evs[|evs| - 1]);
      Extend(before, evs[|evs| - 1])
  }

  // ------------------------------------------------------------------
  // The invariant, part by part
  // ------------------------------------------------------------------

  /** Every user's peer is an incarnation made for that user, in this call and with this role. */
  ghost predicate Ids(e: EngineState, loops: seq<LoopState>) {
    && |loops| == |e.made| <= PEER_IDS
    && e.nextPeerId == |e.made| % PEER_IDS
    && (forall u | u in e.peers ::
          && e.callId.Some? && e.peers[u].id < |e.made|
          && e.made[e.peers[u].id] == Made(u, e.callId.value, e.peers[u].initialOfferer))
    && (forall id | 0 <= id < |loops| :: LoopInv(loops[id]) && loops[id].initialOfferer == e.made[id].initialOfferer)
  }

  /** What the engine believes about a connection, the peer's own loop has seen. */
  ghost predicate Beliefs(e: EngineState, loops: seq<LoopState>) {
    && e.peers.Keys == e.states.Keys
    && forall u | u in e.peers ::
         e.peers[u].id < |loops| &&
         (e.states[u].connection == Connected || e.states[u].establishedOnce ==>
            loops[e.peers[u].id].state == Connected)
  }

  ghost predicate HandedOffer(handed: seq<Handed>, id: nat) {
    exists k :: 0 <= k < |handed| && handed[k].peer == id && IsOffer(handed[k].signal)
  }

  ghost predicate HandedAnswer(handed: seq<Handed>, id: nat) {
    exists k :: 0 <= k < |handed| && handed[k].peer == id && IsAnswer(handed[k].signal)
  }

  ghost predicate OfferedOnce(handed: seq<Handed>) {
    forall j, k | 0 <= j < k < |handed| && IsOffer(handed[j].signal) && IsOffer(handed[k].signal) ::
      handed[j].peer != handed[k].peer
  }

  /** No incarnation is handed two offers, and the engine knows which have had one. */
  ghost predicate Offers(e: EngineState) {
    && e.peers.Keys == e.states.Keys
    && (forall k | 0 <= k < |e.handed| :: e.handed[k].peer < |e.made|)
    && OfferedOnce(e.handed)
    && (forall u | u in e.peers :: e.states[u].gotFirstOffer == HandedOffer(e.handed, e.peers[u].id))
    && (forall u | u in e.peers :: e.states[u].gotFirstAnswer == HandedAnswer(e.handed, e.peers[u].id))
  }

  ghost predicate TimerOk(e: EngineState, t: Timer) {
    t.peer < |e.made| && e.made[t.peer].user == t.user && e.made[t.peer].call == t.call
  }

  /** A message about an incarnation was true when sent, and what it says of a connection still is. */
  ghost predicate MessageOk(e: EngineState, loops: seq<LoopState>, cmd: Command) {
    && (cmd.MaybeReconnect? ==> TimerOk(e, cmd.timer))
    && (cmd.PeerStateChange? ==>
          && cmd.peer < |loops| && cmd.peer < |e.made|
          && (cmd.state == Connected ==> loops[cmd.peer].state == Connected)
          && (cmd.iceState == Some(IceConnected) ==> cmd.state == Connected)
          && (cmd.iceState == Some(IceDisconnected) ==> cmd.state == Connecting))
  }

  ghost predicate Messages(e: EngineState, loops: seq<LoopState>, queue: seq<Command>) {
    && (forall cmd | cmd in queue :: MessageOk(e, loops, cmd))
    && (forall t | t in e.timers :: TimerOk(e, t))
  }

  /** A timer is outstanding until the engine takes its command from the queue. */
  ghost predicate Outstanding(e: EngineState, queue: seq<Command>, t: Timer) {
    t in e.timers || MaybeReconnect(t) in queue
  }

  ghost predicate FailureWatched(e: EngineState, queue: seq<Command>, settled: set<nat>) {
    && (forall id | id in settled :: id < |e.made|)
    && forall u | u in e.peers && e.peers[u].initialOfferer && e.callId.Some? ::
         Outstanding(e, queue, Timer(u, e.callId.value, e.peers[u].id, InitialFailure)) || e.peers[u].id in settled
  }

  ghost predicate DisconnectWatched(e: EngineState, queue: seq<Command>, awaiting: set<nat>) {
    && e.peers.Keys == e.states.Keys
    && (forall id | id in awaiting :: id < |e.made|)
    && forall u | u in e.peers && e.callId.Some? && e.peers[u].id in awaiting ::
         && e.states[u].connection != Connected
         && Outstanding(e, queue, Timer(u, e.callId.value, e.peers[u].id, Disconnect))
  }

  ghost predicate Live(e: EngineState, id: nat) {
    exists u :: u in e.peers && e.peers[u].id == id
  }

  ghost predicate Inv(s: Sys) {
    && EngineInv(s.engine)
    && Ids(s.engine, s.loops)
    && Beliefs(s.engine, s.loops)
    && Offers(s.engine)
    && Messages(s.engine, s.loops, s.queue)
    && FailureWatched(s.engine, s.queue, s.settled)
    && DisconnectWatched(s.engine, s.queue, s.awaiting)
  }
}
