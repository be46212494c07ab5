/** The call engine's command loop as a state machine on values (rtc/engine.rs, rtc/peer_state.rs).
    Tasks the engine spawns and forgets stay in the state until the runtime runs them. */
module EngineModel {
  import opened Pending
  import opened Signals
  import opened Wrappers

  /** Peer ids are 16 bits wide. */
  const PEER_IDS: nat := 0x1_0000

  type PeerId = n: nat | n < 0x1_0000

  datatype Peer = Peer(id: PeerId, initialOfferer: bool)

  datatype PeerState = PeerState(
    initialOfferer: bool,
    gotFirstOffer: bool,
    gotFirstAnswer: bool,
    connection: ConnectionState,
    ice: IceState,
    establishedOnce: bool)

  function NewPeerState(initialOfferer: bool): PeerState {
    PeerState(initialOfferer, false, false, Connecting, IceNew, false)
  }

  function SetIce(p: PeerState, ice: IceState): PeerState {
    p.(ice := ice, establishedOnce := p.establishedOnce || ice == IceConnected)
  }

  datatype ReconnectCase = DidNotGetFirstSignal | InitialFailure | TryIceRestart | Disconnect

  datatype Timer = Timer(user: UserId, call: CallId, peer: PeerId, case_: ReconnectCase)

  /** Drained pending signals on their way back, for the peer they were drained for; `begun` once the
      first of them has come. */
  datatype Deferred = Deferred(peer: PeerId, user: UserId, call: CallId, signals: seq<Signal>, begun: bool)

  /** A signal given to a peer incarnation. */
  datatype Handed = Handed(peer: PeerId, signal: Signal)

  /** A peer incarnation: the n-th of these has the id n, until ids wrap. */
  datatype Made = Made(user: UserId, call: CallId, initialOfferer: bool)

  datatype EngineEvent =
    | ConnectionStateChange(user: UserId, call: CallId, state: ConnectionState)
    | SignalToSend(user: UserId, call: CallId, signal: Signal)

  /** Other commands concern media and windows and touch none of this. */
  datatype Command =
    | Join(call: CallId)
    | Leave
    | AddPeer(user: UserId, call: CallId, initialOfferer: bool)
    | RemovePeer(user: UserId, call: CallId)
    | SetIncomingSignal(user: UserId, call: CallId, signal: Signal)
    | SendSignal(user: UserId, signal: Signal)
    | PeerStateChange(user: UserId, peer: PeerId, state: ConnectionState, iceState: Option<IceState>)
    | MaybeReconnect(timer: Timer)
    | OtherCommand

  datatype EngineState = EngineState(
    callId: Option<CallId>,
    peers: map<UserId, Peer>,
    states: map<UserId, PeerState>,
    pending: Queues,
    remoteControl: bool,
    nextPeerId: PeerId,
    stopped: bool,
    timers: multiset<Timer>,
    deferred: multiset<Deferred>,
    handed: seq<Handed>,
    made: seq<Made>,
    restarts: seq<PeerId>,
    emitted: seq<EngineEvent>)

  const INITIAL_ENGINE := EngineState(
    None, map[], map[], map[], false, 0, false, multiset{}, multiset{}, [], [], [], [])

  /** The structure every command keeps. */
  ghost predicate EngineInv(e: EngineState) {
    && e.peers.Keys == e.states.Keys
    && e.pending.Keys !! e.peers.Keys
    && (e.callId.None? ==> e.peers == map[] && e.pending == map[])
    && (e.callId.Some? <==> e.remoteControl)
    && (forall u | u in e.peers :: e.peers[u].initialOfferer == e.states[u].initialOfferer)
  }

  predicate IsCurrentCall(e: EngineState, call: CallId) {
    e.callId == Some(call)
  }

  function StartTimer(e: EngineState, user: UserId, c: ReconnectCase): EngineState {
    if e.callId.None? || user !in e.peers then e
    else e.(timers := e.timers + multiset{Timer(user, e.callId.value, e.peers[user].id, c)})
  }

  function NextPeerId(id: PeerId): PeerId {
    (id + 1) % PEER_IDS
  }

  /** The peer itself, without its timers. */
  function CreatePeer(e: EngineState, user: UserId, initialOfferer: bool, call: CallId): EngineState {
    var id := e.nextPeerId;
    var (pending, drained) := Drain(e.pending, user, initialOfferer);
    e.(nextPeerId := NextPeerId(id),
       peers := e.peers[user := Peer(id, initialOfferer)],
       states := e.states[user := NewPeerState(initialOfferer)],
       made := e.made + [Made(user, call, initialOfferer)],
       pending := pending,
       deferred := if !initialOfferer && drained.Some?
                   then e.deferred + multiset{Deferred(id, user, call, drained.value, false)} else e.deferred)
  }

  function DoAddPeer(e: EngineState, user: UserId, initialOfferer: bool, call: CallId): EngineState {
    if !IsCurrentCall(e, call) then e
    else
      var e1 := CreatePeer(e, user, initialOfferer, call);
      if initialOfferer then StartTimer(StartTimer(e1, user, DidNotGetFirstSignal), user, InitialFailure) else e1
  }

  function DoRemovePeer(e: EngineState, user: UserId, call: CallId): EngineState {
    if !IsCurrentCall(e, call) then e
    else e.(peers := e.peers - {user}, states := e.states - {user}, pending := e.pending - {user})
  }

  function Recreate(e: EngineState, user: UserId, call: CallId): EngineState
    requires user in e.states
  {
    DoAddPeer(DoRemovePeer(e, user, call), user, e.states[user].initialOfferer, call)
  }

  function Mark(p: PeerState, signal: Signal): PeerState {
    p.(gotFirstOffer := p.gotFirstOffer || IsOffer(signal), gotFirstAnswer := p.gotFirstAnswer || IsAnswer(signal))
  }

  /** Handing a signal to the current peer, or queueing it when there is none. */
  function HandOver(e: EngineState, user: UserId, signal: Signal): EngineState {
    var e1 := if user in e.peers then e.(handed := e.handed + [Handed(e.peers[user].id, signal)])
              else e.(pending := Add(e.pending, user, signal));
    if user !in e1.states then e1 else e1.(states := e1.states[user := Mark(e1.states[user], signal)])
  }

  predicate RecreatesFor(e: EngineState, user: UserId, signal: Signal) {
    user in e.states && IsOffer(signal) && user in e.peers && e.states[user].gotFirstOffer
  }

  function DoSetIncomingSignal(e: EngineState, user: UserId, call: CallId, signal: Signal): EngineState {
    if !IsCurrentCall(e, call) then e
    else HandOver(if RecreatesFor(e, user, signal) then Recreate(e, user, call) else e, user, signal)
  }

  /** Whether a message is about the incarnation its user has now. */
  predicate Current(e: EngineState, user: UserId, peer: PeerId) {
    user in e.peers && e.peers[user].id == peer
  }

  predicate TimerApplies(e: EngineState, t: Timer) {
    IsCurrentCall(e, t.call) && Current(e, t.user, t.peer) && t.user in e.states
  }

  /** Whether a timer that applies makes the engine replace the peer. */
  predicate Replaces(e: EngineState, t: Timer)
    requires t.user in e.states
  {
    var p := e.states[t.user];
    p.connection != Connected &&
    match t.case_
    case DidNotGetFirstSignal => !p.gotFirstOffer && !p.gotFirstAnswer && !p.establishedOnce
    case InitialFailure => !p.establishedOnce
    case TryIceRestart => false
    case Disconnect => true
  }

  function DoMaybeReconnect(e: EngineState, t: Timer): EngineState {
    if !TimerApplies(e, t) then e
    else if Replaces(e, t) then Recreate(e, t.user, t.call)
    else if t.case_ == TryIceRestart && e.states[t.user].connection != Connected
            && e.states[t.user].ice == IceDisconnected then
      e.(restarts := e.restarts + [t.peer])
    else e
  }

  function UpdatePeerState(p: PeerState, state: ConnectionState, iceState: Option<IceState>): PeerState {
    var p1 := p.(connection := state);
    if iceState.Some? then SetIce(p1, iceState.value) else p1
  }

  /** The change itself, without its timers. */
  function NoteStateChange(e: EngineState, user: UserId, state: ConnectionState,
                           iceState: Option<IceState>): EngineState
    requires e.callId.Some?
  {
    var e1 := e.(emitted := e.emitted + [ConnectionStateChange(user, e.callId.value, state)]);
    if user !in e.states then e1
    else e1.(states := e.states[user := UpdatePeerState(e.states[user], state, iceState)])
  }

  function DoPeerStateChange(e: EngineState, user: UserId, peer: PeerId, state: ConnectionState,
                             iceState: Option<IceState>): EngineState {
    if e.callId.None? || !Current(e, user, peer) then e
    else
      var e1 := NoteStateChange(e, user, state, iceState);
      if user in e.states && iceState == Some(IceDisconnected) then
        StartTimer(StartTimer(e1, user, TryIceRestart), user, Disconnect)
      else e1
  }

  function DoLeave(e: EngineState): EngineState {
    e.(callId := None, peers := map[], states := map[], pending := map[], remoteControl := false)
  }

  function DoJoin(e: EngineState, call: CallId): EngineState {
    DoLeave(e).(callId := Some(call), remoteControl := true)
  }

  /** Outside a call this ends the whole command loop. */
  function DoSendSignal(e: EngineState, user: UserId, signal: Signal): EngineState {
    if e.callId.None? then e.(stopped := true)
    else e.(emitted := e.emitted + [SignalToSend(user, e.callId.value, signal)])
  }

  function Handle(e: EngineState, cmd: Command): EngineState {
    if e.stopped then e
    else
      match cmd
      case Join(call) => DoJoin(e, call)
      case Leave => DoLeave(e)
      case AddPeer(user, call, initialOfferer) => DoAddPeer(e, user, initialOfferer, call)
      case RemovePeer(user, call) => DoRemovePeer(e, user, call)
      case SetIncomingSignal(user, call, signal) => DoSetIncomingSignal(e, user, call, signal)
      case SendSignal(user, signal) => DoSendSignal(e, user, signal)
      case PeerStateChange(user, peer, state, iceState) => DoPeerStateChange(e, user, peer, state, iceState)
      case MaybeReconnect(t) => DoMaybeReconnect(e, t)
      case OtherCommand => e
  }

  lemma AddKeepsEngine(e: EngineState, user: UserId, initialOfferer: bool, call: CallId)
    requires EngineInv(e)
    ensures EngineInv(DoAddPeer(e, user, initialOfferer, call))
  {
  }

  lemma RecreateKeepsEngine(e: EngineState, user: UserId, call: CallId)
    requires EngineInv(e) && user in e.states
    ensures EngineInv(Recreate(e, user, call))
  {
    AddKeepsEngine(DoRemovePeer(e, user, call), user, e.states[user].initialOfferer, call);
  }

  lemma HandOverKeepsEngine(e: EngineState, user: UserId, signal: Signal)
    requires EngineInv(e) && e.callId.Some?
    ensures EngineInv(HandOver(e, user, signal))
  {
  }

  lemma SignalKeepsEngine(e: EngineState, user: UserId, call: CallId, signal: Signal)
    requires EngineInv(e)
    ensures EngineInv(DoSetIncomingSignal(e, user, call, signal))
  {
    if IsCurrentCall(e, call) {
      if RecreatesFor(e, user, signal) {
        RecreateKeepsEngine(e, user, call);
        HandOverKeepsEngine(Recreate(e, user, call), user, signal);
      } else {
        HandOverKeepsEngine(e, user, signal);
      }
    }
  }

  lemma NoteKeepsEngine(e: EngineState, user: UserId, state: ConnectionState, iceState: Option<IceState>)
    requires EngineInv(e) && e.callId.Some?
    ensures EngineInv(NoteStateChange(e, user, state, iceState))
  {
  }

  lemma StateChangeKeepsEngine(e: EngineState, user: UserId, peer: PeerId, state: ConnectionState,
                               iceState: Option<IceState>)
    requires EngineInv(e)
    ensures EngineInv(DoPeerStateChange(e, user, peer, state, iceState))
  {
    if e.callId.Some? && Current(e, user, peer) {
      NoteKeepsEngine(e, user, state, iceState);
    }
  }

  lemma ReconnectKeepsEngine(e: EngineState, t: Timer)
    requires EngineInv(e)
    ensures EngineInv(DoMaybeReconnect(e, t))
  {
    if TimerApplies(e, t) {
      RecreateKeepsEngine(e, t.user, t.call);
    }
  }

  lemma HandleKeepsEngine(e: EngineState, cmd: Command)
    requires EngineInv(e)
    ensures EngineInv(Handle(e, cmd))
  {
    match cmd
    case Join(_) =>
    case Leave =>
    case AddPeer(user, call, initialOfferer) => AddKeepsEngine(e, user, initialOfferer, call);
    case RemovePeer(_, _) =>
    case SetIncomingSignal(user, call, signal) => SignalKeepsEngine(e, user, call, signal);
    case SendSignal(_, _) =>
    case PeerStateChange(user, peer, state, iceState) => StateChangeKeepsEngine(e, user, peer, state, iceState);
    case MaybeReconnect(t) => ReconnectKeepsEngine(e, t);
    case OtherCommand =>
  }
}
