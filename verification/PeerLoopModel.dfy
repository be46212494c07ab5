/** One peer's run loop as a state machine on values (rtc/peer2.rs): connection state, the
    pending offer, and what is sent to the engine. */
module PeerLoopModel {
  import opened EngineModel
  import opened Signals
  import opened Wrappers

  datatype MediaKind = Audio | Video

  datatype LoopState = LoopState(
    initialOfferer: bool,
    signalingStarted: bool,
    ended: bool,
    state: ConnectionState,
    ice: IceState,
    pendingOffer: bool,
    mid: bool,
    screenMid: bool,
    answersApplied: nat,
    mediaWritten: nat)

  function NewLoop(initialOfferer: bool): LoopState {
    LoopState(initialOfferer, false, false, Connecting, IceNew, false, false, false, 0, 0)
  }

  /** What becomes of one attempt to write media in the foreign transport. */
  datatype WriteResult = Written | NoWriter | WriteFailed

  /** `ok` says whether the foreign transport accepts; texts are what it generates. */
  datatype LoopEvent =
    | Start(offer: string)
    | RtcConnected
    | IceChanged(ice: IceState)
    | MediaAdded(kind: MediaKind, h264: bool)
    | RemoteSignal(signal: Signal, ok: bool, answer: string)
    | LocalCandidate(candidate: string)
    | WriteMedia(kind: MediaKind, empty: bool, result: WriteResult)
    | NetworkFailed

  /** The engine-side state an ICE state stands for, if any. */
  function StateOfIce(ice: IceState): Option<ConnectionState> {
    match ice
    case IceChecking => Some(Connecting)
    case IceDisconnected => Some(Connecting)
    case IceConnected => Some(Connected)
    case IceNew => None
    case IceCompleted => None
  }

  /** Whether a change of ICE state is reported: a Connected one only after the transport connected. */
  predicate Reported(l: LoopState, ice: IceState) {
    StateOfIce(ice).Some? && (StateOfIce(ice).value == Connected ==> l.state == Connected)
  }

  function Fail(l: LoopState, id: PeerId, user: UserId): (LoopState, seq<Command>) {
    (l.(ended := true), [PeerStateChange(user, id, Disconnected, None)])
  }

  function OnIce(l: LoopState, id: PeerId, user: UserId, ice: IceState): (LoopState, seq<Command>) {
    (l.(ice := ice),
     if Reported(l, ice) then [PeerStateChange(user, id, StateOfIce(ice).value, Some(ice))] else [])
  }

  function OnSignal(l: LoopState, id: PeerId, user: UserId, signal: Signal, ok: bool, answer: string)
    : (LoopState, seq<Command>)
  {
    match signal
    case Candidate(_) => (l, [])
    case SdpSignal(Offer(_)) =>
      if ok then (l, [SendSignal(user, SdpSignal(Answer(answer)))]) else Fail(l, id, user)
    case SdpSignal(Answer(_)) =>
      if !l.pendingOffer then (l, [])
      else if ok then (l.(pendingOffer := false, answersApplied := l.answersApplied + 1), [OtherCommand])
      else Fail(l.(pendingOffer := false), id, user)
  }

  predicate HasMid(l: LoopState, kind: MediaKind) {
    if kind == Audio then l.mid else l.screenMid
  }

  /** A failed write disconnects the transport, which ends the loop without an error. */
  function OnWrite(l: LoopState, kind: MediaKind, empty: bool, result: WriteResult): LoopState {
    if empty || l.state != Connected || !HasMid(l, kind) then l
    else
      match result
      case Written => l.(mediaWritten := l.mediaWritten + 1)
      case NoWriter => l
      case WriteFailed => l.(ended := true)
  }

  function OnStart(l: LoopState, user: UserId, offer: string): (LoopState, seq<Command>) {
    var l1 := l.(signalingStarted := true);
    if !l.initialOfferer then (l1, [])
    else (l1.(mid := true, screenMid := true, pendingOffer := true), [SendSignal(user, SdpSignal(Offer(offer)))])
  }

  /** Nothing happens before signaling starts, which happens once, or after the loop has ended. */
  function LoopStep(l: LoopState, id: PeerId, user: UserId, ev: LoopEvent): (LoopState, seq<Command>) {
    if l.ended || l.signalingStarted == ev.Start? then (l, [])
    else
      match ev
      case Start(offer) => OnStart(l, user, offer)
      case RtcConnected => (l.(state := Connected), [PeerStateChange(user, id, Connected, None)])
      case IceChanged(ice) => OnIce(l, id, user, ice)
      case MediaAdded(kind, h264) =>
        if kind == Audio then (l.(mid := true), [OtherCommand])
        else (l.(screenMid := l.screenMid || h264), [])
      case RemoteSignal(signal, ok, answer) => OnSignal(l, id, user, signal, ok, answer)
      case LocalCandidate(candidate) => (l, [SendSignal(user, Candidate(candidate))])
      case WriteMedia(kind, empty, result) => (OnWrite(l, kind, empty, result), [])
      case NetworkFailed => Fail(l, id, user)
  }

  // ------------------------------------------------------------------
  // Over whole runs of a loop
  // ------------------------------------------------------------------

  /** The offer is made once, and is gone before an answer is applied. */
  ghost predicate LoopInv(l: LoopState) {
    && (l.pendingOffer ==> l.initialOfferer && l.answersApplied == 0)
    && (!l.signalingStarted ==> !l.pendingOffer && l.answersApplied == 0)
    && l.answersApplied <= 1
    && (l.answersApplied > 0 ==> l.initialOfferer)
    && (l.mediaWritten > 0 ==> l.state == Connected)
    && l.state != Disconnected
  }

  /** What a loop may tell the engine about itself. */
  ghost predicate Truthful(l: LoopState, id: PeerId, user: UserId, cmd: Command) {
    match cmd
    case PeerStateChange(u, peer, state, iceState) =>
      && u == user && peer == id
      && (state == Connected ==> l.state == Connected)
      && (iceState == Some(IceConnected) ==> state == Connected)
      && (iceState == Some(IceDisconnected) ==> state == Connecting)
    case SendSignal(u, _) => u == user
    case OtherCommand => true
    case _ => false
  }

  lemma LoopStepKeeps(l: LoopState, id: PeerId, user: UserId, ev: LoopEvent)
    requires LoopInv(l)
    ensures var (l', sent) := LoopStep(l, id, user, ev);
            && LoopInv(l')
            && l'.initialOfferer == l.initialOfferer
            && (l.state == Connected ==> l'.state == Connected)
            && |sent| <= 1
            && (forall cmd | cmd in sent :: Truthful(l', id, user, cmd))
  {
  }

  function LoopRun(initialOfferer: bool, id: PeerId, user: UserId, evs: seq<LoopEvent>): (LoopState, seq<Command>) {
    if evs == [] then (NewLoop(initialOfferer), [])
    else
      var (l, sent) := LoopRun(initialOfferer, id, user, evs[..|evs| - 1]);
      var (l', more) := LoopStep(l, id, user, evs[|evs| - 1]);
      (l', sent + more)
  }

  /** In any run a loop applies at most one answer, and only an initial offerer's loop does. */
  lemma {:induction false} AtMostOneAnswer(initialOfferer: bool, id: PeerId, user: UserId, evs: seq<LoopEvent>)
    ensures var l := LoopRun(initialOfferer, id, user, evs).0;
            LoopInv(l) && l.initialOfferer == initialOfferer
            && l.answersApplied <= (if initialOfferer then 1 else 0)
  {
    if evs != [] {
      AtMostOneAnswer(initialOfferer, id, user, evs[..|evs| - 1]);
      var l := LoopRun(initialOfferer, id, user, evs[..|evs| - 1]).0;
      LoopStepKeeps(l, id, user, evs[|evs| - 1]);
    }
  }

  ghost predicate ReportsConnected(sent: seq<Command>) {
    exists cmd :: cmd in sent && cmd.PeerStateChange? && cmd.state == Connected
  }

  lemma StepNeedsTransport(l: LoopState, id: PeerId, user: UserId, ev: LoopEvent)
    requires LoopInv(l)
    ensures var (l', sent) := LoopStep(l, id, user, ev);
            && (l'.state == Connected
                <==> l.state == Connected || (ev == RtcConnected && l.signalingStarted && !l.ended))
            && (ReportsConnected(sent) ==> l'.state == Connected)
  {
    LoopStepKeeps(l, id, user, ev);
  }

  /** Media is written, and Connected reported, only after the transport said so; from then on
      the loop's own state never moves back. */
  lemma {:induction false} ConnectedOnlyAfterTransport(initialOfferer: bool, id: PeerId, user: UserId,
                                                       evs: seq<LoopEvent>)
    ensures var (l, sent) := LoopRun(initialOfferer, id, user, evs);
            && (l.state == Connected ==> RtcConnected in evs)
            && (l.mediaWritten > 0 || ReportsConnected(sent) ==> l.state == Connected)
  {
    AtMostOneAnswer(initialOfferer, id, user, evs);
    if evs != [] {
      var before, ev := evs[..|evs| - 1], evs[|evs| - 1];
      ConnectedOnlyAfterTransport(initialOfferer, id, user, before);
      AtMostOneAnswer(initialOfferer, id, user, before);
      var (l, sent) := LoopRun(initialOfferer, id, user, before);
      StepNeedsTransport(l, id, user, ev);
      ReportsEither(sent, LoopStep(l, id, user, ev).1);
      assert evs == before + [ev];
    }
  }

  lemma ReportsEither(a: seq<Command>, b: seq<Command>)
    ensures ReportsConnected(a + b) ==> ReportsConnected(a) || ReportsConnected(b)
  {
  }

  // ------------------------------------------------------------------
  // Which answer counts
  // ------------------------------------------------------------------

  function LoopAfter(initialOfferer: bool, id: PeerId, user: UserId, evs: seq<LoopEvent>, i: nat): LoopState
    requires i <= |evs|
  {
    LoopRun(initialOfferer, id, user, evs[..i]).0
  }

  lemma NextLoop(initialOfferer: bool, id: PeerId, user: UserId, evs: seq<LoopEvent>, i: nat)
    requires i < |evs|
    ensures LoopAfter(initialOfferer, id, user, evs, i + 1)
         == LoopStep(LoopAfter(initialOfferer, id, user, evs, i), id, user, evs[i]).0
    ensures LoopInv(LoopAfter(initialOfferer, id, user, evs, i))
    ensures LoopAfter(initialOfferer, id, user, evs, i).initialOfferer == initialOfferer
  {
    assert evs[..i + 1][..i] == evs[..i];
    AtMostOneAnswer(initialOfferer, id, user, evs[..i]);
  }

  predicate MeetsAnswer(l: LoopState, ev: LoopEvent) {
    ev.RemoteSignal? && IsAnswer(ev.signal) && l.signalingStarted && !l.ended
  }

  /** At step `i` an answer reaches the loop while it runs. */
  predicate AnswerReaches(initialOfferer: bool, id: PeerId, user: UserId, evs: seq<LoopEvent>, i: nat) {
    i < |evs| && MeetsAnswer(LoopAfter(initialOfferer, id, user, evs, i), evs[i])
  }

  ghost predicate FirstAnswerAt(initialOfferer: bool, id: PeerId, user: UserId, evs: seq<LoopEvent>, i: nat) {
    && AnswerReaches(initialOfferer, id, user, evs, i)
    && forall k: nat | k < i :: !AnswerReaches(initialOfferer, id, user, evs, k)
  }

  /** Only an answer uses up the offer, and only the start of signaling makes one. */
  lemma OfferStep(l: LoopState, id: PeerId, user: UserId, ev: LoopEvent)
    requires LoopInv(l)
    ensures var l' := LoopStep(l, id, user, ev).0;
            && (l.signalingStarted ==> l'.signalingStarted)
            && l'.pendingOffer
               == (!MeetsAnswer(l, ev)
                   && (l.pendingOffer || (l.initialOfferer && !l.signalingStarted && l'.signalingStarted)))
            && l'.answersApplied
               == l.answersApplied + if MeetsAnswer(l, ev) && l.pendingOffer && ev.ok then 1 else 0
  {
  }

  /** Until an answer arrives, the offer of a started initial offerer is pending. */
  lemma {:induction false} NoAnswerYet(initialOfferer: bool, id: PeerId, user: UserId, evs: seq<LoopEvent>, j: nat)
    requires j <= |evs| && forall k: nat | k < j :: !AnswerReaches(initialOfferer, id, user, evs, k)
    ensures var l := LoopAfter(initialOfferer, id, user, evs, j);
            l.answersApplied == 0 && l.pendingOffer == (initialOfferer && l.signalingStarted)
  {
    if j > 0 {
      NoAnswerYet(initialOfferer, id, user, evs, j - 1);
      NextLoop(initialOfferer, id, user, evs, j - 1);
      assert !AnswerReaches(initialOfferer, id, user, evs, j - 1);
      OfferStep(LoopAfter(initialOfferer, id, user, evs, j - 1), id, user, evs[j - 1]);
    }
  }

  /** The first answer that reaches a running loop decides, in every continuation of the run: the
      offer is used up, and an answer has been applied exactly if we made the offer and that first
      answer was accepted. Whatever answers follow change nothing. */
  lemma {:induction false} OnlyFirstAnswerCounts(initialOfferer: bool, id: PeerId, user: UserId, evs: seq<LoopEvent>,
                                                 i: nat, j: nat)
    requires FirstAnswerAt(initialOfferer, id, user, evs, i) && i < j <= |evs|
    ensures var l := LoopAfter(initialOfferer, id, user, evs, j);
            && l.signalingStarted && !l.pendingOffer
            && l.answersApplied == if initialOfferer && evs[i].ok then 1 else 0
    decreases j
  {
    var before := LoopAfter(initialOfferer, id, user, evs, j - 1);
    NextLoop(initialOfferer, id, user, evs, j - 1);
    OfferStep(before, id, user, evs[j - 1]);
    if j == i + 1 {
      NoAnswerYet(initialOfferer, id, user, evs, i);
    } else {
      OnlyFirstAnswerCounts(initialOfferer, id, user, evs, i, j - 1);
    }
  }

  lemma {:induction false} FirstAnswerOrNone(initialOfferer: bool, id: PeerId, user: UserId, evs: seq<LoopEvent>,
                                             j: nat)
    requires j <= |evs|
    ensures (exists i: nat :: i < j && FirstAnswerAt(initialOfferer, id, user, evs, i))
         || (forall k: nat | k < j :: !AnswerReaches(initialOfferer, id, user, evs, k))
  {
    if j > 0 {
      FirstAnswerOrNone(initialOfferer, id, user, evs, j - 1);
      if AnswerReaches(initialOfferer, id, user, evs, j - 1)
         && forall k: nat | k < j - 1 :: !AnswerReaches(initialOfferer, id, user, evs, k) {
        assert FirstAnswerAt(initialOfferer, id, user, evs, j - 1);
      }
    }
  }

  /** Over any run: an answer is applied if and only if we are the initial offerer and the first
      answer to reach the running loop is accepted. */
  lemma AnswerAppliedExactly(initialOfferer: bool, id: PeerId, user: UserId, evs: seq<LoopEvent>)
    ensures LoopRun(initialOfferer, id, user, evs).0.answersApplied == 1
        <==> initialOfferer && exists i: nat :: FirstAnswerAt(initialOfferer, id, user, evs, i) && evs[i].ok
  {
    assert evs[..|evs|] == evs;
    FirstAnswerOrNone(initialOfferer, id, user, evs, |evs|);
    if i: nat :| FirstAnswerAt(initialOfferer, id, user, evs, i) {
      OnlyFirstAnswerCounts(initialOfferer, id, user, evs, i, |evs|);
      forall k: nat | FirstAnswerAt(initialOfferer, id, user, evs, k)
        ensures k == i
      {
        assert !(k < i) && !(i < k);
      }
    } else {
      NoAnswerYet(initialOfferer, id, user, evs, |evs|);
    }
  }
}
