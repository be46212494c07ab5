/** All that a peer's run loop does over a whole run, told by the events that reach it. */
module PeerLoopRuns {
  import opened EngineModel
  import opened PeerLoopModel
  import opened Signals
  import opened Wrappers

  /** A loop, everything that happens to it, its states, and what it tells the engine each time. */
  datatype Trace = Trace(
    initialOfferer: bool,
    id: PeerId,
    user: UserId,
    evs: seq<LoopEvent>,
    states: seq<LoopState>,
    sent: seq<seq<Command>>)

  ghost predicate StepFollows(t: Trace, i: nat) {
    i < |t.evs| && i + 1 < |t.states| && i < |t.sent| &&
    (t.states[i + 1], t.sent[i]) == LoopStep(t.states[i], t.id, t.user, t.evs[i])
  }

  ghost predicate Follows(t: Trace) {
    && |t.states| == |t.evs| + 1 && |t.sent| == |t.evs|
    && t.states[0] == NewLoop(t.initialOfferer)
    && forall i: nat | i < |t.evs| :: StepFollows(t, i)
  }

  type Run = t: Trace | Follows(t) witness Trace(false, 0, UserId(""), [], [NewLoop(false)], [])

  lemma ExtendFollows(t: Trace, ev: LoopEvent, t': Trace)
    requires Follows(t)
    requires var (l, more) := LoopStep(t.states[|t.evs|], t.id, t.user, ev);
             t' == t.(evs := t.evs + [ev], states := t.states + [l], sent := t.sent + [more])
    ensures Follows(t')
  {
    forall i: nat | i < |t'.evs|
      ensures StepFollows(t', i)
    {
      assert i < |t.evs| ==> StepFollows(t, i);
    }
  }

  /** Every sequence of events has its run. */
  function RunOf(initialOfferer: bool, id: PeerId, user: UserId, evs: seq<LoopEvent>): (run: Run)
    ensures run.evs == evs && run.initialOfferer == initialOfferer && run.id == id && run.user == user
  {
    if evs == [] then Trace(initialOfferer, id, user, [], [NewLoop(initialOfferer)], [])
    else
      var n := |evs| - 1;
      var t := RunOf(initialOfferer, id, user, evs[..n]);
      var (l, more) := LoopStep(t.states[n], id, user, evs[n]);
      var t' := t.(evs := t.evs + [evs[n]], states := t.states + [l], sent := t.sent + [more]);
      ExtendFollows(t, evs[n], t');
      t'
  }

  lemma Next(s: Run, i: nat)
    requires i < |s.evs|
    ensures (s.states[i + 1], s.sent[i]) == LoopStep(s.states[i], s.id, s.user, s.evs[i])
  {
    assert StepFollows(s, i);
  }

  lemma {:induction false} KeepsInv(s: Run, i: nat)
    requires i <= |s.evs|
    ensures LoopInv(s.states[i]) && s.states[i].initialOfferer == s.initialOfferer
  {
    if i > 0 {
      KeepsInv(s, i - 1);
      Next(s, i - 1);
      LoopStepKeeps(s.states[i - 1], s.id, s.user, s.evs[i - 1]);
    }
  }

  /** The event reaches the loop: the start a loop that has not started, any other one that runs. */
  predicate Reaches(s: Run, i: nat) {
    i < |s.evs| && !s.states[i].ended && (s.evs[i].Start? <==> !s.states[i].signalingStarted)
  }

  predicate OfferReaches(s: Run, i: nat) {
    Reaches(s, i) && s.evs[i].RemoteSignal? && IsOffer(s.evs[i].signal)
  }

  predicate AnswerComes(s: Run, i: nat) {
    Reaches(s, i) && s.evs[i].RemoteSignal? && IsAnswer(s.evs[i].signal)
  }

  /** An answer that finds the offer still pending: the first one to reach an initial offerer. */
  ghost predicate AnswerDecides(s: Run, i: nat) {
    s.initialOfferer && AnswerComes(s, i) && forall k: nat | k < i :: !AnswerComes(s, k)
  }

  ghost predicate TransportUp(s: Run, j: nat) {
    exists i: nat :: i < j && Reaches(s, i) && s.evs[i] == RtcConnected
  }

  /** A line for the media exists: the initial offerer's from the start, else once it is added. */
  ghost predicate LineUp(s: Run, kind: MediaKind, j: nat) {
    exists i: nat :: i < j && Reaches(s, i) &&
      if s.evs[i].Start? then s.initialOfferer
      else s.evs[i].MediaAdded? && s.evs[i].kind == kind && (kind == Video ==> s.evs[i].h264)
  }

  /** Media that gets as far as the transport. */
  ghost predicate WriteTried(s: Run, i: nat) {
    && Reaches(s, i) && s.evs[i].WriteMedia? && !s.evs[i].empty
    && TransportUp(s, i) && LineUp(s, s.evs[i].kind, i)
  }

  /** An error ends the loop and is reported. */
  ghost predicate FailsAt(s: Run, i: nat) {
    && Reaches(s, i)
    && ( || s.evs[i].NetworkFailed?
         || (OfferReaches(s, i) && !s.evs[i].ok)
         || (AnswerDecides(s, i) && !s.evs[i].ok))
  }

  // ------------------------------------------------------------------
  // The state, told by the events
  // ------------------------------------------------------------------

  lemma {:induction false} StartedExactly(s: Run, j: nat)
    requires j <= |s.evs|
    ensures s.states[j].signalingStarted <==> exists i: nat :: i < j && Reaches(s, i) && s.evs[i].Start?
  {
    if j > 0 {
      StartedExactly(s, j - 1);
      StartStep(s, j - 1);
    }
  }

  lemma StartStep(s: Run, i: nat)
    requires i < |s.evs|
    ensures s.states[i + 1].signalingStarted <==> s.states[i].signalingStarted || (Reaches(s, i) && s.evs[i].Start?)
  {
    Next(s, i);
  }

  lemma {:induction false} ConnectedExactly(s: Run, j: nat)
    requires j <= |s.evs|
    ensures s.states[j].state == Connected <==> TransportUp(s, j)
  {
    if j > 0 {
      ConnectedExactly(s, j - 1);
      ConnectedStep(s, j - 1);
    }
  }

  lemma ConnectedStep(s: Run, i: nat)
    requires i < |s.evs|
    ensures s.states[i + 1].state == Connected
        <==> s.states[i].state == Connected || (Reaches(s, i) && s.evs[i] == RtcConnected)
  {
    Next(s, i);
    KeepsInv(s, i);
    StepNeedsTransport(s.states[i], s.id, s.user, s.evs[i]);
  }

  lemma {:induction false} LinesExactly(s: Run, kind: MediaKind, j: nat)
    requires j <= |s.evs|
    ensures HasMid(s.states[j], kind) <==> LineUp(s, kind, j)
  {
    if j > 0 {
      LinesExactly(s, kind, j - 1);
      LineStep(s, kind, j - 1);
    }
  }

  lemma LineStep(s: Run, kind: MediaKind, i: nat)
    requires i < |s.evs|
    ensures HasMid(s.states[i + 1], kind)
        <==> || HasMid(s.states[i], kind)
             || (Reaches(s, i) &&
                 if s.evs[i].Start? then s.initialOfferer
                 else s.evs[i].MediaAdded? && s.evs[i].kind == kind && (kind == Video ==> s.evs[i].h264))
  {
    Next(s, i);
    KeepsInv(s, i);
  }

  /** The offer is pending from the start of an initial offerer's loop to the first answer; no
      answer reaches a loop that has not started. */
  lemma {:induction false} PendingExactly(s: Run, j: nat)
    requires j <= |s.evs|
    ensures s.states[j].pendingOffer
        <==> s.initialOfferer && s.states[j].signalingStarted && forall k: nat | k < j :: !AnswerComes(s, k)
    ensures !s.states[j].signalingStarted ==> forall k: nat | k < j :: !AnswerComes(s, k)
  {
    if j > 0 {
      PendingExactly(s, j - 1);
      PendingStep(s, j - 1);
    }
  }

  lemma PendingStep(s: Run, i: nat)
    requires i < |s.evs|
    ensures s.states[i].signalingStarted ==> s.states[i + 1].signalingStarted
    ensures AnswerComes(s, i) ==> s.states[i].signalingStarted
    ensures s.states[i + 1].pendingOffer
        <==> !AnswerComes(s, i) && (s.states[i].pendingOffer ||
                (s.initialOfferer && !s.states[i].signalingStarted && s.states[i + 1].signalingStarted))
  {
    Next(s, i);
    KeepsInv(s, i);
    OfferStep(s.states[i], s.id, s.user, s.evs[i]);
    assert AnswerComes(s, i) <==> MeetsAnswer(s.states[i], s.evs[i]);
  }

  /** The loop has ended exactly if it failed, or a write in the transport did. */
  lemma {:induction false} EndedExactly(s: Run, j: nat)
    requires j <= |s.evs|
    ensures s.states[j].ended
        <==> exists i: nat :: i < j && (FailsAt(s, i) || (WriteTried(s, i) && s.evs[i].result == WriteFailed))
  {
    if j > 0 {
      EndedExactly(s, j - 1);
      EndStep(s, j - 1);
    }
  }

  lemma EndStep(s: Run, i: nat)
    requires i < |s.evs|
    ensures s.states[i + 1].ended
        <==> || s.states[i].ended
             || FailsAt(s, i) || (WriteTried(s, i) && s.evs[i].result == WriteFailed)
  {
    Next(s, i);
    KeepsInv(s, i);
    PendingExactly(s, i);
    ConnectedExactly(s, i);
    if s.evs[i].WriteMedia? {
      LinesExactly(s, s.evs[i].kind, i);
    }
  }

  /** The last ICE state that reached the loop. */
  function LastIce(s: Run, j: nat): IceState
    requires j <= |s.evs|
  {
    if j == 0 then IceNew
    else if Reaches(s, j - 1) && s.evs[j - 1].IceChanged? then s.evs[j - 1].ice
    else LastIce(s, j - 1)
  }

  lemma {:induction false} IceExactly(s: Run, j: nat)
    requires j <= |s.evs|
    ensures s.states[j].ice == LastIce(s, j)
  {
    if j > 0 {
      IceExactly(s, j - 1);
      Next(s, j - 1);
    }
  }

  ghost function WritesDone(s: Run, j: nat): nat
    requires j <= |s.evs|
  {
    if j == 0 then 0
    else WritesDone(s, j - 1) + if WriteTried(s, j - 1) && s.evs[j - 1].result == Written then 1 else 0
  }

  /** Media is written exactly when it is not empty, the transport has connected and its line exists. */
  lemma {:induction false} WrittenExactly(s: Run, j: nat)
    requires j <= |s.evs|
    ensures s.states[j].mediaWritten == WritesDone(s, j)
  {
    if j > 0 {
      WrittenExactly(s, j - 1);
      WriteStep(s, j - 1);
    }
  }

  lemma WriteStep(s: Run, i: nat)
    requires i < |s.evs|
    ensures s.states[i + 1].mediaWritten
         == s.states[i].mediaWritten + if WriteTried(s, i) && s.evs[i].result == Written then 1 else 0
  {
    Next(s, i);
    KeepsInv(s, i);
    ConnectedExactly(s, i);
    if s.evs[i].WriteMedia? {
      LinesExactly(s, s.evs[i].kind, i);
    }
  }

  // ------------------------------------------------------------------
  // What the engine is told
  // ------------------------------------------------------------------

  ghost function ToldAt(s: Run, i: nat): seq<Command>
    requires i < |s.evs|
  {
    if !Reaches(s, i) then []
    else if FailsAt(s, i) then [PeerStateChange(s.user, s.id, Disconnected, None)]
    else
      match s.evs[i]
      case Start(offer) => if s.initialOfferer then [SendSignal(s.user, SdpSignal(Offer(offer)))] else []
      case RtcConnected => [PeerStateChange(s.user, s.id, Connected, None)]
      case IceChanged(ice) =>
        if ice == IceChecking || ice == IceDisconnected then
          [PeerStateChange(s.user, s.id, Connecting, Some(ice))]
        else if ice == IceConnected && TransportUp(s, i) then
          [PeerStateChange(s.user, s.id, Connected, Some(ice))]
        else []
      case MediaAdded(kind, _) => if kind == Audio then [OtherCommand] else []
      case RemoteSignal(signal, _, answer) =>
        if IsOffer(signal) then [SendSignal(s.user, SdpSignal(Answer(answer)))]
        else if AnswerDecides(s, i) then [OtherCommand]
        else []
      case LocalCandidate(candidate) => [SendSignal(s.user, Candidate(candidate))]
      case WriteMedia(_, _, _) => []
      case NetworkFailed => []
  }

  /** In any run the engine is told exactly this, step by step: the offer at the start of an initial
      offerer, the answer to every accepted offer, our candidates, every change of connection that
      counts, and the failure that ends the loop. */
  lemma TellsExactly(s: Run, i: nat)
    requires i < |s.evs|
    ensures s.sent[i] == ToldAt(s, i)
  {
    Next(s, i);
    KeepsInv(s, i);
    PendingExactly(s, i);
    ConnectedExactly(s, i);
  }

  /** All that has been sent in the first `j` steps. */
  function SentBy(s: Run, j: nat): seq<Command>
    requires j <= |s.evs|
  {
    if j == 0 then [] else SentBy(s, j - 1) + s.sent[j - 1]
  }

  /** The answers among the commands, in order. */
  function Answers(cmds: seq<Command>): seq<string> {
    if cmds == [] then []
    else
      var last := cmds[|cmds| - 1];
      Answers(cmds[..|cmds| - 1])
      + if last.SendSignal? && IsAnswer(last.signal) then [last.signal.sdp.text] else []
  }

  /** The answers to the accepted offers that reach the running loop, in order. */
  function AcceptedOffers(s: Run, j: nat): seq<string>
    requires j <= |s.evs|
  {
    if j == 0 then []
    else
      AcceptedOffers(s, j - 1) + if OfferReaches(s, j - 1) && s.evs[j - 1].ok then [s.evs[j - 1].answer] else []
  }

  lemma {:induction false} AnswersConcat(a: seq<Command>, b: seq<Command>)
    ensures Answers(a + b) == Answers(a) + Answers(b)
  {
    if b == [] {
      assert a + b == a;
    } else {
      assert (a + b)[..|a + b| - 1] == a + b[..|b| - 1];
      AnswersConcat(a, b[..|b| - 1]);
    }
  }

  lemma AnswersAt(s: Run, i: nat)
    requires i < |s.evs|
    ensures Answers(ToldAt(s, i)) == if OfferReaches(s, i) && s.evs[i].ok then [s.evs[i].answer] else []
  {
    var told := ToldAt(s, i);
    if told != [] {
      assert told == [told[0]] && told[..0] == [];
      assert Answers(told) == Answers([]) + if told[0].SendSignal? && IsAnswer(told[0].signal)
                                            then [told[0].signal.sdp.text] else [];
    }
  }

  /** Every accepted offer is answered, in order, and nothing else sends an answer. */
  lemma {:induction false} OffersAreAnswered(s: Run, j: nat)
    requires j <= |s.evs|
    ensures Answers(SentBy(s, j)) == AcceptedOffers(s, j)
  {
    if j > 0 {
      OffersAreAnswered(s, j - 1);
      AnswersStep(s, j - 1);
    }
  }

  lemma AnswersStep(s: Run, i: nat)
    requires i < |s.evs|
    ensures Answers(SentBy(s, i + 1))
         == Answers(SentBy(s, i)) + if OfferReaches(s, i) && s.evs[i].ok then [s.evs[i].answer] else []
  {
    TellsExactly(s, i);
    AnswersConcat(SentBy(s, i), s.sent[i]);
    AnswersAt(s, i);
  }

  /** The runs here are those of `LoopRun`. */
  lemma {:induction false} SameRun(s: Run, j: nat)
    requires j <= |s.evs|
    ensures LoopRun(s.initialOfferer, s.id, s.user, s.evs[..j]) == (s.states[j], SentBy(s, j))
  {
    if j > 0 {
      SameRun(s, j - 1);
      Next(s, j - 1);
      assert s.evs[..j][..j - 1] == s.evs[..j - 1];
    }
  }
}
