/** Signals that arrive before their peer exists (rtc/signal.rs). */
module Pending {
  import opened Signals
  import opened Wrappers

  type Queues = map<UserId, seq<Signal>>

  /** A queue is opened by an SDP and extended by candidates; anything else is dropped. */
  function Add(q: Queues, user: UserId, signal: Signal): Queues {
    if user in q then
      if signal.Candidate? then q[user := q[user] + [signal]] else q
    else if signal.SdpSignal? then q[user := [signal]]
    else q
  }

  predicate ShouldReturn(q: Queues, user: UserId, initialOfferer: bool, drainAll: bool) {
    user in q && q[user] != [] &&
    match q[user][0]
    case SdpSignal(Offer(_)) => !initialOfferer
    case SdpSignal(Answer(_)) => false
    case Candidate(_) => !drainAll
  }

  function Drain(q: Queues, user: UserId, initialOfferer: bool): (Queues, Option<seq<Signal>>) {
    (q - {user}, if ShouldReturn(q, user, initialOfferer, true) then Some(q[user]) else None)
  }

  // ------------------------------------------------------------------
  // What a queue holds, said without the map
  // ------------------------------------------------------------------

  function FirstSdp(signals: seq<Signal>): (k: nat)
    ensures k <= |signals|
    ensures forall i | 0 <= i < k :: signals[i].Candidate?
    ensures k < |signals| ==> signals[k].SdpSignal?
  {
    if signals == [] || signals[0].SdpSignal? then 0 else 1 + FirstSdp(signals[1..])
  }

  function Candidates(signals: seq<Signal>): seq<Signal> {
    if signals == [] then []
    else (if signals[0].Candidate? then [signals[0]] else []) + Candidates(signals[1..])
  }

  /** The first SDP and the candidates after it. */
  function Kept(signals: seq<Signal>): Option<seq<Signal>> {
    var k := FirstSdp(signals);
    if k == |signals| then None else Some([signals[k]] + Candidates(signals[k + 1..]))
  }

  function AddAll(q: Queues, user: UserId, signals: seq<Signal>): Queues
    decreases |signals|
  {
    if signals == [] then q else AddAll(Add(q, user, signals[0]), user, signals[1..])
  }

  lemma {:induction false} AddToOpenQueue(q: Queues, user: UserId, signals: seq<Signal>)
    requires user in q
    ensures AddAll(q, user, signals) == q[user := q[user] + Candidates(signals)]
    decreases |signals|
  {
    if signals == [] {
      assert q[user] + [] == q[user];
      assert q[user := q[user]] == q;
    } else {
      AddToOpenQueue(Add(q, user, signals[0]), user, signals[1..]);
      if signals[0].Candidate? {
        assert q[user] + [signals[0]] + Candidates(signals[1..]) == q[user] + ([signals[0]] + Candidates(signals[1..]));
      } else {
        assert [] + Candidates(signals[1..]) == Candidates(signals[1..]);
      }
    }
  }

  /** Since its last removal, a user's queue is the first SDP seen and every candidate after it, in
      order; nobody else's queue is touched. */
  lemma {:induction false} QueueHoldsFirstSdpAndCandidates(q: Queues, user: UserId, signals: seq<Signal>)
    requires user !in q
    ensures AddAll(q, user, signals) == match Kept(signals) case None => q case Some(kept) => q[user := kept]
    decreases |signals|
  {
    if signals != [] {
      if signals[0].SdpSignal? {
        AddToOpenQueue(q[user := [signals[0]]], user, signals[1..]);
      } else {
        QueueHoldsFirstSdpAndCandidates(q, user, signals[1..]);
        if FirstSdp(signals) < |signals| {
          assert signals[FirstSdp(signals) + 1..] == signals[1..][FirstSdp(signals[1..]) + 1..];
        }
      }
    }
  }

  /** Draining always empties the queue, and hands it over exactly when it starts with an offer
      and we are not the initial offerer. */
  lemma DrainReturnsOffersOnly(q: Queues, user: UserId, signals: seq<Signal>, initialOfferer: bool)
    requires user !in q
    ensures var (q', drained) := Drain(AddAll(q, user, signals), user, initialOfferer);
            && q' == q
            && drained == if Kept(signals).Some? && IsOffer(Kept(signals).value[0]) && !initialOfferer
                          then Kept(signals) else None
  {
    QueueHoldsFirstSdpAndCandidates(q, user, signals);
    assert q - {user} == q;
    if Kept(signals).Some? {
      assert q[user := Kept(signals).value] - {user} == q;
    }
  }

  class PendingSignals {
    var signals: Queues

    constructor ()
      ensures signals == map[]
    {
      signals := map[];
    }

    method AddSignal(user: UserId, signal: Signal)
      modifies this
      ensures signals == Add(old(signals), user, signal)
    {
      if user in signals {
        // only candidates extend a queue
        if signal.Candidate? {
          signals := signals[user := signals[user] + [signal]];
        }
      } else {
        // only an SDP opens one
        if signal.SdpSignal? {
          signals := signals[user := [signal]];
        }
      }
    }

    method DrainUser(user: UserId, initialOfferer: bool) returns (drained: Option<seq<Signal>>)
      modifies this
      ensures (signals, drained) == Drain(old(signals), user, initialOfferer)
    {
      var shouldReturn := ShouldReturn(signals, user, initialOfferer, true);
      drained := RemoveUser(user);
      if !shouldReturn {
        drained := None;
      }
    }

    method RemoveUser(user: UserId) returns (removed: Option<seq<Signal>>)
      modifies this
      ensures signals == old(signals) - {user}
      ensures removed == if user in old(signals) then Some(old(signals)[user]) else None
    {
      removed := if user in signals then Some(signals[user]) else None;
      signals := signals - {user};
    }

    method Reset()
      modifies this
      ensures signals == map[]
    {
      signals := map[];
    }
  }
}
