/** The conversion loop of cap/src/h264.rs turn by turn, on any buffer whatever. */
module ConversionLoop {
  import opened Bytes
  import opened ElementaryStream
  import opened Wrappers

  datatype Loop = Running(offset: nat, out: seq<byte>) | Finished(out: seq<byte>) | Crashed

  function Enter(data: seq<byte>): Loop {
    // the length of the buffer minus the header length must not underflow
    if |data| < AVCC_HEADER_LENGTH then Crashed else Running(0, [])
  }

  function Turn(data: seq<byte>, loop: Loop): Loop {
    if !loop.Running? then loop
    else if |data| - AVCC_HEADER_LENGTH <= loop.offset then Finished(loop.out)
    else
      var n := LengthAt(data, loop.offset);
      var next := loop.offset + 4 + n;
      if n == 0 then loop
      else if |data| < next then Crashed
      else Running(next, loop.out + START_CODE + data[loop.offset + 4..next])
  }

  function Turns(data: seq<byte>, loop: Loop, n: nat): Loop
    decreases n
  {
    if n == 0 then loop else Turns(data, Turn(data, loop), n - 1)
  }

  // ------------------------------------------------------------------
  // What becomes of each of them
  // ------------------------------------------------------------------

  lemma TurnPassesUnit(data: seq<byte>, offset: nat, out: seq<byte>, units: seq<seq<byte>>, rest: seq<byte>)
    requires units != [] && SplitsFrom(data, offset, units, rest)
    ensures var next := offset + 4 + |units[0]|;
            && SplitsFrom(data, next, units[1..], rest)
            && Turn(data, Running(offset, out)) == Running(next, out + START_CODE + units[0])
  {
    FirstUnit(data, offset, units, rest);
  }

  lemma RestIsLast(data: seq<byte>, offset: nat, units: seq<seq<byte>>, rest: seq<byte>)
    requires SplitsFrom(data, offset, units, rest)
    ensures |rest| <= |data| && data[|data| - |rest|..] == rest
    ensures units == [] ==> offset == |data| - |rest|
  {
    SlicesOfTwo(data, offset, Avcc(units), rest);
  }

  lemma OutputGrows(out: seq<byte>, units: seq<seq<byte>>)
    requires units != []
    ensures out + AnnexB(units) == out + START_CODE + units[0] + AnnexB(units[1..])
  {
    Regroup(out, START_CODE, units[0], AnnexB(units[1..]));
  }

  lemma {:induction false} TurnsAdd(data: seq<byte>, loop: Loop, m: nat, n: nat)
    ensures Turns(data, loop, m + n) == Turns(data, Turns(data, loop, m), n)
    decreases m
  {
    if m > 0 {
      TurnsAdd(data, Turn(data, loop), m - 1, n);
    }
  }

  /** One turn a unit, up to what comes after the units. */
  lemma {:induction false} LoopPassesUnits(data: seq<byte>, offset: nat, out: seq<byte>, units: seq<seq<byte>>,
                                           rest: seq<byte>, whole: seq<byte>)
    requires SplitsFrom(data, offset, units, rest) && |rest| <= |data| && whole == out + AnnexB(units)
    ensures Turns(data, Running(offset, out), |units|) == Running(|data| - |rest|, whole)
    decreases |units|
  {
    if units == [] {
      RestIsLast(data, offset, units, rest);
      assert out + [] == out;
    } else {
      var next, more := offset + 4 + |units[0]|, out + START_CODE + units[0];
      OutputGrows(out, units);
      TurnPassesUnit(data, offset, out, units, rest);
      LoopPassesUnits(data, next, more, units[1..], rest, whole);
    }
  }

  lemma {:induction false} LoopStillRuns(data: seq<byte>, offset: nat, out: seq<byte>, units: seq<seq<byte>>,
                                         rest: seq<byte>, n: nat)
    requires SplitsFrom(data, offset, units, rest) && n <= |units|
    ensures Turns(data, Running(offset, out), n).Running?
    decreases n
  {
    if n > 0 {
      TurnPassesUnit(data, offset, out, units, rest);
      LoopStillRuns(data, offset + 4 + |units[0]|, out + START_CODE + units[0], units[1..], rest, n - 1);
    }
  }

  lemma {:induction false} EndedStays(data: seq<byte>, loop: Loop, n: nat)
    requires Turn(data, loop) == loop
    ensures Turns(data, loop, n) == loop
  {
    if n > 0 {
      EndedStays(data, loop, n - 1);
    }
  }

  /** What the rest makes of the loop that has come to it. */
  lemma LoopMeetsRest(data: seq<byte>, offset: nat, out: seq<byte>, n: nat)
    requires offset <= |data|
    ensures var rest, loop := data[offset..], Turns(data, Running(offset, out), n);
            && (|rest| <= 4 ==> loop == if n == 0 then Running(offset, out) else Finished(out))
            && (ZeroLength(rest) ==> loop == Running(offset, out))
            && (PastTheEnd(rest) ==> loop == if n == 0 then Running(offset, out) else Crashed)
  {
    var rest := data[offset..];
    if |rest| <= 4 {
      if n > 0 {
        EndedStays(data, Finished(out), n - 1);
      }
    } else {
      assert rest[..4] == data[offset..offset + 4];
      ZeroIsFourZeros(rest[..4]);
      if ZeroLength(rest) {
        EndedStays(data, Running(offset, out), n);
      } else if n > 0 {
        EndedStays(data, Crashed, n - 1);
      }
    }
  }

  /** What has become of the loop `k` turns after the units. */
  lemma AfterUnits(data: seq<byte>, units: seq<seq<byte>>, rest: seq<byte>, k: nat)
    requires 4 <= |data| && SplitsFrom(data, 0, units, rest) && 0 < k
    ensures var loop := Turns(data, Enter(data), |units| + k);
            && (|rest| <= 4 ==> loop == Finished(AnnexB(units)))
            && (ZeroLength(rest) ==> loop.Running?)
            && (PastTheEnd(rest) ==> loop == Crashed)
  {
    RestIsLast(data, 0, units, rest);
    assert [] + AnnexB(units) == AnnexB(units);
    LoopPassesUnits(data, 0, [], units, rest, AnnexB(units));
    TurnsAdd(data, Enter(data), |units|, k);
    LoopMeetsRest(data, |data| - |rest|, AnnexB(units), k);
  }

  /** Where a buffer that splits one way leaves the loop after `n` turns. */
  lemma Fate(data: seq<byte>, units: seq<seq<byte>>, rest: seq<byte>, n: nat)
    requires 4 <= |data| && SplitsFrom(data, 0, units, rest)
    ensures n <= |units| ==> Turns(data, Enter(data), n).Running?
    ensures |units| < n && |rest| <= 4 ==> Turns(data, Enter(data), n) == Finished(AnnexB(units))
    ensures |units| < n && ZeroLength(rest) ==> Turns(data, Enter(data), n).Running?
    ensures |units| < n && PastTheEnd(rest) ==> Turns(data, Enter(data), n) == Crashed
  {
    if n <= |units| {
      LoopStillRuns(data, 0, [], units, rest, n);
    } else {
      AfterUnits(data, units, rest, n - |units|);
      assert |units| + (n - |units|) == n;
    }
  }

  /** On a well-formed buffer the loop returns the units' byte stream, and it takes the turns it takes. */
  lemma LoopConverts(data: seq<byte>, units: seq<seq<byte>>, rest: seq<byte>)
    requires 4 <= |data| && SplitsFrom(data, 0, units, rest) && |rest| <= 4
    ensures Turns(data, Enter(data), |units| + 1) == Finished(AnnexB(units))
    ensures Units(data, 0) == Some(units)
  {
    Fate(data, units, rest, |units| + 1);
    UnitsFrom(data, 0, units, rest);
  }

  ghost predicate Returns(data: seq<byte>) {
    exists n: nat :: Turns(data, Enter(data), n).Finished?
  }

  ghost predicate Panics(data: seq<byte>) {
    exists n: nat :: Turns(data, Enter(data), n).Crashed?
  }

  ghost predicate Spins(data: seq<byte>) {
    forall n: nat :: Turns(data, Enter(data), n).Running?
  }

  lemma WellFormedReturns(data: seq<byte>)
    requires WellFormed(data)
    ensures Returns(data) && !Panics(data) && !Spins(data)
  {
    var units, rest :| SplitsFrom(data, 0, units, rest) && |rest| <= 4;
    forall n: nat ensures !Turns(data, Enter(data), n).Crashed? {
      Fate(data, units, rest, n);
    }
    LoopConverts(data, units, rest);
  }

  lemma ZeroLengthSpins(data: seq<byte>)
    requires HasZeroLength(data)
    ensures !Returns(data) && !Panics(data) && Spins(data)
  {
    var units, rest :| SplitsFrom(data, 0, units, rest) && ZeroLength(rest);
    forall n: nat ensures Turns(data, Enter(data), n).Running? {
      Fate(data, units, rest, n);
    }
  }

  lemma PastTheEndPanics(data: seq<byte>)
    requires |data| < 4 || HasLengthPastTheEnd(data)
    ensures !Returns(data) && Panics(data) && !Spins(data)
  {
    if |data| < 4 {
      forall n: nat ensures Turns(data, Enter(data), n) == Crashed {
        EndedStays(data, Crashed, n);
      }
      assert Turns(data, Enter(data), 0).Crashed?;
    } else {
      var units, rest :| SplitsFrom(data, 0, units, rest) && PastTheEnd(rest);
      forall n: nat ensures !Turns(data, Enter(data), n).Finished? {
        Fate(data, units, rest, n);
      }
      Fate(data, units, rest, |units| + 1);
    }
  }

  /** The loop returns on exactly the samples of non-empty units with up to four bytes more; it spins
      for ever on exactly those where a length of zero follows some units; and it panics on exactly
      those where a length reaches past the end, and those too short for a length. */
  lemma LoopEndsExactly(data: seq<byte>)
    ensures Returns(data) <==> WellFormed(data)
    ensures Spins(data) <==> HasZeroLength(data)
    ensures Panics(data) <==> |data| < 4 || HasLengthPastTheEnd(data)
    ensures Readable(data) <==> WellFormed(data)
  {
    ReadableExactly(data);
    var units, rest := EveryBufferSplits(data, 0);
    if WellFormed(data) {
      WellFormedReturns(data);
    }
    if HasZeroLength(data) {
      ZeroLengthSpins(data);
    }
    if |data| < 4 || HasLengthPastTheEnd(data) {
      PastTheEndPanics(data);
    }
  }

  lemma NineAsSample(rest: seq<byte>)
    ensures SplitsFrom([0, 0, 0, 1, 9] + rest, 0, [[9]], rest)
  {
    assert Digits(1, 4) == [0, 0, 0, 1] by {
      assert Digits(0, 1) == [0] && Digits(0, 2) == [0, 0] && Digits(0, 3) == [0, 0, 0];
    }
    assert [[9]][1..] == [];
    assert Avcc([[9]]) == [0, 0, 0, 1, 9];
  }

  lemma StrayByteReturns()
    ensures Returns([0, 0, 0, 1, 9, 7])
  {
    NineAsSample([7]);
    assert [0, 0, 0, 1, 9] + [7] == [0, 0, 0, 1, 9, 7];
    WellFormedReturns([0, 0, 0, 1, 9, 7]);
  }

  lemma ZeroAfterUnitSpins()
    ensures Spins([0, 0, 0, 1, 9, 0, 0, 0, 0, 7])
  {
    NineAsSample([0, 0, 0, 0, 7]);
    assert [0, 0, 0, 1, 9] + [0, 0, 0, 0, 7] == [0, 0, 0, 1, 9, 0, 0, 0, 0, 7];
    assert ZeroLength([0, 0, 0, 0, 7]);
    ZeroLengthSpins([0, 0, 0, 1, 9, 0, 0, 0, 0, 7]);
  }

  lemma TooLongAfterUnitPanics()
    ensures Panics([0, 0, 0, 1, 9, 0, 0, 0, 3, 7])
  {
    var rest: seq<byte> := [0, 0, 0, 3, 7];
    NineAsSample(rest);
    assert [0, 0, 0, 1, 9] + rest == [0, 0, 0, 1, 9, 0, 0, 0, 3, 7];
    assert PastTheEnd(rest) by {
      assert rest[..4] == [0, 0, 0, 3];
      assert Value([0]) == 0 && Value([0, 0]) == 0 && Value([0, 0, 0]) == 0;
    }
    PastTheEndPanics([0, 0, 0, 1, 9, 0, 0, 0, 3, 7]);
  }

  /** One buffer of each kind: the byte 9 as a unit, then a stray byte, a length of zero, a length
      too large. */
  lemma OneOfEach()
    ensures Returns([0, 0, 0, 1, 9, 7])
    ensures Spins([0, 0, 0, 1, 9, 0, 0, 0, 0, 7])
    ensures Panics([0, 0, 0, 1, 9, 0, 0, 0, 3, 7])
  {
    StrayByteReturns();
    ZeroAfterUnitSpins();
    TooLongAfterUnitPanics();
  }
}
