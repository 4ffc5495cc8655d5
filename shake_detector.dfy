/**
 * The shake-gesture debouncer of the quiz app.
 *
 * A detector keeps the time of the last accepted shake and a count of the
 * shakes in the current burst. Each accelerometer sample is first classified
 * as a candidate (an accelerometer reading whose g-force is strictly above
 * 2.7); the floating-point classification itself is an input here. A
 * candidate closer than 500 ms to the last accepted shake is dropped; a
 * candidate more than 3000 ms after it restarts the count. An accepted
 * candidate records its time, bumps the count and fires the callback once.
 */
module ShakeDetection {

  /** Minimum distance, in milliseconds, between two accepted shakes. */
  const ShakeSlopTimeMs: int := 500
  /** Idle time, in milliseconds, after which the burst count restarts. */
  const ShakeCountResetTimeMs: int := 3000

  /** The two mutable fields of the detector, as a value. */
  datatype Detector = Detector(shakeTimestamp: int, shakeCount: int)

  /** A fresh detector: both fields start at zero. */
  const Initial: Detector := Detector(0, 0)

  /** What one sample does: the new detector and whether `onShake` was invoked. */
  datatype Reaction = Reaction(next: Detector, onShake: bool)

  /** One sample, reduced to what the debouncer looks at. */
  datatype Sample = Sample(isCandidate: bool, now: int)

  /**
   * The effect of one sample on the detector. The callback is a boolean of
   * the result: it is invoked at most once per sample.
   */
  function Transition(d: Detector, isCandidate: bool, now: int): (r: Reaction)
    // A sample that is not a candidate is ignored.
    ensures !isCandidate ==> r == Reaction(d, false)
    // A candidate fires exactly when it is at least 500 ms after the last shake.
    ensures isCandidate ==> (r.onShake <==> d.shakeTimestamp + ShakeSlopTimeMs <= now)
    // Nothing changes unless the callback fires.
    ensures !r.onShake ==> r.next == d
    // An accepted shake records its time; the count restarts only after a gap of more than 3000 ms.
    ensures r.onShake ==> r.next.shakeTimestamp == now
    ensures r.onShake && now > d.shakeTimestamp + ShakeCountResetTimeMs ==> r.next.shakeCount == 1
    ensures r.onShake && now <= d.shakeTimestamp + ShakeCountResetTimeMs ==> r.next.shakeCount == d.shakeCount + 1
  {
    if !isCandidate then
      Reaction(d, false)
    else if d.shakeTimestamp + ShakeSlopTimeMs > now then
      Reaction(d, false)
    else
      var count := if d.shakeTimestamp + ShakeCountResetTimeMs < now then 0 else d.shakeCount;
      Reaction(Detector(now, count + 1), true)
  }

  /** Any two accepted shakes are at least 500 ms apart. */
  ghost predicate Spaced(shakes: seq<int>)
  {
    forall i, j :: 0 <= i < j < |shakes| ==> shakes[i] + ShakeSlopTimeMs <= shakes[j]
  }

  /**
   * The number of shakes at the end of `shakes` in which every gap to the
   * previous shake is at most 3000 ms: the burst the detector is counting.
   */
  function BurstLength(shakes: seq<int>): (n: nat)
    ensures shakes == [] <==> n == 0
    ensures n <= |shakes|
  {
    if |shakes| <= 1 then |shakes|
    else if shakes[|shakes| - 2] + ShakeCountResetTimeMs < shakes[|shakes| - 1] then 1
    else BurstLength(shakes[..|shakes| - 1]) + 1
  }

  /**
   * The detector `d` is the one left behind by the accepted shakes `shakes`
   * (oldest first), starting from `Initial`.
   */
  ghost predicate Explains(d: Detector, shakes: seq<int>)
  {
    && Spaced(shakes)
    && (forall i :: 0 <= i < |shakes| ==> Initial.shakeTimestamp + ShakeSlopTimeMs <= shakes[i])
    && d.shakeTimestamp == (if shakes == [] then Initial.shakeTimestamp else shakes[|shakes| - 1])
    && d.shakeCount == BurstLength(shakes)
  }

  /** Shakes listed by `Explains` keep the count in range and the timestamp at the last one. */
  lemma ExplainsBounds(d: Detector, shakes: seq<int>)
    requires Explains(d, shakes)
    ensures 0 <= d.shakeCount <= |shakes|
    ensures shakes != [] ==> 1 <= d.shakeCount
    ensures forall i :: 0 <= i < |shakes| ==> shakes[i] <= d.shakeTimestamp
    ensures shakes != [] ==> d.shakeTimestamp == shakes[|shakes| - 1]
  {
  }

  /** A shake at least 500 ms after the last one keeps the history spaced. */
  lemma SpacedAppend(shakes: seq<int>, now: int)
    requires Spaced(shakes)
    requires shakes != [] ==> shakes[|shakes| - 1] + ShakeSlopTimeMs <= now
    ensures Spaced(shakes + [now])
  {
    var s := shakes + [now];
    forall i, j | 0 <= i < j < |s| ensures s[i] + ShakeSlopTimeMs <= s[j] {
      if j == |s| - 1 {
        assert s[i] == shakes[i];
        if i < |shakes| - 1 {
          assert shakes[i] + ShakeSlopTimeMs <= shakes[|shakes| - 1];
        }
      } else {
        assert s[i] == shakes[i] && s[j] == shakes[j];
      }
    }
  }

  /** A new shake either starts a burst (after more than 3000 ms) or extends the current one. */
  lemma BurstAppend(shakes: seq<int>, now: int)
    ensures BurstLength(shakes + [now]) ==
      if shakes != [] && shakes[|shakes| - 1] + ShakeCountResetTimeMs < now then 1
      else BurstLength(shakes) + 1
  {
    var s := shakes + [now];
    assert s[..|s| - 1] == shakes;
    if shakes != [] {
      assert s[|s| - 2] == shakes[|shakes| - 1];
    }
  }

  /** One sample extends the history by its time exactly when the callback fires. */
  lemma TransitionExplains(d: Detector, shakes: seq<int>, isCandidate: bool, now: int)
    requires Explains(d, shakes)
    ensures var r := Transition(d, isCandidate, now);
      Explains(r.next, if r.onShake then shakes + [now] else shakes)
  {
    var r := Transition(d, isCandidate, now);
    if r.onShake {
      var s := shakes + [now];
      SpacedAppend(shakes, now);
      BurstAppend(shakes, now);
      assert s[|s| - 1] == now;
      forall i | 0 <= i < |s| ensures Initial.shakeTimestamp + ShakeSlopTimeMs <= s[i] {
        if i < |shakes| {
          assert s[i] == shakes[i];
        }
      }
    }
  }

  /**
   * A fresh detector accepts its first candidate exactly when the clock reads
   * at least 500 ms, and then counts one shake.
   */
  lemma FirstShake(now: int)
    ensures Transition(Initial, true, now).onShake <==> ShakeSlopTimeMs <= now
    ensures ShakeSlopTimeMs <= now ==> Transition(Initial, true, now) == Reaction(Detector(now, 1), true)
  {
  }

  /** The detector after each sample of a sequence, and the times at which `onShake` fired. */
  datatype Trace = Trace(final: Detector, shakes: seq<int>)

  /** Feeds `samples` to the detector `d`, in order. */
  function Run(d: Detector, samples: seq<Sample>): (t: Trace)
    ensures |t.shakes| <= |samples|
    decreases |samples|
  {
    if samples == [] then Trace(d, [])
    else
      var r := Transition(d, samples[0].isCandidate, samples[0].now);
      var rest := Run(r.next, samples[1..]);
      Trace(rest.final, (if r.onShake then [samples[0].now] else []) + rest.shakes)
  }

  /** Running any samples keeps the detector explained by its history of accepted shakes. */
  lemma {:induction false} RunExplains(d: Detector, shakes: seq<int>, samples: seq<Sample>)
    requires Explains(d, shakes)
    ensures Explains(Run(d, samples).final, shakes + Run(d, samples).shakes)
    decreases |samples|
  {
    if samples == [] {
      assert shakes + [] == shakes;
    } else {
      var s0 := samples[0];
      var r := Transition(d, s0.isCandidate, s0.now);
      var h := if r.onShake then shakes + [s0.now] else shakes;
      TransitionExplains(d, shakes, s0.isCandidate, s0.now);
      RunExplains(r.next, h, samples[1..]);
      var rest := Run(r.next, samples[1..]);
      var t := Run(d, samples);
      if r.onShake {
        ConcatAssociates(shakes, [s0.now], rest.shakes);
      } else {
        assert t.shakes == rest.shakes;
      }
    }
  }

  /** Proof step for `RunExplains`: sequence concatenation is associative. */
  lemma ConcatAssociates(a: seq<int>, b: seq<int>, c: seq<int>)
    ensures a + (b + c) == (a + b) + c
  {
  }

  /** From a fresh detector, the history of a run is exactly the callbacks it fired. */
  lemma RunFromInitialExplains(samples: seq<Sample>)
    ensures Explains(Run(Initial, samples).final, Run(Initial, samples).shakes)
  {
    var none: seq<int> := [];
    assert Explains(Initial, none);
    RunExplains(Initial, none, samples);
    assert none + Run(Initial, samples).shakes == Run(Initial, samples).shakes;
  }

  /**
   * From a fresh detector, over any samples whatever their clock values:
   * accepted shakes are at least 500 ms apart, none comes before 500 ms, and
   * the count is never negative, at least 1 once a shake has fired, and never
   * above the number of callbacks fired.
   */
  lemma RunFromInitial(samples: seq<Sample>)
    ensures var t := Run(Initial, samples);
      && Spaced(t.shakes)
      && (forall i :: 0 <= i < |t.shakes| ==> ShakeSlopTimeMs <= t.shakes[i])
      && 0 <= t.final.shakeCount <= |t.shakes|
      && (t.shakes != [] ==> 1 <= t.final.shakeCount)
      && (t.shakes != [] ==> t.final.shakeTimestamp == t.shakes[|t.shakes| - 1])
  {
    var t := Run(Initial, samples);
    RunFromInitialExplains(samples);
    ExplainsBounds(t.final, t.shakes);
  }

  /** Two candidates less than 500 ms apart, the first one accepted: only the first fires. */
  lemma {:induction false} DebounceDropsSecond(d: Detector, t: int, delta: int)
    requires d.shakeTimestamp + ShakeSlopTimeMs <= t
    requires delta < ShakeSlopTimeMs
    ensures Run(d, [Sample(true, t), Sample(true, t + delta)]).shakes == [t]
  {
    var r := Transition(d, true, t);
    assert Run(d, [Sample(true, t), Sample(true, t + delta)]).shakes
        == [t] + Run(r.next, [Sample(true, t + delta)]).shakes;
    assert [Sample(true, t), Sample(true, t + delta)][1..] == [Sample(true, t + delta)];
    assert [Sample(true, t + delta)][1..] == [];
  }

  /** The object whose two private fields `onSensorChanged` updates in place. */
  class ShakeDetector {
    var shakeTimestamp: int
    var shakeCount: int
    /** Times, oldest first, at which `onShake` has been invoked. */
    ghost var shakes: seq<int>

    ghost predicate Valid()
      reads this
    {
      Explains(State(), shakes)
    }

    function State(): Detector
      reads this
    {
      Detector(shakeTimestamp, shakeCount)
    }

    constructor ()
      ensures Valid() && State() == Initial && shakes == []
    {
      shakeTimestamp := 0;
      shakeCount := 0;
      shakes := [];
    }

    /**
     * Handles one sensor sample; `onShake` tells whether the callback was
     * invoked. The Kotlin `onSensorChanged` reads the clock only for
     * candidates, and only candidates look at `now` here.
     */
    method OnSensorChanged(isCandidate: bool, now: int) returns (onShake: bool)
      requires Valid()
      modifies this
      ensures Valid()
      ensures Reaction(State(), onShake) == Transition(old(State()), isCandidate, now)
      ensures shakes == if onShake then old(shakes) + [now] else old(shakes)
      ensures onShake ==> 1 <= shakeCount <= |shakes| && shakeTimestamp == now
    {
      ghost var r := Transition(State(), isCandidate, now);
      TransitionExplains(State(), shakes, isCandidate, now);
      onShake := false;
      if isCandidate {
        if shakeTimestamp + ShakeSlopTimeMs > now {
          return;
        }
        if shakeTimestamp + ShakeCountResetTimeMs < now {
          shakeCount := 0;
        }
        shakeTimestamp := now;
        shakeCount := shakeCount + 1;
        shakes := shakes + [now];
        onShake := true;
        assert State() == r.next;
        ExplainsBounds(State(), shakes);
      }
    }
  }
}
