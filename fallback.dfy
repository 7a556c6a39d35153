/**
  The fallback driver of `preview`: a queue of strategies, each taken off the
  front (`shift`) by `tryLoad`; a strategy's error callback runs `tryLoad`
  again and, when the queue is empty, shows the blank image; its success
  callback does nothing more.

  `Steps(queue, reports)` is what the driver has done once the strategies it
  started reported `reports`, in order, through their callbacks.
 */
module Fallback {

  /** The two strategies of `preview`'s `loadMethods`. */
  datatype Strategy = DataUri | LocalPath

  /** What a strategy reported: its `onLoad` or its `onError` callback. */
  datatype Outcome = Succeeded | Failed

  /** An action of the driver: a strategy started by `tryLoad`, or
      `showEmptyImage_` called by `onError`. */
  datatype Step = Attempt(strategy: Strategy) | ShowEmpty

  /** `loadMethods`, in priority order. */
  const LoadMethods: seq<Strategy> := [DataUri, LocalPath]

  /** Reports a driver can receive: at most one per queued strategy, and only
      the last may be a success (nothing runs after a success). */
  predicate Admissible(queue: seq<Strategy>, reports: seq<Outcome>)
  {
    |reports| <= |queue| && forall i :: 0 <= i < |reports| - 1 ==> reports[i] == Failed
  }

  /** The driver's actions: `tryLoad` starts the first strategy; while its
      report is outstanding or after it succeeded nothing more happens; after
      it failed, `onError` either starts the next one or, with the queue
      empty, shows the blank image. */
  function Steps(queue: seq<Strategy>, reports: seq<Outcome>): seq<Step>
  {
    if queue == [] then []
    else
      var after :=
        if reports == [] || reports[0] == Succeeded then []
        else if |queue| == 1 then [ShowEmpty]
        else Steps(queue[1..], reports[1..]);
      [Attempt(queue[0])] + after
  }

  /** Strategies as the steps that start them. */
  function AttemptsOf(s: seq<Strategy>): (r: seq<Step>)
    ensures |r| == |s| && forall i :: 0 <= i < |s| ==> r[i] == Attempt(s[i])
  {
    if s == [] then [] else [Attempt(s[0])] + AttemptsOf(s[1..])
  }

  /** Every queued strategy was started and every one failed. */
  predicate Exhausted(queue: seq<Strategy>, reports: seq<Outcome>)
  {
    queue != [] && |reports| == |queue| && forall i :: 0 <= i < |reports| ==> reports[i] == Failed
  }

  /** How many strategies the driver has started: one more than the failures
      reported, unless the last report is a success or the queue ran out. */
  function AttemptCount(queue: seq<Strategy>, reports: seq<Outcome>): (n: nat)
    requires Admissible(queue, reports)
    ensures n <= |queue|
  {
    if queue == [] then 0
    else if reports != [] && reports[|reports| - 1] == Succeeded then |reports|
    else if |reports| < |queue| then |reports| + 1
    else |queue|
  }

  /** The driver starts a prefix of the queue, in queue order, each strategy
      at most once, and then shows the blank image exactly when all of them
      failed. */
  lemma {:induction false} StepsClosedForm(queue: seq<Strategy>, reports: seq<Outcome>)
    requires Admissible(queue, reports)
    ensures Steps(queue, reports)
      == AttemptsOf(queue[..AttemptCount(queue, reports)]) + (if Exhausted(queue, reports) then [ShowEmpty] else [])
  {
    if queue != [] && reports != [] && reports[0] == Failed && |queue| > 1 {
      var q', r' := queue[1..], reports[1..];
      AfterFirstFailure(queue, reports);
      StepsClosedForm(q', r');
      var n := AttemptCount(q', r');
      PrefixCons(queue, n);
      AttemptsOfCons(queue[0], q'[..n]);
    } else {
      StepsClosedFormBase(queue, reports);
    }
  }

  /** A non-empty prefix is the first element and a prefix of the rest. */
  lemma PrefixCons(s: seq<Strategy>, n: nat)
    requires n < |s|
    ensures s[..n + 1] == [s[0]] + s[1..][..n]
  {
    forall i | 0 <= i < n + 1 ensures s[..n + 1][i] == ([s[0]] + s[1..][..n])[i] {
      if i > 0 {
        assert ([s[0]] + s[1..][..n])[i] == s[1..][..n][i - 1];
      }
    }
  }

  /** Starting one strategy and then others is one step and then theirs. */
  lemma AttemptsOfCons(x: Strategy, s: seq<Strategy>)
    ensures AttemptsOf([x] + s) == [Attempt(x)] + AttemptsOf(s)
  {
    assert ([x] + s)[1..] == s;
  }

  /** The closed form where `Steps` does not recur. */
  lemma StepsClosedFormBase(queue: seq<Strategy>, reports: seq<Outcome>)
    requires Admissible(queue, reports)
    requires !(queue != [] && reports != [] && reports[0] == Failed && |queue| > 1)
    ensures Steps(queue, reports)
      == AttemptsOf(queue[..AttemptCount(queue, reports)]) + (if Exhausted(queue, reports) then [ShowEmpty] else [])
  {
    if queue != [] {
      assert queue[..1] == [queue[0]];
    }
  }

  /** After a first failure the driver behaves as on the rest of the queue,
      one strategy later. */
  lemma AfterFirstFailure(queue: seq<Strategy>, reports: seq<Outcome>)
    requires Admissible(queue, reports) && |queue| > 1 && reports != [] && reports[0] == Failed
    ensures Admissible(queue[1..], reports[1..])
    ensures Steps(queue, reports) == [Attempt(queue[0])] + Steps(queue[1..], reports[1..])
    ensures AttemptCount(queue, reports) == AttemptCount(queue[1..], reports[1..]) + 1
    ensures Exhausted(queue, reports) == Exhausted(queue[1..], reports[1..])
  {
    var q', r' := queue[1..], reports[1..];
    assert Admissible(q', r') by {
      forall i | 0 <= i < |r'| - 1 ensures r'[i] == Failed {
        assert r'[i] == reports[i + 1];
      }
    }
    if r' != [] {
      assert r'[|r'| - 1] == reports[|reports| - 1];
    }
    assert Exhausted(queue, reports) == Exhausted(q', r') by {
      if Exhausted(q', r') {
        forall i | 0 <= i < |reports| ensures reports[i] == Failed {
          if i > 0 { assert reports[i] == r'[i - 1]; }
        }
      }
      if Exhausted(queue, reports) {
        forall i | 0 <= i < |r'| ensures r'[i] == Failed {
          assert r'[i] == reports[i + 1];
        }
      }
    }
  }

  /** The driver starts the first strategy unconditionally, and strategy
      i + 1 only after strategy i reported a failure. */
  lemma NextOnlyAfterFailure(queue: seq<Strategy>, reports: seq<Outcome>)
    requires Admissible(queue, reports)
    ensures queue != [] ==> 1 <= AttemptCount(queue, reports)
    ensures forall i :: 0 <= i < |queue| - 1 ==>
      (i + 1 < AttemptCount(queue, reports) <==> i < |reports| && reports[i] == Failed)
  {
  }

  /** The blank image is shown exactly once when every strategy failed, as
      the last step, and otherwise never. */
  lemma ShowEmptyExactlyOnce(queue: seq<Strategy>, reports: seq<Outcome>)
    requires Admissible(queue, reports)
    ensures multiset(Steps(queue, reports))[ShowEmpty] == if Exhausted(queue, reports) then 1 else 0
    ensures Exhausted(queue, reports) ==> Steps(queue, reports)[|Steps(queue, reports)| - 1] == ShowEmpty
  {
    StepsClosedForm(queue, reports);
    var attempts := AttemptsOf(queue[..AttemptCount(queue, reports)]);
    assert ShowEmpty !in multiset(attempts);
    if Exhausted(queue, reports) {
      assert multiset(attempts + [ShowEmpty]) == multiset(attempts) + multiset{ShowEmpty};
    } else {
      assert attempts + [] == attempts;
    }
  }

  /** A success stops the chain: no further strategy starts and the blank
      image is never shown. */
  lemma SuccessStops(queue: seq<Strategy>, reports: seq<Outcome>, i: nat)
    requires Admissible(queue, reports) && i < |reports| && reports[i] == Succeeded
    ensures i == |reports| - 1
    ensures AttemptCount(queue, reports) == |reports|
    ensures ShowEmpty !in Steps(queue, reports)
  {
    ShowEmptyExactlyOnce(queue, reports);
  }

  /** Before a new report, every earlier report was a failure. */
  lemma AdmissibleBefore(queue: seq<Strategy>, reports: seq<Outcome>, o: Outcome)
    requires Admissible(queue, reports + [o])
    ensures Admissible(queue, reports)
    ensures forall i :: 0 <= i < |reports| ==> reports[i] == Failed
  {
    forall i | 0 <= i < |reports| ensures reports[i] == Failed {
      assert (reports + [o])[i] == reports[i];
    }
  }

  /** A strategy's failure report makes the driver start the next queued
      strategy, or show the blank image when none is left. */
  lemma {:induction false} StepsOnFailure(queue: seq<Strategy>, reports: seq<Outcome>)
    requires Admissible(queue, reports + [Failed])
    ensures Steps(queue, reports + [Failed]) == Steps(queue, reports)
      + if |reports| + 1 < |queue| then [Attempt(queue[|reports| + 1])] else [ShowEmpty]
  {
    AdmissibleBefore(queue, reports, Failed);
    if reports != [] {
      var q', r' := queue[1..], reports[1..];
      assert (reports + [Failed])[1..] == r' + [Failed];
      assert Admissible(q', r' + [Failed]) by {
        forall i | 0 <= i < |r'| ensures r'[i] == Failed {
          assert r'[i] == reports[i + 1];
        }
      }
      StepsOnFailure(q', r');
      if |reports| + 1 < |queue| {
        assert q'[|r'| + 1] == queue[|reports| + 1];
      }
    }
  }

  /** A strategy's success report adds nothing to what the driver did. */
  lemma StepsOnSuccess(queue: seq<Strategy>, reports: seq<Outcome>)
    requires Admissible(queue, reports + [Succeeded])
    ensures Steps(queue, reports + [Succeeded]) == Steps(queue, reports)
  {
    AdmissibleBefore(queue, reports, Succeeded);
    StepsClosedForm(queue, reports);
    StepsClosedForm(queue, reports + [Succeeded]);
    assert !Exhausted(queue, reports + [Succeeded]);
    assert !Exhausted(queue, reports);
  }

  /** With the two strategies of `preview`: a data URL success stops at the
      first; otherwise the local-path probe runs; both failing shows the
      blank image once. */
  lemma LoadMethodsRuns()
    ensures Steps(LoadMethods, []) == [Attempt(DataUri)]
    ensures Steps(LoadMethods, [Succeeded]) == [Attempt(DataUri)]
    ensures Steps(LoadMethods, [Failed]) == [Attempt(DataUri), Attempt(LocalPath)]
    ensures Steps(LoadMethods, [Failed, Succeeded]) == [Attempt(DataUri), Attempt(LocalPath)]
    ensures Steps(LoadMethods, [Failed, Failed]) == [Attempt(DataUri), Attempt(LocalPath), ShowEmpty]
  {
  }
}
