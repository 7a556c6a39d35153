/**
  The completion check of the local-path strategy (`checkComplete` in
  `maybeShowImageByLocalPath_`): how one event seen by the probe image is
  classified, and the one-shot latch that runs the terminal handling
  (`handleError` or `handleComplete`, each followed by `dispose`) at most
  once over any sequence of events.
 */
module Probe {

  /** What invoked `checkComplete`: the 50 ms poll (no `window.event`), or
      the probe's native `load` / `error` handler. */
  datatype Signal = Tick | Load | Error

  /** One invocation of `checkComplete`, with the probe image's state at
      that moment (`img.complete`, `img.width`, `img.height`). */
  datatype Observation = Observation(signal: Signal, complete: bool, width: nat, height: nat)

  /** The completion check's decision. */
  datatype Verdict = Pending | Failed | Loaded(width: nat, height: nat)

  /** An `error` event fails; a `load` event or a complete image fails when
      either dimension is zero and succeeds otherwise; anything else waits. */
  function Classify(o: Observation): (v: Verdict)
    ensures v == Pending <==> o.signal.Tick? && !o.complete
    ensures v.Loaded? <==> o.signal != Error && (o.complete || o.signal == Load) && o.width != 0 && o.height != 0
    ensures v.Loaded? ==> v.width == o.width && v.height == o.height
  {
    if o.signal == Error then Failed
    else if o.complete || o.signal == Load then
      if o.width == 0 || o.height == 0 then Failed else Loaded(o.width, o.height)
    else Pending
  }

  /** The terminal handlings a one-shot probe performs when `events` reach
      `checkComplete` in order: the first non-pending verdict, after which
      the probe has disposed itself and nothing more reaches it. */
  function Terminals(events: seq<Observation>): seq<Verdict>
  {
    if events == [] then []
    else if Classify(events[0]) != Pending then [Classify(events[0])]
    else Terminals(events[1..])
  }

  /** Terminal handling happens at most once, and never with a pending verdict. */
  lemma {:induction false} TerminalsAtMostOnce(events: seq<Observation>)
    ensures |Terminals(events)| <= 1
    ensures forall k :: 0 <= k < |Terminals(events)| ==> Terminals(events)[k] != Pending
  {
    if events != [] && Classify(events[0]) == Pending {
      TerminalsAtMostOnce(events[1..]);
    }
  }

  /** No terminal handling exactly when every event was pending; otherwise it
      is the verdict of the first non-pending event. */
  lemma {:induction false} TerminalsIsFirstVerdict(events: seq<Observation>)
    ensures Terminals(events) == [] <==> forall k :: 0 <= k < |events| ==> Classify(events[k]) == Pending
    ensures Terminals(events) != [] ==>
      exists i :: 0 <= i < |events| && Terminals(events) == [Classify(events[i])]
        && forall j :: 0 <= j < i ==> Classify(events[j]) == Pending
  {
    if events != [] && Classify(events[0]) == Pending {
      var rest := events[1..];
      TerminalsIsFirstVerdict(rest);
      assert forall k :: 1 <= k < |events| ==> events[k] == rest[k - 1];
      if Terminals(rest) != [] {
        var i :| 0 <= i < |rest| && Terminals(rest) == [Classify(rest[i])]
          && forall j :: 0 <= j < i ==> Classify(rest[j]) == Pending;
        assert events[i + 1] == rest[i];
        assert forall j :: 1 <= j < i + 1 ==> Classify(events[j]) == Classify(rest[j - 1]);
      }
    } else if events != [] {
      assert Terminals(events) == [Classify(events[0])];
    }
  }

  /** The latch: one more event changes the terminal handlings only while
      none has happened, and then exactly as that event alone would. */
  lemma {:induction false} TerminalsExtend(events: seq<Observation>, o: Observation)
    ensures Terminals(events + [o]) == if Terminals(events) == [] then Terminals([o]) else Terminals(events)
  {
    if events == [] {
      assert events + [o] == [o];
    } else {
      assert (events + [o])[0] == events[0];
      assert (events + [o])[1..] == events[1..] + [o];
      if Classify(events[0]) == Pending {
        TerminalsExtend(events[1..], o);
      }
    }
  }

  /** Once the probe has handled a terminal event, no sequence of later
      events changes anything. */
  lemma {:induction false} TerminalsStable(events: seq<Observation>, later: seq<Observation>)
    requires Terminals(events) != []
    ensures Terminals(events + later) == Terminals(events)
    decreases |later|
  {
    if later != [] {
      TerminalsExtend(events, later[0]);
      assert events + later == (events + [later[0]]) + later[1..];
      TerminalsStable(events + [later[0]], later[1..]);
    } else {
      assert events + later == events;
    }
  }

  /** A complete probe that reports a zero width is a failure; ticks before
      completion change nothing and an error after the success is ignored. */
  lemma ProbeExamples()
    ensures Terminals([Observation(Tick, true, 0, 40)]) == [Failed]
    ensures Terminals([Observation(Tick, false, 0, 0), Observation(Load, false, 30, 40),
                       Observation(Error, false, 30, 40)]) == [Loaded(30, 40)]
  {
  }
}
