/** `handleWrapperEvents` of example.ts: the downstream handler walks a batch in
    order and skips predicted events unless they are opted in. */
module Delivery {
  import opened Events

  /** The build-time opt-in for predicted events. */
  const UsePredictedEvents: bool := false

  /** The loop's `continue` condition. */
  predicate Skipped(e: WrapperEvent, usePredicted: bool) {
    IsPredicted(e) && !usePredicted
  }

  /** The events of a batch that reach the application, in their batch order. */
  function Kept(events: Batch, usePredicted: bool): (r: Batch)
    ensures |r| <= |events|
    ensures forall e :: e in r ==> e in events && !Skipped(e, usePredicted)
  {
    if events == [] then []
    else if Skipped(events[0], usePredicted) then Kept(events[1..], usePredicted)
    else [events[0]] + Kept(events[1..], usePredicted)
  }

  /** Delivery keeps order across a split batch: what a concatenation yields is
      what its parts yield, one after the other. */
  lemma {:induction false} KeptAppend(a: Batch, b: Batch, usePredicted: bool)
    ensures Kept(a + b, usePredicted) == Kept(a, usePredicted) + Kept(b, usePredicted)
  {
    if a == [] {
      assert a + b == b;
    } else {
      assert (a + b)[0] == a[0];
      assert (a + b)[1..] == a[1..] + b;
      KeptAppend(a[1..], b, usePredicted);
    }
  }

  /** Exactly the skipped events are dropped. */
  lemma {:induction false} KeptMembers(events: Batch, usePredicted: bool, e: WrapperEvent)
    ensures e in Kept(events, usePredicted) <==> e in events && !Skipped(e, usePredicted)
  {
    if events != [] {
      KeptMembers(events[1..], usePredicted, e);
      assert e in events <==> e == events[0] || e in events[1..];
    }
  }

  /** A batch passes through untouched exactly when none of its events is skipped. */
  lemma {:induction false} KeptUnchanged(events: Batch, usePredicted: bool)
    ensures Kept(events, usePredicted) == events
        <==> forall i :: 0 <= i < |events| ==> !Skipped(events[i], usePredicted)
  {
    if forall i :: 0 <= i < |events| ==> !Skipped(events[i], usePredicted) {
      if events != [] {
        assert forall i :: 0 <= i < |events[1..]| ==> !Skipped(events[1..][i], usePredicted) by {
          forall i | 0 <= i < |events[1..]|
            ensures !Skipped(events[1..][i], usePredicted)
          {
            assert events[1..][i] == events[i + 1];
          }
        }
        KeptUnchanged(events[1..], usePredicted);
        assert !Skipped(events[0], usePredicted);
      }
    } else {
      var i :| 0 <= i < |events| && Skipped(events[i], usePredicted);
      assert events[i] in events;
      assert events[i] !in Kept(events, usePredicted);
    }
  }

  /** With predicted events opted in, every batch is delivered whole. */
  lemma KeptOptedIn(events: Batch)
    ensures Kept(events, true) == events
  {
    KeptUnchanged(events, true);
  }

  /** The loop of `handleWrapperEvents`: it hands the application every event of
      the batch, in order, except those skipped as predicted. */
  method HandleWrapperEvents(events: Batch) returns (delivered: Batch)
    ensures delivered == Kept(events, UsePredictedEvents)
    ensures forall i :: 0 <= i < |delivered| ==> !IsPredicted(delivered[i])
  {
    delivered := [];
    var i := 0;
    while i < |events|
      invariant 0 <= i <= |events|
      invariant delivered == Kept(events[..i], UsePredictedEvents)
    {
      var event := events[i];
      assert events[..i + 1] == events[..i] + [event];
      KeptAppend(events[..i], [event], UsePredictedEvents);
      if !(IsPredicted(event) && !UsePredictedEvents) {
        delivered := delivered + [event];
      }
      i := i + 1;
    }
    assert events[..i] == events;
    forall j | 0 <= j < |delivered|
      ensures !IsPredicted(delivered[j])
    {
      assert delivered[j] in delivered;
    }
  }
}
