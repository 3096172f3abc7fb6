/** The two halves joined: the script calls the native shell makes, evaluated
    one after the other by the page. */
module Bridge {
  import opened Events
  import Delivery
  import N = Normalizer
  import C = Capture

  /** The page evaluating the native shell's script calls in order; a send
      that failed to serialise made no call. */
  function Evaluate(p: N.Page, calls: seq<Option<Batch>>): N.Step
    decreases |calls|
  {
    if calls == [] then N.Step(p, [])
    else
      var first := if calls[0] != None then N.CallWrapperEvents(p, calls[0].value) else N.Step(p, []);
      var rest := Evaluate(first.page, calls[1..]);
      N.Step(rest.page, first.delivered + rest.delivered)
  }

  /** The page inputs the native shell's sends amount to: one `wrapperEvents`
      call per send that serialised, none for a dropped one. */
  function NativeCalls(calls: seq<Option<Batch>>): seq<N.Input>
    decreases |calls|
  {
    if calls == [] then []
    else (if calls[0] != None then [N.WrapperCall(calls[0].value)] else []) + NativeCalls(calls[1..])
  }

  /** Native sends and pointer input drive one and the same page model:
      evaluating the sends is running the page on the calls they make. */
  lemma {:induction false} EvaluateIsRun(p: N.Page, calls: seq<Option<Batch>>)
    ensures Evaluate(p, calls) == N.Run(p, NativeCalls(calls))
    decreases |calls|
  {
    if calls != [] {
      var rest := NativeCalls(calls[1..]);
      if calls[0] != None {
        var inputs := [N.WrapperCall(calls[0].value)] + rest;
        assert NativeCalls(calls) == inputs;
        assert inputs[0] == N.WrapperCall(calls[0].value);
        assert inputs[1..] == rest;
        EvaluateIsRun(N.CallWrapperEvents(p, calls[0].value).page, calls[1..]);
      } else {
        assert NativeCalls(calls) == rest;
        EvaluateIsRun(p, calls[1..]);
        assert [] + Evaluate(p, calls[1..]).delivered == Evaluate(p, calls[1..]).delivered;
      }
    }
  }

  /** Every record a touch callback builds, touch after touch. */
  function AllRecords(phase: Phase, touches: seq<C.Touch>): Batch
    decreases |touches|
  {
    if touches == [] then [] else C.TouchBatch(phase, touches[0]) + AllRecords(phase, touches[1..])
  }

  /** Native records carry no `predicted` field, so the page never skips one. */
  lemma NativeBatchNeverFiltered(phase: Phase, t: C.Touch, usePredicted: bool)
    ensures Delivery.Kept(C.TouchBatch(phase, t), usePredicted) == C.TouchBatch(phase, t)
  {
    Delivery.KeptUnchanged(C.TouchBatch(phase, t), usePredicted);
  }

  lemma HoverNeverFiltered(h: C.HoverGesture, usePredicted: bool)
    ensures var b := C.HandleHover(h, true).value; Delivery.Kept(b, usePredicted) == b
  {
  }

  /** Before the script has run, `'wrapperEvents' in window` is false and every
      call is a no-op. */
  lemma {:induction false} UnloadedPageIgnoresCalls(p: N.Page, calls: seq<Option<Batch>>)
    requires p.wrapperEvents == N.Unbound
    ensures Evaluate(p, calls) == N.Step(p, [])
    decreases |calls|
  {
    if calls != [] {
      UnloadedPageIgnoresCalls(p, calls[1..]);
    }
  }

  /** Sends that failed to serialise reach nothing. */
  lemma {:induction false} DroppedSendsAreInert(p: N.Page, calls: seq<Option<Batch>>)
    requires forall i :: 0 <= i < |calls| ==> calls[i] == None
    ensures Evaluate(p, calls) == N.Step(p, [])
    decreases |calls|
  {
    if calls != [] {
      assert forall i :: 0 <= i < |calls[1..]| ==> calls[1..][i] == None by {
        forall i | 0 <= i < |calls[1..]| ensures calls[1..][i] == None {
          assert calls[1..][i] == calls[i + 1];
        }
      }
      DroppedSendsAreInert(p, calls[1..]);
    }
  }

  /** A touch callback on a loaded page whose batches all serialise: the
      application receives every record of every touch's batch, in order, and
      the page is in native mode with the fallback torn down. */
  lemma {:induction false} TouchesReachApplication(p: N.Page, c: C.Callback, touches: seq<C.Touch>, encodable: Batch -> bool)
    requires p.wrapperEvents != N.Unbound && N.Consistent(p)
    requires forall i :: 0 <= i < |touches| ==> encodable(C.TouchBatch(C.CallbackPhase(c), touches[i]))
    ensures var s := Evaluate(p, C.OnTouches(c, touches, encodable));
      && s.delivered == AllRecords(C.CallbackPhase(c), touches)
      && (touches == [] ==> s.page == p)
      && (touches != [] ==> s.page.wrapperEvents == N.Native && N.NoneInstalled(s.page.listeners))
      && s.page.pointerDown == p.pointerDown && s.page.spaceBarDown == p.spaceBarDown
    decreases |touches|
  {
    if touches != [] {
      var phase := C.CallbackPhase(c);
      var calls := C.OnTouches(c, touches, encodable);
      assert calls[0] == Some(C.TouchBatch(phase, touches[0]));
      assert calls[1..] == C.OnTouches(c, touches[1..], encodable);
      NativeBatchNeverFiltered(phase, touches[0], Delivery.UsePredictedEvents);
      var first := N.CallWrapperEvents(p, calls[0].value);
      assert forall i :: 0 <= i < |touches[1..]| ==> encodable(C.TouchBatch(phase, touches[1..][i])) by {
        forall i | 0 <= i < |touches[1..]| ensures encodable(C.TouchBatch(phase, touches[1..][i])) {
          assert touches[1..][i] == touches[i + 1];
        }
      }
      TouchesReachApplication(first.page, c, touches[1..], encodable);
    }
  }

  /** A hover over a loaded page reaches the application as its one record. */
  lemma HoverReachesApplication(p: N.Page, h: C.HoverGesture)
    requires p.wrapperEvents != N.Unbound
    ensures var s := Evaluate(p, [C.HandleHover(h, true)]);
      |s.delivered| == 1 && C.HoverRecordOf(s.delivered[0], h) && s.page.wrapperEvents == N.Native
  {
    HoverNeverFiltered(h, Delivery.UsePredictedEvents);
  }
}
