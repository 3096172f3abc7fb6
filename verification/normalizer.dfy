/** The web event normaliser of example.ts as pure step functions over the
    page's state: the two module-level flags, the installed fallback listeners
    and the function currently bound to `window.wrapperEvents`. */
module Normalizer {
  import opened Events
  import opened Delivery

  /** The fields of a DOM `PointerEvent` that the normaliser reads. */
  datatype PointerEvent = PointerEvent(
    pointerId: TouchId,
    pointerType: string,
    pressure: real,
    clientX: real,
    clientY: real)

  /** The field of a DOM `KeyboardEvent` that the normaliser reads. */
  datatype KeyboardEvent = KeyboardEvent(key: string)

  /** The three pointer handlers `window.onpointerdown/move/up`. */
  datatype PointerCallback = PointerDown | PointerMove | PointerUp

  /** Which fallback handlers are present on `window`; `blocksTouchStart` is the
      `touchstart` listener that cancels the swipe-navigation gesture. */
  datatype Listeners = Listeners(
    onPointerDown: bool,
    onPointerMove: bool,
    onPointerUp: bool,
    onKeyDown: bool,
    onKeyUp: bool,
    blocksTouchStart: bool)

  predicate AllInstalled(l: Listeners) {
    l.onPointerDown && l.onPointerMove && l.onPointerUp && l.onKeyDown && l.onKeyUp && l.blocksTouchStart
  }

  predicate NoneInstalled(l: Listeners) {
    !l.onPointerDown && !l.onPointerMove && !l.onPointerUp && !l.onKeyDown && !l.onKeyUp && !l.blocksTouchStart
  }

  /** What `window.wrapperEvents` holds: nothing before the script has run, the
      bootstrap handler `handleFirstWrapperEvents` while in fallback mode, and
      `handleWrapperEvents` once the native shell has called in. */
  datatype Entry = Unbound | Fallback | Native

  datatype Page = Page(pointerDown: bool, spaceBarDown: bool, listeners: Listeners, wrapperEvents: Entry)

  /** The outcome of one callback: the next page state and the events the
      application received from it, in order. */
  datatype Step = Step(page: Page, delivered: Batch)

  /** The page before the script's last two statements run. */
  const Unloaded: Page := Page(false, false, Listeners(false, false, false, false, false, false), Unbound)

  /** The states the page can reach: the fallback handlers are installed exactly
      while the bootstrap handler is bound. */
  predicate Consistent(p: Page) {
    match p.wrapperEvents
    case Fallback => AllInstalled(p.listeners)
    case _ => NoneInstalled(p.listeners)
  }

  function SetupFallbackEventListeners(p: Page): (r: Page)
    ensures AllInstalled(r.listeners)
    ensures r == p.(listeners := r.listeners)
  {
    p.(listeners := Listeners(true, true, true, true, true, true))
  }

  function ClearFallbackEventListeners(p: Page): (r: Page)
    ensures NoneInstalled(r.listeners)
    ensures r == p.(listeners := r.listeners)
  {
    p.(listeners := Listeners(false, false, false, false, false, false))
  }

  /** Tearing the fallback down twice is the same as tearing it down once. */
  lemma ClearIdempotent(p: Page)
    ensures ClearFallbackEventListeners(ClearFallbackEventListeners(p)) == ClearFallbackEventListeners(p)
  {
  }

  /** The bootstrap at the bottom of the script: install the fallback
      listeners, then bind the bootstrap handler. */
  function Bootstrap(p: Page): (r: Page)
    ensures r.wrapperEvents == Fallback && Consistent(r)
    ensures r.pointerDown == p.pointerDown && r.spaceBarDown == p.spaceBarDown
  {
    SetupFallbackEventListeners(p).(wrapperEvents := Fallback)
  }

  /** The page right after the script has loaded. */
  lemma StartupState()
    ensures var p := Bootstrap(Unloaded);
      p.wrapperEvents == Fallback && AllInstalled(p.listeners) && !p.pointerDown && !p.spaceBarDown
  {
  }

  /** The fields every synthesised event takes from its `PointerEvent` or as constants. */
  predicate SynthesizedFrom(ev: WrapperEvent, e: PointerEvent, now: real) {
    && ev.id == e.pointerId
    && ev.predicted == Some(false)
    && ev.position == Position(e.clientX, e.clientY)
    && ev.hoverHeight == 0.5
    && ev.altitude == 0.0
    && ev.azimuth == 0.0
    && ev.rollAngle == 0.0
    && ev.radius == 0.0
    && ev.timestamp == now
  }

  /** `pointerEvent(e, phase)`: update the shared down flag, synthesise one
      event and hand it straight to `handleWrapperEvents`. `now` stands for
      `performance.now()`. */
  function PointerEventToWrapper(p: Page, e: PointerEvent, phase: Phase, now: real): (s: Step)
    ensures phase == Began ==> s.page.pointerDown
    ensures phase == Ended ==> !s.page.pointerDown
    ensures phase != Began && phase != Ended ==> s.page.pointerDown == p.pointerDown
    ensures s.page == p.(pointerDown := s.page.pointerDown)
    ensures |s.delivered| == 1
    ensures s.delivered[0].phase == Hover <==> phase == Hover || (phase == Moved && !p.pointerDown)
    ensures s.delivered[0].phase != Hover ==> s.delivered[0].phase == phase
    ensures s.delivered[0].kind == Finger <==> e.pointerType == "touch" || p.spaceBarDown
    ensures e.pointerType == "mouse" ==> s.delivered[0].pressure == 1.0
    ensures e.pointerType != "mouse" ==> s.delivered[0].pressure == e.pressure * 5.0
    ensures SynthesizedFrom(s.delivered[0], e, now) && !IsPredicted(s.delivered[0])
  {
    var down := if phase == Began then true else if phase == Ended then false else p.pointerDown;
    var shown := if phase == Moved && !down then Hover else phase;
    var kind := if e.pointerType == "touch" || p.spaceBarDown then Finger else Pencil;
    var pressure := if e.pointerType == "mouse" then 1.0 else e.pressure * 5.0;
    var event := WrapperEvent(e.pointerId, kind, shown, Some(false), Position(e.clientX, e.clientY),
                              0.5, pressure, 0.0, 0.0, 0.0, 0.0, now);
    Step(p.(pointerDown := down), Kept([event], UsePredictedEvents))
  }

  /** A contact begins, moves, ends, then the pointer moves on: the moves in
      between read as `moved`, the one after as `hover`. The flag is shared, so
      the four pointer ids need not agree. */
  lemma ContactLifecycle(p: Page, a: PointerEvent, b: PointerEvent, c: PointerEvent, d: PointerEvent, t: real)
    ensures var s1 := PointerEventToWrapper(p, a, Began, t);
      var s2 := PointerEventToWrapper(s1.page, b, Moved, t);
      var s3 := PointerEventToWrapper(s2.page, c, Ended, t);
      var s4 := PointerEventToWrapper(s3.page, d, Moved, t);
      s1.delivered[0].phase == Began && s2.delivered[0].phase == Moved
      && s3.delivered[0].phase == Ended && s4.delivered[0].phase == Hover
  {
  }

  /** The down flag is one flag for every pointer. With two fingers down, the
      first one lifting makes the second one's moves read `hover`; a pen that
      hovers while a finger is down reads `moved`. */
  lemma SharedDownFlag(p: Page, finger1: PointerEvent, finger2: PointerEvent, pen: PointerEvent, t: real)
    requires finger1.pointerId != finger2.pointerId
    ensures var s1 := PointerEventToWrapper(p, finger1, Began, t);
      var s2 := PointerEventToWrapper(s1.page, finger2, Began, t);
      var s3 := PointerEventToWrapper(s2.page, finger1, Ended, t);
      var s4 := PointerEventToWrapper(s3.page, finger2, Moved, t);
      s4.delivered[0].phase == Hover
    ensures var s1 := PointerEventToWrapper(p, finger1, Began, t);
      var s2 := PointerEventToWrapper(s1.page, pen, Moved, t);
      s2.delivered[0].phase == Moved
  {
  }

  /** Three concrete pointer events on the freshly loaded page: a touch going
      down, a pen moving with nothing down, and a mouse going down while the
      space bar is held. */
  lemma FallbackScenarios(t: real)
    ensures var s := PointerEventToWrapper(Bootstrap(Unloaded), PointerEvent(1, "touch", 0.5, 10.0, 20.0), Began, t);
      var ev := s.delivered[0];
      ev.kind == Finger && ev.phase == Began && ev.position == Position(10.0, 20.0) && ev.predicted == Some(false)
    ensures var s := PointerEventToWrapper(Bootstrap(Unloaded), PointerEvent(2, "pen", 0.5, 15.0, 25.0), Moved, t);
      s.delivered[0].phase == Hover && s.delivered[0].kind == Pencil
    ensures var p := OnKeyDown(Bootstrap(Unloaded), KeyboardEvent(" "));
      var s := PointerEventToWrapper(p, PointerEvent(3, "mouse", 0.0, 1.0, 1.0), Began, t);
      s.delivered[0].kind == Finger && s.delivered[0].pressure == 1.0
  {
  }

  function CallbackPhase(cb: PointerCallback): Phase {
    match cb
    case PointerDown => Began
    case PointerMove => Moved
    case PointerUp => Ended
  }

  predicate Installed(l: Listeners, cb: PointerCallback) {
    match cb
    case PointerDown => l.onPointerDown
    case PointerMove => l.onPointerMove
    case PointerUp => l.onPointerUp
  }

  /** The browser firing a pointer event at `window`: nothing happens unless
      the matching fallback handler is present. */
  function OnPointer(p: Page, cb: PointerCallback, e: PointerEvent, now: real): (s: Step)
    ensures !Installed(p.listeners, cb) ==> s == Step(p, [])
    ensures Installed(p.listeners, cb) ==> s == PointerEventToWrapper(p, e, CallbackPhase(cb), now)
    ensures Installed(p.listeners, cb) && cb == PointerDown ==> s.page.pointerDown && s.delivered[0].phase == Began
    ensures Installed(p.listeners, cb) && cb == PointerUp ==> !s.page.pointerDown && s.delivered[0].phase == Ended
    ensures Installed(p.listeners, cb) && cb == PointerMove ==>
      s.delivered[0].phase == (if p.pointerDown then Moved else Hover)
  {
    if Installed(p.listeners, cb) then PointerEventToWrapper(p, e, CallbackPhase(cb), now) else Step(p, [])
  }

  /** `window.onkeydown`: only the space bar, and only while the handler is present. */
  function OnKeyDown(p: Page, k: KeyboardEvent): (r: Page)
    ensures r.spaceBarDown <==> p.spaceBarDown || (p.listeners.onKeyDown && k.key == " ")
    ensures r == p.(spaceBarDown := r.spaceBarDown)
  {
    if p.listeners.onKeyDown && k.key == " " then p.(spaceBarDown := true) else p
  }

  /** `window.onkeyup`: only the space bar, and only while the handler is present. */
  function OnKeyUp(p: Page, k: KeyboardEvent): (r: Page)
    ensures r.spaceBarDown <==> p.spaceBarDown && !(p.listeners.onKeyUp && k.key == " ")
    ensures r == p.(spaceBarDown := r.spaceBarDown)
  {
    if p.listeners.onKeyUp && k.key == " " then p.(spaceBarDown := false) else p
  }

  /** Every key other than the space bar leaves the page as it was. */
  lemma OtherKeysIgnored(p: Page, k: KeyboardEvent)
    requires k.key != " "
    ensures OnKeyDown(p, k) == p && OnKeyUp(p, k) == p
  {
  }

  /** `handleFirstWrapperEvents`: rebind the entry point, tear the fallback
      down, deliver the batch that triggered the switch. */
  function HandleFirstWrapperEvents(p: Page, events: Batch): (s: Step)
    ensures s.page.wrapperEvents == Native && NoneInstalled(s.page.listeners)
    ensures s.page.pointerDown == p.pointerDown && s.page.spaceBarDown == p.spaceBarDown
    ensures s.delivered == Kept(events, UsePredictedEvents)
  {
    var rebound := p.(wrapperEvents := Native);
    Step(ClearFallbackEventListeners(rebound), Kept(events, UsePredictedEvents))
  }

  /** The native shell's `if ('wrapperEvents' in window) wrapperEvents(json)`. */
  function CallWrapperEvents(p: Page, events: Batch): (s: Step)
    ensures p.wrapperEvents == Unbound ==> s == Step(p, [])
    ensures p.wrapperEvents != Unbound ==>
      s.page.wrapperEvents == Native && s.delivered == Kept(events, UsePredictedEvents)
    ensures p.wrapperEvents == Fallback ==> NoneInstalled(s.page.listeners)
    ensures p.wrapperEvents == Native ==> s.page == p
    ensures s.page.pointerDown == p.pointerDown && s.page.spaceBarDown == p.spaceBarDown
  {
    match p.wrapperEvents
    case Unbound => Step(p, [])
    case Fallback => HandleFirstWrapperEvents(p, events)
    case Native => Step(p, Kept(events, UsePredictedEvents))
  }

  /** One thing that can happen to the loaded page. */
  datatype Input =
    | Pointer(callback: PointerCallback, event: PointerEvent, now: real)
    | KeyDown(key: KeyboardEvent)
    | KeyUp(key: KeyboardEvent)
    | WrapperCall(events: Batch)

  function Apply(p: Page, i: Input): Step {
    match i
    case Pointer(cb, e, now) => OnPointer(p, cb, e, now)
    case KeyDown(k) => Step(OnKeyDown(p, k), [])
    case KeyUp(k) => Step(OnKeyUp(p, k), [])
    case WrapperCall(events) => CallWrapperEvents(p, events)
  }

  /** A sequence of inputs, with everything the application received, in order. */
  function Run(p: Page, inputs: seq<Input>): Step
    decreases |inputs|
  {
    if inputs == [] then Step(p, [])
    else
      var first := Apply(p, inputs[0]);
      var rest := Run(first.page, inputs[1..]);
      Step(rest.page, first.delivered + rest.delivered)
  }

  /** What native mode delivers for a sequence of inputs: the kept part of each
      native batch, and nothing for pointer or key input. */
  function NativeDelivered(inputs: seq<Input>): Batch
    decreases |inputs|
  {
    if inputs == [] then []
    else
      var here := if inputs[0].WrapperCall? then Kept(inputs[0].events, UsePredictedEvents) else [];
      here + NativeDelivered(inputs[1..])
  }

  /** The number of pointer callbacks among the inputs. */
  function PointerCount(inputs: seq<Input>): nat
    decreases |inputs|
  {
    if inputs == [] then 0 else (if inputs[0].Pointer? then 1 else 0) + PointerCount(inputs[1..])
  }

  /** Every input keeps the page in a reachable state. */
  lemma {:induction false} RunPreservesConsistent(p: Page, inputs: seq<Input>)
    requires Consistent(p)
    ensures Consistent(Run(p, inputs).page)
    decreases |inputs|
  {
    if inputs != [] {
      RunPreservesConsistent(Apply(p, inputs[0]).page, inputs[1..]);
    }
  }

  /** Native mode is terminal and the fallback is inert in it: the page never
      changes again and only native batches reach the application. */
  lemma {:induction false} NativeModeIsTerminal(p: Page, inputs: seq<Input>)
    requires p.wrapperEvents == Native && NoneInstalled(p.listeners)
    ensures Run(p, inputs) == Step(p, NativeDelivered(inputs))
    decreases |inputs|
  {
    if inputs != [] {
      NativeModeIsTerminal(p, inputs[1..]);
    }
  }

  /** Until the native shell calls in, each pointer callback delivers exactly
      one event, none of them predicted, and the page stays in fallback mode. */
  lemma {:induction false} FallbackOneEventPerCallback(p: Page, inputs: seq<Input>)
    requires p.wrapperEvents == Fallback && AllInstalled(p.listeners)
    requires forall i :: 0 <= i < |inputs| ==> !inputs[i].WrapperCall?
    ensures var s := Run(p, inputs);
      s.page.wrapperEvents == Fallback && AllInstalled(s.page.listeners)
      && |s.delivered| == PointerCount(inputs)
      && forall j :: 0 <= j < |s.delivered| ==> !IsPredicted(s.delivered[j])
    decreases |inputs|
  {
    if inputs != [] {
      var first := Apply(p, inputs[0]);
      assert forall i :: 0 <= i < |inputs[1..]| ==> !inputs[1..][i].WrapperCall? by {
        forall i | 0 <= i < |inputs[1..]| ensures !inputs[1..][i].WrapperCall? {
          assert inputs[1..][i] == inputs[i + 1];
        }
      }
      FallbackOneEventPerCallback(first.page, inputs[1..]);
    }
  }

  /** The first native call switches the page for good: it delivers its own
      batch, and after it only native batches are delivered. */
  lemma FirstWrapperCallSwitches(p: Page, events: Batch, later: seq<Input>)
    requires p.wrapperEvents == Fallback && Consistent(p)
    ensures var s := Run(p, [WrapperCall(events)] + later);
      s.page.wrapperEvents == Native && NoneInstalled(s.page.listeners)
      && s.delivered == Kept(events, UsePredictedEvents) + NativeDelivered(later)
  {
    var inputs := [WrapperCall(events)] + later;
    assert inputs[0] == WrapperCall(events);
    assert inputs[1..] == later;
    NativeModeIsTerminal(CallWrapperEvents(p, events).page, later);
  }
}
