# Wrapper touch-event bridge, modelled in Dafny

Wrapper is an iPad shell that shows a full-screen web view. Its only real
logic is the touch-event bridge. This project models both halves of it.

- **Native capture** (`TouchesToJS` in `Wrapper/Wrapper.swift`) turns each
  touch callback into one batch of `WrapperEvent` records per touch. It
  expands coalesced samples in order and folds cancellation into `ended`.
  It turns each hover callback into a one-record batch. Each batch is sent
  to the page unless it fails to serialise.
- **Web normaliser** (`example.ts`) is a small state machine. Its state is
  the `pointerDown` and `spaceBarDown` flags, the installed fallback
  listeners, and the function bound to `window.wrapperEvents`: nothing, the
  bootstrap `handleFirstWrapperEvents`, or `handleWrapperEvents`. Pointer
  callbacks synthesise one event each. The first native call switches the
  page to native mode for good. Delivery skips predicted events.

Files:

- `events.dfy` (module `Events`): the shared `WrapperEvent` record. Its
  `predicted` field is an `Option`, because native records have no such
  field and JavaScript reads the missing field as falsy.
- `delivery.dfy` (module `Delivery`): the `handleWrapperEvents` filter, as a
  reference function `Kept` and as the loop itself.
- `normalizer.dfy` (module `Normalizer`): the step functions of `example.ts`,
  and `Run` over a sequence of inputs.
- `capture.dfy` (module `Capture`): `TouchesToJS`.
- `bridge.dfy` (module `Bridge`): native sends evaluated by the page.

Inputs the model takes as parameters:

- `performance.now()` is a `now` value.
- `hashValue`, `preciseLocation(in:)` and `azimuthAngle(in:)` are fields of
  the touch records.
- The outcome of JSON serialisation is an `encodes` flag, or an `encodable`
  function on batches.
- The iteration order of the `Set<UITouch>` is the order of a sequence.

Two points where the code goes beyond its own comments:

- The comment at example.ts:8-9 says the space bar makes *the mouse* a
  finger. The code at example.ts:52 applies the space bar to every pointer
  type, pen included. The model follows the code.
- Wrapper/Wrapper.swift:114-134 makes one script call per touch of a callback.

## Behaviour of the code worth knowing

- **No native record is ever skipped as predicted.** The native shell never
  writes a `predicted` key (Wrapper/Wrapper.swift:119-131, 139-151) and never
  sends predicted touches. So `usePredictedEvents` and the `continue` at
  example.ts:35-39 and 107 never drop a native record. This holds even though
  example.ts:24 declares `predicted: boolean`. `Bridge.NativeBatchNeverFiltered`
  and `Bridge.HoverNeverFiltered` prove it under either setting of the opt-in.
- **Every pointer shares one `pointerDown` flag** (example.ts:42, 47-50). In
  fallback mode, when one of two fingers lifts, the other finger's moves read
  `hover`. A hovering pen reads `moved` while a finger is down.
  `Normalizer.SharedDownFlag` and `Normalizer.ContactLifecycle` show this.
- **The two sides disagree on hover height for contacts.** Fallback contact
  events carry `hoverHeight` 0.5 (example.ts:64). Native contact records
  carry 0 (Wrapper/Wrapper.swift:124). `Normalizer.PointerEventToWrapper` and
  `Capture.Records` state the two values.

## Model

| member | source | states |
|---|---|---|
| Delivery.Kept | example.ts:105-108 | Delivery never grows a batch. Every delivered event came from the batch and is not skipped as predicted. |
| Delivery.KeptAppend | example.ts:106-107 | Delivery keeps batch order: filtering a concatenation equals filtering each part and concatenating the results. |
| Delivery.KeptMembers | example.ts:105-108 | An event is delivered if and only if it is in the batch and not skipped. |
| Delivery.KeptUnchanged | example.ts:105-108 | A batch is delivered whole if and only if none of its events is skipped. |
| Delivery.KeptOptedIn | example.ts:105-107 | With predicted events opted in, every batch is delivered whole. |
| Delivery.HandleWrapperEvents | example.ts:105-113 | The loop delivers exactly the reference filter's result, and none of the delivered events is predicted. |
| Normalizer.SetupFallbackEventListeners | example.ts:76-86 | All six fallback handlers are installed, and nothing else on the page changes. |
| Normalizer.ClearFallbackEventListeners | example.ts:88-95 | All six fallback handlers are removed, and nothing else on the page changes. |
| Normalizer.ClearIdempotent | example.ts:88-95 | Clearing the fallback twice is the same as clearing it once. |
| Normalizer.Bootstrap | example.ts:119-122 | After the script loads, the bootstrap handler is bound, the listeners are installed, and both flags are untouched. |
| Normalizer.StartupState | example.ts:42-43 | A freshly loaded page is in fallback mode, with all listeners installed and both flags false. |
| Normalizer.PointerEventToWrapper | example.ts:46-72 | `began` sets the down flag and `ended` clears it. A move reads `hover` exactly when nothing is down. The type is `finger` iff the pointer is a touch or the space bar is held. Pressure is 1 for a mouse and 5 times the reading otherwise. Exactly one unpredicted event is delivered, with the pointer's id and position, hover height 0.5, zero angles and radius, and the given time. |
| Normalizer.SharedDownFlag | example.ts:42-50 | With two fingers down, the first lifting makes the second one's move read `hover`. A pen moving while a finger is down reads `moved`. |
| Normalizer.FallbackScenarios | example.ts:46-72 | A touch down at (10,20) gives a `finger`/`began` event at (10,20), not predicted. A pen move with nothing down gives `pencil`/`hover`. A mouse down with the space bar held gives `finger` with pressure 1. |
| Normalizer.ContactLifecycle | example.ts:47-50 | The phases of began, moved, ended, moved are began, moved, ended, hover, whatever the pointer ids, because the down flag is shared. |
| Normalizer.OnPointer | example.ts:80-82 | With its handler absent, a pointer callback changes nothing and delivers nothing. With it present, down gives `began`, up gives `ended`, and move gives `moved` or `hover` depending on the down flag. |
| Normalizer.OnKeyDown | example.ts:84 | Only the space bar sets the space-bar flag, and only while the handler is installed. Nothing else changes. |
| Normalizer.OnKeyUp | example.ts:85 | Only the space bar clears the space-bar flag, and only while the handler is installed. Nothing else changes. |
| Normalizer.OtherKeysIgnored | example.ts:84-85 | A key other than the space bar leaves the page exactly as it was. |
| Normalizer.HandleFirstWrapperEvents | example.ts:98-103 | The first native call binds `handleWrapperEvents`, removes every fallback handler, keeps both flags, and delivers its own batch through the filter. |
| Normalizer.CallWrapperEvents | Wrapper/Wrapper.swift:157 | An unbound entry point makes the call a no-op. Otherwise the batch is filtered and delivered and the page ends in native mode. In native mode the page does not change. |
| Normalizer.RunPreservesConsistent | example.ts:98-122 | Over any inputs, the fallback handlers stay installed exactly while the bootstrap handler is bound. |
| Normalizer.NativeModeIsTerminal | example.ts:98-113 | Once in native mode, the page never changes again, and only native batches reach the application. |
| Normalizer.FallbackOneEventPerCallback | example.ts:46-86 | Until a native call, each pointer callback delivers exactly one unpredicted event, and the page stays in fallback mode. |
| Normalizer.FirstWrapperCallSwitches | example.ts:98-103 | The first native call delivers its batch, leaves the page in native mode with no listeners, and after it only native batches are delivered. |
| Capture.CallbackPhase | Wrapper/Wrapper.swift:161-164 | Began maps to `began` and moved to `moved`. Ended and cancelled both map to `ended`. No override yields `hover`. |
| Capture.Samples | Wrapper/Wrapper.swift:116 | A touch's samples are its coalesced list when there is one, and otherwise the touch alone. |
| Capture.Records | Wrapper/Wrapper.swift:117-132 | One record per sample, in sample order. Each record has the outer id and the callback's phase, `pencil` iff the sample is a stylus, hover height 0, no `predicted` field, and the sample's readings. |
| Capture.TouchBatch | Wrapper/Wrapper.swift:114-132 | A touch's batch is as long as its coalesced samples, or is one record built from the touch itself when there are none. Every record is built from its sample with the touch's id. |
| Capture.TouchBatchKeepsTimeOrder | Wrapper/Wrapper.swift:116-117 | A batch's record times are its samples' times in sample order, so samples in time order give a batch in time order. |
| Capture.SendToJS | Wrapper/Wrapper.swift:154-159 | A batch is sent unchanged exactly when it serialises, and is dropped otherwise. |
| Capture.SendTouches | Wrapper/Wrapper.swift:113-135 | There is one send per touch, in order. Send i carries touch i's batch exactly when that batch serialises. |
| Capture.OnTouches | Wrapper/Wrapper.swift:161-164 | Every record of every sent batch carries its touch's id and the callback's phase, hover height 0, and is not predicted. |
| Capture.CancelledIsEnded | Wrapper/Wrapper.swift:163-164 | `touchesCancelled` sends exactly what `touchesEnded` sends. |
| Capture.HandleHover | Wrapper/Wrapper.swift:137-152 | A hover sends one record when it serialises: `pencil`, `hover`, hover height equal to `zOffset`, pressure, radius and timestamp 0, and the recogniser's id, position and angles. |
| Capture.HoverAndContactDiffer | Wrapper/Wrapper.swift:137-152 | A hover record never has the phase of a touch-callback record. |
| Bridge.EvaluateIsRun | Wrapper/Wrapper.swift:154-159 | Evaluating the native sends equals running the page model on one `wrapperEvents` call per send that serialised, and none for a dropped send. |
| Bridge.NativeBatchNeverFiltered | Wrapper/Wrapper.swift:119-131 | Native contact batches pass the page's predicted-event filter whole, under either setting. |
| Bridge.HoverNeverFiltered | Wrapper/Wrapper.swift:139-151 | A native hover batch passes the page's predicted-event filter whole. |
| Bridge.UnloadedPageIgnoresCalls | Wrapper/Wrapper.swift:157 | Before `wrapperEvents` exists, every native call is a no-op. |
| Bridge.DroppedSendsAreInert | Wrapper/Wrapper.swift:155-158 | Sends that failed to serialise leave the page unchanged and deliver nothing. |
| Bridge.TouchesReachApplication | Wrapper/Wrapper.swift:113-135 | On a loaded page where every batch serialises, the application gets every record of every touch, in order. After at least one touch the page is in native mode with the fallback removed. |
| Bridge.HoverReachesApplication | Wrapper/Wrapper.swift:137-157 | On a loaded page, a serialisable hover reaches the application as its one record and leaves the page in native mode. |

## Left out

- SwiftUI views and the app lifecycle (`WrapperApp`, `AppView`, the spinner, the error text, the Quit button, status-bar and gesture hiding). These are user interface.
- `WrapperWebView`, its coordinator, page loading and load-failure reporting. These are WebKit I/O.
- The certificate-trust override (Wrapper/Wrapper.swift:86-88). It is security policy over a foreign API.
- JSON text and `evaluateJavaScript`. A payload is a sequence of records, and a send is delivered or dropped. Serialisation is foreign code, so its outcome is an input.
- UIKit geometry and identity (`preciseLocation(in:)`, `azimuthAngle(in:)`, `location(in:)`, `hashValue`). These are opaque inputs carried in the touch records.
- The `Set<UITouch>` iteration order is unspecified in Swift. The model takes it as the order of a sequence.
- DOM details (`addEventListener`/`preventDefault` on `touchstart`, `performance.now()`, `console.log`). They become listener flags, a time parameter, and the delivered sequence.
- Numbers are exact `real`s, not JavaScript doubles or Swift `CGFloat`/`Double`/`TimeInterval`. So `e.pressure * 5` (example.ts:56) never rounds, and NaN or infinity cannot occur. This is also why serialisation success is a free input.
- Serialisation failure: Foundation documents a non-finite number as raising an Objective-C exception in `JSONSerialization.data`. The `try?` at Wrapper/Wrapper.swift:155 does not catch that exception, so the silent drop covers only errors that Swift throws. The model's `encodes` flag covers only that silent drop.
- `requiresExclusiveTouchType = false` and the registration of the recognisers. These are platform configuration with no logic in them.
