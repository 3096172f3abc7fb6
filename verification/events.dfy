/** The canonical record exchanged between the native shell and the web page
    (the `WrapperEvent` type of example.ts), shared by every other module. */
module Events {

  /** A value that may be absent: a JSON field that was never written, or a
      platform call that returned nil. */
  datatype Option<+T> = None | Some(value: T)

  /** Identifies one continuous touch (a pointer id on the web, a hash value natively). */
  type TouchId = int

  datatype EventType = Pencil | Finger

  datatype Phase = Hover | Began | Moved | Ended

  datatype Position = Position(x: real, y: real)

  /** One event. `type` is a Dafny keyword, so the input source is called `kind`.
      `predicted` is `None` when the record carries no `predicted` field at all,
      which is how every record built by the native shell arrives. */
  datatype WrapperEvent = WrapperEvent(
    id: TouchId,
    kind: EventType,
    phase: Phase,
    predicted: Option<bool>,
    position: Position,
    hoverHeight: real,
    pressure: real,
    altitude: real,
    azimuth: real,
    rollAngle: real,
    radius: real,
    timestamp: real)

  /** The JavaScript condition `event.predicted`: an absent field reads as
      `undefined`, which is falsy, so only an explicit `true` counts. */
  predicate IsPredicted(e: WrapperEvent) {
    e.predicted == Some(true)
  }

  /** The argument of one `wrapperEvents(...)` call. */
  type Batch = seq<WrapperEvent>

  /** The capture times of a batch, record by record. */
  function Timestamps(b: Batch): (ts: seq<real>)
    ensures |ts| == |b|
    ensures forall i :: 0 <= i < |b| ==> ts[i] == b[i].timestamp
  {
    seq(|b|, i requires 0 <= i < |b| => b[i].timestamp)
  }

  /** Times that never go backwards. */
  predicate NonDecreasing(ts: seq<real>) {
    forall i, j :: 0 <= i < j < |ts| ==> ts[i] <= ts[j]
  }
}
