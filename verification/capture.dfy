/** The native capture side, the `TouchesToJS` gesture recogniser of
    Wrapper/Wrapper.swift: each hardware callback becomes one batch per touch,
    and each batch is sent to the page unless it fails to serialise. */
module Capture {
  import opened Events

  /** UIKit's `UITouch.TouchType`. */
  datatype TouchType = Direct | Indirect | Stylus | IndirectPointer

  /** What the recogniser reads from one `UITouch` sample. Geometry comes
      already resolved against the web view (`preciseLocation(in:)`,
      `azimuthAngle(in:)`). */
  datatype Sample = Sample(
    touchType: TouchType,
    location: Position,
    force: real,
    altitudeAngle: real,
    azimuthAngle: real,
    rollAngle: real,
    majorRadius: real,
    timestamp: real)

  /** One touch of a callback's set: its `hashValue`, its current sample, and
      what `event.coalescedTouches(for:)` returns for it. */
  datatype Touch = Touch(hashValue: int, current: Sample, coalesced: Option<seq<Sample>>)

  /** What the recogniser reads from a `UIHoverGestureRecognizer`. */
  datatype HoverGesture = HoverGesture(
    hashValue: int,
    location: Position,
    zOffset: real,
    altitudeAngle: real,
    azimuthAngle: real,
    rollAngle: real)

  /** The four `touches*` overrides. */
  datatype Callback = TouchesBegan | TouchesMoved | TouchesEnded | TouchesCancelled

  /** The phase each override passes on; cancellation is reported as `ended`. */
  function CallbackPhase(c: Callback): (r: Phase)
    ensures r != Hover
    ensures r == Began <==> c == TouchesBegan
    ensures r == Moved <==> c == TouchesMoved
    ensures r == Ended <==> c == TouchesEnded || c == TouchesCancelled
  {
    match c
    case TouchesBegan => Began
    case TouchesMoved => Moved
    case TouchesEnded => Ended
    case TouchesCancelled => Ended
  }

  /** A contact record as the native shell writes it: the outer touch's id and
      the callback's phase, the sample's own readings, no `predicted` field. */
  predicate ContactRecordOf(r: WrapperEvent, id: TouchId, phase: Phase, t: Sample) {
    && r.id == id
    && r.phase == phase
    && (r.kind == Pencil <==> t.touchType == Stylus)
    && r.predicted == None
    && r.position == t.location
    && r.hoverHeight == 0.0
    && r.pressure == t.force
    && r.altitude == t.altitudeAngle
    && r.azimuth == t.azimuthAngle
    && r.rollAngle == t.rollAngle
    && r.radius == t.majorRadius
    && r.timestamp == t.timestamp
  }

  function ContactRecord(id: TouchId, phase: Phase, t: Sample): WrapperEvent {
    WrapperEvent(id, if t.touchType == Stylus then Pencil else Finger, phase, None, t.location, 0.0,
                 t.force, t.altitudeAngle, t.azimuthAngle, t.rollAngle, t.majorRadius, t.timestamp)
  }

  /** `event.coalescedTouches(for: touch) ?? [touch]`. */
  function Samples(t: Touch): (r: seq<Sample>)
    ensures t.coalesced == None ==> r == [t.current]
    ensures t.coalesced != None ==> r == t.coalesced.value
  {
    match t.coalesced
    case Some(s) => s
    case None => [t.current]
  }

  /** The `coalesced.map` of `sendTouches`: one record per sample, in sample order. */
  function Records(id: TouchId, phase: Phase, samples: seq<Sample>): (b: Batch)
    ensures |b| == |samples|
    ensures forall i :: 0 <= i < |b| ==> ContactRecordOf(b[i], id, phase, samples[i])
  {
    if samples == [] then []
    else [ContactRecord(id, phase, samples[0])] + Records(id, phase, samples[1..])
  }

  /** The batch built for one touch of the set. */
  function TouchBatch(phase: Phase, t: Touch): (b: Batch)
    ensures |b| == |Samples(t)|
    ensures t.coalesced == None ==> |b| == 1 && ContactRecordOf(b[0], t.hashValue, phase, t.current)
    ensures forall i :: 0 <= i < |b| ==> ContactRecordOf(b[i], t.hashValue, phase, Samples(t)[i])
  {
    Records(t.hashValue, phase, Samples(t))
  }

  /** The capture times of the samples, sample by sample. */
  function SampleTimes(samples: seq<Sample>): (ts: seq<real>)
    ensures |ts| == |samples|
    ensures forall i :: 0 <= i < |samples| ==> ts[i] == samples[i].timestamp
  {
    seq(|samples|, i requires 0 <= i < |samples| => samples[i].timestamp)
  }

  /** A touch's batch carries its samples' times, in sample order, so
      coalesced sub-samples reach the page in the order they were sampled. */
  lemma TouchBatchKeepsTimeOrder(phase: Phase, t: Touch)
    ensures Timestamps(TouchBatch(phase, t)) == SampleTimes(Samples(t))
    ensures NonDecreasing(SampleTimes(Samples(t))) ==> NonDecreasing(Timestamps(TouchBatch(phase, t)))
  {
  }

  /** `sendToJS`: the script call made for a batch, or `None` when the batch
      does not serialise. `encodes` is the outcome of the JSON serialisation
      and UTF-8 decoding, which are foreign code. */
  function SendToJS(batch: Batch, encodes: bool): (r: Option<Batch>)
    ensures r != None <==> encodes
    ensures r != None ==> r.value == batch
  {
    if encodes then Some(batch) else None
  }

  /** `sendTouches`: one send per touch of the set, in its enumeration order. */
  function SendTouches(phase: Phase, touches: seq<Touch>, encodable: Batch -> bool): (r: seq<Option<Batch>>)
    ensures |r| == |touches|
    ensures forall i :: 0 <= i < |r| ==>
      (r[i] != None <==> encodable(TouchBatch(phase, touches[i])))
      && (r[i] != None ==> r[i].value == TouchBatch(phase, touches[i]))
  {
    if touches == [] then []
    else
      var batch := TouchBatch(phase, touches[0]);
      [SendToJS(batch, encodable(batch))] + SendTouches(phase, touches[1..], encodable)
  }

  /** The four overrides: every record of every batch sent carries the touched
      contact's id and the callback's phase, whatever sample it came from. */
  function OnTouches(c: Callback, touches: seq<Touch>, encodable: Batch -> bool): (r: seq<Option<Batch>>)
    ensures |r| == |touches|
    ensures forall i, j :: 0 <= i < |r| && r[i] != None && 0 <= j < |r[i].value| ==>
      && r[i].value[j].id == touches[i].hashValue
      && r[i].value[j].phase == CallbackPhase(c)
      && r[i].value[j].hoverHeight == 0.0
      && !IsPredicted(r[i].value[j])
  {
    SendTouches(CallbackPhase(c), touches, encodable)
  }

  /** A cancelled touch sends exactly what an ended one would. */
  lemma CancelledIsEnded(touches: seq<Touch>, encodable: Batch -> bool)
    ensures OnTouches(TouchesCancelled, touches, encodable) == OnTouches(TouchesEnded, touches, encodable)
  {
  }

  /** The single record of a hover callback. */
  predicate HoverRecordOf(r: WrapperEvent, h: HoverGesture) {
    && r.id == h.hashValue
    && r.kind == Pencil
    && r.phase == Hover
    && r.predicted == None
    && r.position == h.location
    && r.hoverHeight == h.zOffset
    && r.pressure == 0.0
    && r.altitude == h.altitudeAngle
    && r.azimuth == h.azimuthAngle
    && r.rollAngle == h.rollAngle
    && r.radius == 0.0
    && r.timestamp == 0.0
  }

  /** `handleHover`: a one-record batch, sent unless it fails to serialise. */
  function HandleHover(h: HoverGesture, encodes: bool): (r: Option<Batch>)
    ensures r != None <==> encodes
    ensures r != None ==> |r.value| == 1 && HoverRecordOf(r.value[0], h)
  {
    var record := WrapperEvent(h.hashValue, Pencil, Hover, None, h.location, h.zOffset, 0.0,
                               h.altitudeAngle, h.azimuthAngle, h.rollAngle, 0.0, 0.0);
    SendToJS([record], encodes)
  }

  /** Hover records and contact records never share a phase, so the page can
      tell them apart. */
  lemma HoverAndContactDiffer(h: HoverGesture, c: Callback, touches: seq<Touch>, encodable: Batch -> bool, i: int, j: int)
    requires HandleHover(h, true) != None
    requires 0 <= i < |touches|
    requires OnTouches(c, touches, encodable)[i] != None
    requires 0 <= j < |OnTouches(c, touches, encodable)[i].value|
    ensures HandleHover(h, true).value[0].phase != OnTouches(c, touches, encodable)[i].value[j].phase
  {
  }
}
