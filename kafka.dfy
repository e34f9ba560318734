/**
 * The Kafka sink: each event becomes a point (its JSON serialisation, its
 * last timestamp in UTC and a small tag map) and one produce call on the
 * shared client, in batch order, whatever the call returns.
 *
 * `json.MarshalIndent` is the parameter `marshal` and the client's
 * `ProduceKafkaMessage` is the parameter `produce` (its error result);
 * the sink records every produce call in `attempts`.
 */
module Kafka {
  import opened Wrappers
  import opened Core

  /** Tag keys: `eventID` and the metrics label keys pod_id, pod_name and hostname. */
  const EVENT_ID := "eventID"
  const LABEL_POD_ID := "pod_id"
  const LABEL_POD_NAME := "pod_name"
  const LABEL_HOSTNAME := "hostname"
  const POD_KIND := "Pod"

  /** The four tag keys are distinct, so the two- and four-key sets have those sizes. */
  lemma LabelKeysDistinct()
    ensures |{EVENT_ID, LABEL_HOSTNAME}| == 2
    ensures |{EVENT_ID, LABEL_HOSTNAME} + {LABEL_POD_ID, LABEL_POD_NAME}| == 4
  {
    assert EVENT_ID[0] == 'e' && LABEL_HOSTNAME[0] == 'h' && LABEL_POD_ID[0] == 'p';
    assert |LABEL_POD_ID| == 6 && |LABEL_POD_NAME| == 8;
    var two := {EVENT_ID, LABEL_HOSTNAME};
    assert {EVENT_ID} + {LABEL_HOSTNAME} == two;
    assert two + {LABEL_POD_ID, LABEL_POD_NAME} == (two + {LABEL_POD_ID}) + {LABEL_POD_NAME};
    assert LABEL_POD_ID !in two;
    assert LABEL_POD_NAME !in two + {LABEL_POD_ID};
  }

  /** `KafkaSinkPoint`. */
  datatype KafkaSinkPoint = KafkaSinkPoint(eventValue: string, eventTimestamp: Time, eventTags: map<string, string>)

  /** One call of `ProduceKafkaMessage` and the error it returned, if any. */
  datatype Attempt = Attempt(point: KafkaSinkPoint, err: Option<string>)

  /**
   * How an export ends: the whole batch was produced, or the translation of
   * the event at `at` failed and dereferencing the nil point panicked.
   */
  datatype ExportOutcome = Completed | Panicked(at: nat)

  /** The shared connection behind `kafka_common.KafkaClient`. */
  datatype KafkaClient = KafkaClient(handle: nat)

  /** `getEventValue`: the serialised event, or the serialiser's error. */
  function GetEventValue(event: Event, marshal: Event -> Result<string, string>): (r: Result<string, string>)
    ensures r.Failure? <==> marshal(event).Failure?
    ensures r.Success? ==> r.value == marshal(event).value
  {
    match marshal(event)
    case Failure(err) => Failure(err)
    case Success(bytes) => Success(bytes)
  }

  /**
   * The tags of an event's point: its UID and source host always, and the
   * involved object's UID and name when that object is a Pod; nothing else.
   */
  function Tags(event: Event): (tags: map<string, string>)
    ensures EVENT_ID in tags && tags[EVENT_ID] == event.uid
    ensures LABEL_HOSTNAME in tags && tags[LABEL_HOSTNAME] == event.source.host
    ensures LABEL_POD_ID in tags <==> event.involvedObject.kind == POD_KIND
    ensures LABEL_POD_NAME in tags <==> event.involvedObject.kind == POD_KIND
    ensures event.involvedObject.kind == POD_KIND ==>
      tags[LABEL_POD_ID] == event.involvedObject.uid && tags[LABEL_POD_NAME] == event.involvedObject.name
    ensures tags.Keys == {EVENT_ID, LABEL_HOSTNAME}
      + (if event.involvedObject.kind == POD_KIND then {LABEL_POD_ID, LABEL_POD_NAME} else {})
    ensures |tags| == if event.involvedObject.kind == POD_KIND then 4 else 2
  {
    var always := map[EVENT_ID := event.uid, LABEL_HOSTNAME := event.source.host];
    var pod := map[LABEL_POD_ID := event.involvedObject.uid, LABEL_POD_NAME := event.involvedObject.name];
    var tags := if event.involvedObject.kind == POD_KIND then always + pod else always;
    LabelKeysDistinct();
    assert always.Keys == {EVENT_ID, LABEL_HOSTNAME};
    assert pod.Keys == {LABEL_POD_ID, LABEL_POD_NAME};
    assert (always + pod).Keys == always.Keys + pod.Keys;
    tags
  }

  /**
   * The point for an event (the specification of `eventToPoint`): a
   * serialiser failure gives that error and no point; otherwise the point
   * carries the serialised event, its last timestamp in UTC and its tags.
   */
  function Translate(event: Event, marshal: Event -> Result<string, string>): (r: Result<KafkaSinkPoint, string>)
    ensures r.Failure? <==> marshal(event).Failure?
    ensures r.Failure? ==> r.error == marshal(event).error
    ensures r.Success? ==> r.value.eventValue == marshal(event).value
    ensures r.Success? ==> r.value.eventTimestamp == Time(event.lastTimestamp.unixNanos, "UTC")
    ensures r.Success? ==> r.value.eventTags == Tags(event)
  {
    match GetEventValue(event, marshal)
    case Failure(err) => Failure(err)
    case Success(value) => Success(KafkaSinkPoint(value, UTC(event.lastTimestamp), Tags(event)))
  }

  /**
   * `eventToPoint`: serialise, then build the tag map insert by insert:
   * the event ID, the pod keys for a Pod, and the hostname last.
   */
  method EventToPoint(event: Event, marshal: Event -> Result<string, string>) returns (r: Result<KafkaSinkPoint, string>)
    ensures r == Translate(event, marshal)
  {
    var value := GetEventValue(event, marshal);
    if value.Failure? {
      return Failure(value.error);
    }
    var tags := map[EVENT_ID := event.uid];
    if event.involvedObject.kind == POD_KIND {
      tags := tags[LABEL_POD_ID := event.involvedObject.uid];
      tags := tags[LABEL_POD_NAME := event.involvedObject.name];
    }
    tags := tags[LABEL_HOSTNAME := event.source.host];
    assert tags == Tags(event);
    return Success(KafkaSinkPoint(value.value, UTC(event.lastTimestamp), tags));
  }

  /** The position of the first event whose translation fails, or the batch length. */
  function FirstFailure(events: seq<Event>, marshal: Event -> Result<string, string>): (k: nat)
    ensures k <= |events|
    ensures forall i :: 0 <= i < k ==> Translate(events[i], marshal).Success?
    ensures k < |events| ==> Translate(events[k], marshal).Failure?
    decreases |events|
  {
    if events == [] then 0
    else if Translate(events[0], marshal).Failure? then 0
    else 1 + FirstFailure(events[1..], marshal)
  }

  /** The produce calls made for a batch whose every event translates, in batch order. */
  function Produced(events: seq<Event>, marshal: Event -> Result<string, string>, produce: KafkaSinkPoint -> Option<string>): seq<Attempt>
    requires forall i :: 0 <= i < |events| ==> Translate(events[i], marshal).Success?
    decreases |events|
  {
    if events == [] then []
    else
      var point := Translate(events[|events| - 1], marshal).value;
      Produced(events[..|events| - 1], marshal, produce) + [Attempt(point, produce(point))]
  }

  /** The produce calls a batch would get if a failed translation skipped its event. */
  function ProducedSkipping(events: seq<Event>, marshal: Event -> Result<string, string>, produce: KafkaSinkPoint -> Option<string>): seq<Attempt>
    decreases |events|
  {
    if events == [] then []
    else
      var last := Translate(events[|events| - 1], marshal);
      ProducedSkipping(events[..|events| - 1], marshal, produce)
        + (if last.Success? then [Attempt(last.value, produce(last.value))] else [])
  }

  /** The number of events of a batch whose translation fails. */
  function TranslationFailures(events: seq<Event>, marshal: Event -> Result<string, string>): nat
    decreases |events|
  {
    if events == [] then 0
    else TranslationFailures(events[..|events| - 1], marshal)
           + (if Translate(events[|events| - 1], marshal).Failure? then 1 else 0)
  }

  class KafkaSink {
    const client: KafkaClient
    /** Every `ProduceKafkaMessage` call so far, in order. */
    var attempts: seq<Attempt>

    constructor (client: KafkaClient)
      ensures this.client == client && attempts == []
    {
      this.client := client;
      attempts := [];
    }

    /**
     * `ExportEvents` as written: one produce call per event in batch order,
     * going on past produce errors; a translation failure is logged and then
     * the nil point is dereferenced, which ends the batch with a panic.
     */
    method ExportEvents(batch: EventBatch, marshal: Event -> Result<string, string>, produce: KafkaSinkPoint -> Option<string>)
      returns (outcome: ExportOutcome)
      modifies this`attempts
      ensures var k := FirstFailure(batch.events, marshal);
        && outcome == (if k == |batch.events| then Completed else Panicked(k))
        && attempts == old(attempts) + Produced(batch.events[..k], marshal, produce)
    {
      var events := batch.events;
      ghost var k := FirstFailure(events, marshal);
      var i := 0;
      while i < |events|
        invariant 0 <= i <= k
        invariant attempts == old(attempts) + Produced(events[..i], marshal, produce)
      {
        var point := EventToPoint(events[i], marshal);
        if point.Failure? {
          // klog.Warningf, then `*point` on a nil pointer
          assert i == k;
          return Panicked(i);
        }
        assert i < k;
        var err := produce(point.value);
        // a produce error is only logged
        ghost var done := events[..i + 1];
        assert done[..i] == events[..i] && done[i] == events[i];
        assert forall j :: 0 <= j < |done| ==> Translate(done[j], marshal).Success?;
        attempts := attempts + [Attempt(point.value, err)];
        i := i + 1;
      }
      return Completed;
    }

    /** `ExportEvents` with a failed translation skipping its event instead of panicking. */
    method ExportEventsSkipping(batch: EventBatch, marshal: Event -> Result<string, string>, produce: KafkaSinkPoint -> Option<string>)
      modifies this`attempts
      ensures attempts == old(attempts) + ProducedSkipping(batch.events, marshal, produce)
    {
      var events := batch.events;
      for i := 0 to |events|
        invariant attempts == old(attempts) + ProducedSkipping(events[..i], marshal, produce)
      {
        assert events[..i + 1][..i] == events[..i];
        var point := EventToPoint(events[i], marshal);
        if point.Failure? {
          continue;
        }
        attempts := attempts + [Attempt(point.value, produce(point.value))];
      }
      assert events[..|events|] == events;
    }
  }

  /** `NewKafkaSink`: a client creation error is returned as is; otherwise a new sink wraps the client. */
  method NewKafkaSink(uri: Url, connect: Url -> Result<KafkaClient, string>) returns (r: Result<KafkaSink, string>)
    ensures connect(uri).Failure? ==> r == Failure(connect(uri).error)
    ensures connect(uri).Success? ==>
      r.Success? && fresh(r.value) && r.value.client == connect(uri).value && r.value.attempts == []
  {
    var client := connect(uri);
    if client.Failure? {
      return Failure(client.error);
    }
    var sink := new KafkaSink(client.value);
    return Success(sink);
  }

  /**
   * One produce call per event, in batch order: the i-th call carries the
   * i-th event's point, and an error from one call changes nothing after it.
   */
  lemma {:induction false} ProducedOnePerEvent(events: seq<Event>, marshal: Event -> Result<string, string>, produce: KafkaSinkPoint -> Option<string>)
    requires forall i :: 0 <= i < |events| ==> Translate(events[i], marshal).Success?
    ensures |Produced(events, marshal, produce)| == |events|
    ensures forall i :: 0 <= i < |events| ==>
      Produced(events, marshal, produce)[i].point == Translate(events[i], marshal).value
      && Produced(events, marshal, produce)[i].err == produce(Translate(events[i], marshal).value)
    decreases |events|
  {
    if events != [] {
      var init := events[..|events| - 1];
      ProducedOnePerEvent(init, marshal, produce);
      forall i | 0 <= i < |init| ensures init[i] == events[i] { }
    }
  }

  /** Skipping failed translations produces one call per translatable event. */
  lemma {:induction false} SkippingCount(events: seq<Event>, marshal: Event -> Result<string, string>, produce: KafkaSinkPoint -> Option<string>)
    ensures |ProducedSkipping(events, marshal, produce)| + TranslationFailures(events, marshal) == |events|
    decreases |events|
  {
    if events != [] {
      SkippingCount(events[..|events| - 1], marshal, produce);
    }
  }

  /** Where no translation fails, skipping and the code as written make the same calls. */
  lemma {:induction false} SkippingAgrees(events: seq<Event>, marshal: Event -> Result<string, string>, produce: KafkaSinkPoint -> Option<string>)
    requires forall i :: 0 <= i < |events| ==> Translate(events[i], marshal).Success?
    ensures ProducedSkipping(events, marshal, produce) == Produced(events, marshal, produce)
    decreases |events|
  {
    if events != [] {
      var init := events[..|events| - 1];
      forall i | 0 <= i < |init| ensures init[i] == events[i] { }
      SkippingAgrees(init, marshal, produce);
    }
  }

  /**
   * The defect as written: a batch whose first event cannot be serialised
   * panics before producing anything, so the good event after it is never
   * sent; skipping would have sent it.
   */
  lemma PanicAbandonsBatch(bad: Event, good: Event, marshal: Event -> Result<string, string>, produce: KafkaSinkPoint -> Option<string>)
    requires marshal(bad).Failure? && marshal(good).Success?
    ensures FirstFailure([bad, good], marshal) == 0
    ensures Produced([bad, good][..0], marshal, produce) == []
    ensures ProducedSkipping([bad, good], marshal, produce) == [Attempt(Translate(good, marshal).value, produce(Translate(good, marshal).value))]
  {
    var events := [bad, good];
    assert Translate(bad, marshal).Failure? && Translate(good, marshal).Success?;
    assert events[..1] == [bad];
    assert events[..1][..0] == [];
    assert ProducedSkipping([bad], marshal, produce) == [];
  }
}
