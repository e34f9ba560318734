/**
 * The shapes the sinks read: the Kubernetes event (`k8s.io/api/core/v1.Event`,
 * reduced to the fields the sinks use), the batch handed to every sink, and
 * the parsed sink descriptor (`flags.Uri`, a type key plus a `net/url.URL`).
 */
module Core {
  /** A `metav1.Time`: an instant and the location it is rendered in. */
  datatype Time = Time(unixNanos: int, location: string)

  /** `Time.UTC()`: the same instant, rendered in UTC. */
  function UTC(t: Time): Time {
    Time(t.unixNanos, "UTC")
  }

  datatype ObjectReference = ObjectReference(kind: string, name: string, uid: string)

  datatype EventSource = EventSource(component: string, host: string)

  datatype Event = Event(
    uid: string,
    involvedObject: ObjectReference,
    namespace: string,
    name: string,
    reason: string,
    message: string,
    eventType: string,
    lastTimestamp: Time,
    source: EventSource)

  /** What the watcher hands to every sink; never changed by a sink. */
  datatype EventBatch = EventBatch(timestamp: Time, events: seq<Event>)

  /** The parts of a parsed `url.URL` the sinks use; `query` is `URL.Query()`. */
  datatype Url = Url(host: string, path: string, query: map<string, seq<string>>)

  /** `flags.Uri`: the descriptor's scheme (the sink type key) and its URL. */
  datatype Uri = Uri(key: string, val: Url)

  /** Go's `opts[key]`: a missing key reads as a nil (empty) slice. */
  function QueryValues(query: map<string, seq<string>>, key: string): seq<string> {
    if key in query then query[key] else []
  }
}
