# kube-eventer sink construction and dispatch, modelled in Dafny

kube-eventer sends Kubernetes events to configured destinations called sinks.
This project models three parts of it: the sink factory, the webhook sink and
the Kafka sink.

- **Factory** (`factory.dfy`). `SinkFactory.Build` looks a descriptor's type key
  up in a fixed registry of eleven constructors. `SinkFactory.BuildAll` builds
  every descriptor, skipping the ones that fail. The constructors live in other
  packages. Here they are one parameter `construct`, which receives the selected
  registry entry and the descriptor's URL and may fail. The sink type is a type
  parameter.
- **Webhook sink** (`webhook.dfy`). A class with the Go struct's fields. Its
  constructor is `NewWebHookSink`, which resolves the options. `ExportEvents`
  applies the severity gate and `Send` applies the namespace and kind
  allow-lists. `createMsgFromEvent` builds the template and copies the event's
  fields. Each HTTP POST is appended to the sink's `posts` log, and each 50 ms
  pause adds one to `sleeps`. The pure functions `SendOutcome` and `Delivered`
  specify what one event and a whole batch post. The lemmas beside them relate
  those functions to the configuration.
- **Kafka sink** (`kafka.dfy`). `eventToPoint` builds the point: its serialised
  value, its timestamp in UTC and its tag map. It is written as a method that
  inserts the tags one by one, and it is proved equal to a declarative
  definition. `ExportEvents` makes one produce call per event, recorded in
  `attempts`, up to the first failed translation, where the code panics.
- Shared pieces: `core.dfy` holds the event, the batch and the parsed descriptor
  (`flags.Uri` and the parts of `url.URL` that are used). `strings.dfy` holds
  Go's `strings.Split` with its inverse `strings.Join`, proved to invert each
  other. `wrappers.dfy` holds `Option` and `Result`.

These are parameters, not modelled code:
- `json.Marshal` of the webhook message and `json.MarshalIndent` of the event:
  the parameter `marshal`, which may fail.
- The result of the Kafka client's `ProduceKafkaMessage`: the parameter `produce`.
- Kafka client creation: the parameter `connect`.
- The `CLUSTER_NAME` environment variable: the parameter `env`.

Three places where the code's behaviour is easy to misread; the model follows the code:
- **Webhook label order.** Each label line is placed in front of the template
  built so far. So the lines come out in reverse configuration order, with the
  last configured label first.
- **Webhook allow-lists.** The code tests whether an allow-list is non-nil.
  `getValues` never returns an empty non-nil list (`GetValues` proves at least
  one piece), so this is the same as testing for a non-empty list.
- **Kafka translation failure.** The failure branch at
  sinks/kafka/driver.go:77-79 only logs and has no `continue`, so the evident
  intent is to skip the event. The code instead dereferences the nil point at
  :81, which panics. The model says so explicitly (see Findings).

## Model

| member | source | states |
|---|---|---|
| Factory.Lookup | sinks/factory.go:39-64 | a key selects a registry entry exactly when it is one of the eleven tags log, influxdb, mysql, elasticsearch, kafka, riemann, honeycomb, dingtalk, sls, wechat, webhook; the selected entry is the one whose tag is that key |
| Factory.Build | sinks/factory.go:38-65 | an unregistered key fails with "Sink not recognized: " followed by the key; a registered key returns exactly what its own constructor returns for the descriptor's URL |
| Factory.BuildAll | sinks/factory.go:67-78 | the loop's result equals `Built`: the successful builds, in descriptor order |
| Factory.BuiltAppend | sinks/factory.go:69-76 | building a concatenation gives the concatenation of the results, so a failing descriptor never affects the ones after it |
| Factory.BuiltLength | sinks/factory.go:68-76 | the result has one sink per successful build: at most as many as there are descriptors; as many exactly when every build succeeds; none exactly when every build fails |
| Factory.BuiltIsSubsequence | sinks/factory.go:67-77 | the result is a subsequence of the builds: the j-th sink comes from the j-th successful position, the positions increase, and a position is among them exactly when its build succeeds |
| Strings.Split | sinks/webhook/webhook.go:253 | a split has at least one piece, and no piece contains the separator |
| Strings.JoinSplit | sinks/webhook/webhook.go:253 | joining the pieces of a split with the separator gives back the string |
| Strings.SplitJoin | sinks/webhook/webhook.go:253 | splitting a join of separator-free pieces gives back the pieces |
| WebHook.GetLevel | sinks/webhook/webhook.go:182-193 | the score is 2 exactly for "Warning", 1 exactly for "Normal", and 0 exactly for every other string |
| WebHook.IsEventLevelDangerous | sinks/webhook/webhook.go:104-110 | an event passes exactly when its score reaches the threshold; under the default threshold only "Warning" passes; under threshold 1, "Warning" and "Normal" pass; a threshold of 0 or below admits every event |
| WebHook.GetValues | sinks/webhook/webhook.go:248-256 | nil exactly when the option is absent or its first value is empty; otherwise at least one comma-free piece, and the pieces join with commas back into the first value (later values are ignored) |
| WebHook.ResolveOptions | sinks/webhook/webhook.go:221-246 | the threshold is Warning when there is no `level` value, otherwise the score of the first one, always between 0 and 2; the POST target is `http://` + host + path when a host is given, else the built-in URL; labels are all the `label` values; the allow-lists are `GetValues` of `namespaces` and `kinds` |
| WebHook.WebHookSink.constructor | sinks/webhook/webhook.go:221-246 | filling the fields step by step yields `ResolveOptions` of the URL, with no posts and no pauses yet |
| WebHook.GetClusterName | sinks/webhook/webhook.go:170-180 | the name starts with the environment value; it is that value unchanged exactly when the value is not "saas-stage"; "saas-stage" gets one bird character appended |
| WebHook.TemplateLastLabelFirst | sinks/webhook/webhook.go:201-206 | with no labels the template is MSG_TEMPLATE; adding a label puts its line in front of all earlier ones |
| WebHook.CreateMsgFromEvent | sinks/webhook/webhook.go:195-219 | the label loop yields the label lines in reverse configuration order, followed by MSG_TEMPLATE; the message type is "text"; namespace, pod, event type, reason and message come from the event's namespace, name, type, reason and message; the cluster name comes from the environment |
| WebHook.InAllowList | sinks/webhook/webhook.go:113-137 | the `skip`-flag linear search reports a match exactly when the value is an element of the list |
| WebHook.WebHookSink.Send | sinks/webhook/webhook.go:112-168 | exactly one POST is appended when the event passes both allow-lists and its message marshals, and none otherwise; the POST goes to the endpoint, or to SEND_MSG_URL when there is none, with content type application/json |
| WebHook.WebHookSink.ExportEvents | sinks/webhook/webhook.go:94-102 | the posts appended are `Delivered` of the batch, in batch order; one pause is taken per event that passes the severity gate |
| WebHook.DeliveredAppend | sinks/webhook/webhook.go:95-101 | events are handled independently and in order: the posts for a concatenation are the concatenated posts |
| WebHook.DeliveredBound | sinks/webhook/webhook.go:95-101 | there are at most as many posts as events that pass the severity gate, and at most as many of those as events |
| WebHook.DeliveredSound | sinks/webhook/webhook.go:95-137 | every post is the message of a batch event that passes the gate and both allow-lists |
| WebHook.DeliveredComplete | sinks/webhook/webhook.go:95-137 | every batch event that passes the gate and both allow-lists, and whose message marshals, is posted |
| WebHook.DeliveredSingle | sinks/webhook/webhook.go:94-168 | a one-event batch posts that event's message exactly when it is admitted and marshals |
| WebHook.DefaultThresholdGate | sinks/webhook/webhook.go:222-235 | with no query, a Normal event produces no POST, and a Warning event produces exactly one, to SEND_MSG_URL |
| WebHook.NamespaceAllowList | sinks/webhook/webhook.go:113-124 | `namespaces=kube-system,default` resolves to that two-element list; an event in `foo` is dropped and a Warning event in `default` is admitted |
| WebHook.ExampleConfig | sinks/webhook/webhook.go:221-246 | `webhook://example.com/hook?level=Warning&namespaces=default` resolves to threshold Warning, endpoint `http://example.com/hook`, namespaces [default], no kinds list and no labels |
| WebHook.EndToEnd | sinks/webhook/webhook.go:94-168 | that descriptor, with one Warning event in `default`, makes exactly one JSON POST, to `http://example.com/hook`, whose message has namespace `default` |
| Kafka.GetEventValue | sinks/kafka/driver.go:42-49 | fails exactly when the serialiser fails; otherwise returns the serialised event |
| Kafka.Tags | sinks/kafka/driver.go:56-68 | the tags always map `eventID` to the event's UID and `hostname` to its source host; `pod_id` and `pod_name` are present exactly for Pod events, with the object's UID and name; there are no other keys, so there are 2 tags, or 4 for a Pod |
| Kafka.Translate | sinks/kafka/driver.go:51-69 | a serialiser failure gives that error and no point; otherwise the point holds the serialised event, the event's last timestamp at the same instant in UTC, and `Tags` of the event |
| Kafka.EventToPoint | sinks/kafka/driver.go:51-69 | the insert-by-insert construction equals `Translate` |
| Kafka.FirstFailure | sinks/kafka/driver.go:75-81 | the position where the batch stops: every earlier event translates, and the event at that position does not (unless the position is the batch length) |
| Kafka.KafkaSink.ExportEvents | sinks/kafka/driver.go:71-86 | one produce call per event, in batch order, each recorded with the error it returned and never stopping the loop; the batch completes when every event translates, and otherwise stops with a panic at the first failed translation |
| Kafka.ProducedOnePerEvent | sinks/kafka/driver.go:75-85 | a batch of translatable events gets exactly one call per event, and the i-th call carries the i-th event's point |
| Kafka.KafkaSink.ExportEventsSkipping | sinks/kafka/driver.go:75-85 | the corrected loop: a failed translation skips its event, and every other event still gets its produce call in order |
| Kafka.SkippingCount | sinks/kafka/driver.go:75-85 | with skipping, the number of produce calls is the batch size minus the number of failed translations, so one failed event in N leaves N-1 calls |
| Kafka.SkippingAgrees | sinks/kafka/driver.go:75-85 | when nothing fails to translate, the skipping loop and the loop as written make the same calls |
| Kafka.PanicAbandonsBatch | sinks/kafka/driver.go:76-81 | as written, a batch whose first event cannot be serialised produces nothing, so the next, good event is lost; skipping would have produced it |
| Kafka.KafkaSink.constructor | sinks/kafka/driver.go:94-96 | a new sink wraps the given client and has made no produce calls |
| Kafka.NewKafkaSink | sinks/kafka/driver.go:88-97 | a client creation error is returned unchanged, with no sink; otherwise the result is a new sink around the created client |

## Left out

- HTTP: the response and its status code only decide what is logged (sinks/webhook/webhook.go:158-166). A POST is recorded in `posts` whatever the outcome.
- JSON encoding: `json.Marshal` and `json.MarshalIndent` are the fallible parameter `marshal`. The bytes and the text they produce are not modelled.
- Throttling: `time.Sleep` is modelled only as the `sleeps` counter.
- Locking: the Kafka sink's `sync.RWMutex` only serialises concurrent batches, and concurrency is not modelled.
- The Kafka client: `kafka_common.NewKafkaClient` is the parameter `connect`, and `ProduceKafkaMessage` is the parameter `produce`. The model gives each produce call's error as a function of the point, not of the client's history. The events topic constant and the client's `Name` and `Stop` are in `common/kafka`, which is not part of this model.
- Tag keys: `pod_id`, `pod_name` and `hostname` are the values of the label keys in `metrics/core`, which is not part of this model. The proofs use only the fact that the four keys are distinct.
- Formatting: `fmt.Sprintf` of the final text and `LastTimestamp.String()` are not modelled. The text is the template plus its eight arguments, in order (`TextContent`).
- Labels containing `%`: such a label would be read as a formatting verb by the final `Sprintf`. This is not modelled.
- Time: a time is an instant plus a location, and `UTC()` keeps the instant and sets the location to UTC.
- URL parsing: `url.Parse` and `url.Query()` are not modelled. The host, the path and the query map are given.
- The environment: `os.Getenv("CLUSTER_NAME")` is the parameter `env`. `createMsgFromEvent` reads it twice, and the model assumes both reads return the same value.
- Logging: klog calls are not modelled.
- Other sinks: all eleven constructors, including `kafka.NewKafkaSink` and `webhook.NewWebHookSink`, are behind the factory's single `construct` parameter. The factory is not linked to the two constructors modelled here. Nothing ties the "webhook" entry to `WebHookSink`'s constructor or `ResolveOptions`, or the "kafka" entry to `Kafka.NewKafkaSink`. Nothing reflects that `NewWebHookSink` never fails.
- Dead code: `Send`'s nil check on the message is dead, because `createMsgFromEvent` never returns nil, so the model omits it. `MSG_TEMPLATE_ARR` is never read.
- The dispatcher that hands each batch to every sink is not part of this model.
- WebHook.WebHookSink.Name and WebHook.WebHookSink.Stop: carry no contract. They return the constant "WebHookSink" and do nothing.

## Findings

| source | as written | input that shows it | evidently intended | confidence | as-written member | corrected member |
|---|---|---|---|---|---|---|
| sinks/kafka/driver.go:76-81 | after `eventToPoint` fails, the loop logs a warning and then dereferences the nil point, which panics and ends the batch | a batch `[bad, good]` where serialising `bad` fails: no produce call is made for `good` | log the failure, skip the event and go on with the batch | not executed; it needs `json.MarshalIndent` to fail on an event, which is rare | Kafka.PanicAbandonsBatch | Kafka.KafkaSink.ExportEventsSkipping |
