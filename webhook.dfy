/**
 * The webhook sink: options resolved from the descriptor's query, a
 * severity gate, namespace and kind allow-lists, a message built from a
 * label-extended template, and one JSON POST per event that passes.
 *
 * The HTTP POST is modelled as appending a `Post` to the sink's `posts`
 * log (whatever the response), the 50 ms pause after each `Send` as one
 * more unit in `sleeps`, `json.Marshal` as the parameter `marshal`, and the
 * `CLUSTER_NAME` environment variable as the parameter `env`.
 */
module WebHook {
  import opened Wrappers
  import opened Core
  import Strings

  const WEBHOOK_SINK := "WebHookSink"
  const WARNING: int := 2
  const NORMAL: int := 1
  const DEFAULT_MSG_TYPE := "text"
  const CONTENT_TYPE_JSON := "application/json"
  /** Where messages go when the descriptor has no host. */
  const SEND_MSG_URL := "http://172.17.202.22:9999/kube"
  const MSG_TEMPLATE := "ClusterName: %s\n\nLevel: %s\nKind: %s\nNamespace: %s\nName: %s\nReason: %s\nTimestamp: %s\nMessage: %s"
  /** `v1.EventTypeWarning` and `v1.EventTypeNormal`. */
  const EVENT_TYPE_WARNING := "Warning"
  const EVENT_TYPE_NORMAL := "Normal"
  const STAGE_CLUSTER := "saas-stage"

  /**
   * The `fmt.Sprintf` that fills the template: kept as the template and
   * its eight arguments, in order, since the formatting itself is not modelled.
   */
  datatype TextContent = Formatted(
    template: string, clusterName: string, level: string, kind: string,
    namespace: string, name: string, reason: string, timestamp: Time, message: string)

  /** `WebHookMsg`, the JSON body of a POST. */
  datatype WebHookMsg = WebHookMsg(
    msgType: string, text: TextContent, clusterName: string, eventType: string,
    namespace: string, pod: string, reason: string, message: string)

  /** One `http.Post`: target, content type, the message and its JSON bytes. */
  datatype Post = Post(url: string, contentType: string, msg: WebHookMsg, body: seq<bv8>)

  /** The fields of a `WebHookSink`; `None` is a nil allow-list. */
  datatype WebHookConfig = WebHookConfig(
    namespaces: Option<seq<string>>, kinds: Option<seq<string>>,
    endpoint: string, level: int, labels: seq<string>)

  /** `getLevel`: the numeric severity of an event type. */
  function GetLevel(level: string): (score: int)
    ensures score == WARNING <==> level == EVENT_TYPE_WARNING
    ensures score == NORMAL <==> level == EVENT_TYPE_NORMAL
    ensures score == 0 <==> level != EVENT_TYPE_WARNING && level != EVENT_TYPE_NORMAL
  {
    var score := 0;
    if level == EVENT_TYPE_WARNING then score + 2
    else if level == EVENT_TYPE_NORMAL then score + 1
    else score
  }

  /**
   * `isEventLevelDangerous`: does an event of this type reach `Send` under
   * the threshold? Warning passes the default threshold and nothing else
   * does; a threshold of 0 (an unrecognised level name) lets every event in.
   */
  function IsEventLevelDangerous(eventType: string, threshold: int): (dangerous: bool)
    ensures dangerous <==> GetLevel(eventType) >= threshold
    ensures threshold == WARNING ==> (dangerous <==> eventType == EVENT_TYPE_WARNING)
    ensures threshold == NORMAL ==> (dangerous <==> eventType == EVENT_TYPE_WARNING || eventType == EVENT_TYPE_NORMAL)
    ensures threshold <= 0 ==> dangerous
  {
    GetLevel(eventType) >= threshold
  }

  /**
   * `getValues`: nil when the option is absent or its first value is empty,
   * otherwise the comma-separated pieces of the first value (later values
   * are ignored): comma-free pieces that join back into that value.
   */
  function GetValues(o: seq<string>): (r: Option<seq<string>>)
    ensures r.None? <==> |o| == 0 || o[0] == ""
    ensures r.Some? ==> |r.value| >= 1
    ensures r.Some? ==> forall i :: 0 <= i < |r.value| ==> ',' !in r.value[i]
    ensures r.Some? ==> Strings.Join(r.value, ',') == o[0]
  {
    if |o| >= 1 then
      if |o[0]| == 0 then None
      else
        Strings.JoinSplit(o[0], ',');
        Some(Strings.Split(o[0], ','))
    else None
  }

  /**
   * `NewWebHookSink`'s option resolution. The threshold is Warning unless a
   * `level` value is given, and then only the first counts; the endpoint is
   * `http://host/path` when the descriptor has a host, else the built-in URL
   * is used at send time.
   */
  function ResolveOptions(uri: Url): (c: WebHookConfig)
    ensures QueryValues(uri.query, "level") == [] ==> c.level == WARNING
    ensures QueryValues(uri.query, "level") != [] ==> c.level == GetLevel(uri.query["level"][0])
    ensures 0 <= c.level <= WARNING
    ensures uri.host != "" ==> c.endpoint == "http://" + uri.host + uri.path
    ensures SendUrl(c.endpoint) == if uri.host != "" then "http://" + uri.host + uri.path else SEND_MSG_URL
    ensures c.labels == QueryValues(uri.query, "label")
    ensures c.namespaces == GetValues(QueryValues(uri.query, "namespaces"))
    ensures c.kinds == GetValues(QueryValues(uri.query, "kinds"))
  {
    var levels := QueryValues(uri.query, "level");
    WebHookConfig(
      GetValues(QueryValues(uri.query, "namespaces")),
      GetValues(QueryValues(uri.query, "kinds")),
      if |uri.host| > 0 then "http://" + uri.host + uri.path else "",
      if |levels| >= 1 then GetLevel(levels[0]) else WARNING,
      QueryValues(uri.query, "label"))
  }

  /** `Send`'s choice of target: the configured endpoint, else the built-in URL. */
  function SendUrl(endpoint: string): string {
    if endpoint != "" then endpoint else SEND_MSG_URL
  }

  /**
   * `getClusterName`: the environment value, with a bird appended for the
   * stage cluster only.
   */
  function GetClusterName(env: string): (name: string)
    ensures |env| <= |name| && name[..|env|] == env
    ensures name == env <==> env != STAGE_CLUSTER
    ensures env == STAGE_CLUSTER ==> name == STAGE_CLUSTER + "\U{1F426}"
  {
    if env == STAGE_CLUSTER then env + "\U{1F426}" else env
  }

  /** An allow-list admits a value when it is nil or holds that value. */
  predicate Allows(list: Option<seq<string>>, value: string) {
    list.None? || value in list.value
  }

  /** The labels in reverse order. */
  function Reversed(s: seq<string>): (r: seq<string>)
    decreases |s|
  {
    if s == [] then [] else [s[|s| - 1]] + Reversed(s[..|s| - 1])
  }

  /** One `label + "\n"` line per label, in the given order. */
  function LabelLines(labels: seq<string>): string
    decreases |labels|
  {
    if labels == [] then "" else labels[0] + "\n" + LabelLines(labels[1..])
  }

  /**
   * The template a message is formatted with: one line per configured
   * label, the last configured label first, then `MSG_TEMPLATE`.
   */
  function Template(labels: seq<string>): string {
    LabelLines(Reversed(labels)) + MSG_TEMPLATE
  }

  /** Adding a label puts its line in front of all the others. */
  lemma {:induction false} TemplateLastLabelFirst(labels: seq<string>, line: string)
    ensures Template(labels + [line]) == line + "\n" + Template(labels)
    ensures Template([]) == MSG_TEMPLATE
  {
    var s := labels + [line];
    assert s[..|s| - 1] == labels;
    assert Reversed(s) == [line] + Reversed(labels);
    assert ([line] + Reversed(labels))[1..] == Reversed(labels);
  }

  /** The message `createMsgFromEvent` builds (the specification of that method). */
  function MsgFromEvent(labels: seq<string>, event: Event, env: string): WebHookMsg {
    WebHookMsg(
      DEFAULT_MSG_TYPE,
      Formatted(Template(labels), GetClusterName(env), event.eventType, event.involvedObject.kind,
                event.namespace, event.name, event.reason, event.lastTimestamp, event.message),
      GetClusterName(env), event.eventType, event.namespace, event.name, event.reason, event.message)
  }

  /**
   * `createMsgFromEvent`: prepend each label line to the template in turn,
   * then copy the event's fields into the message one by one.
   */
  method CreateMsgFromEvent(labels: seq<string>, event: Event, env: string) returns (msg: WebHookMsg)
    ensures msg == MsgFromEvent(labels, event, env)
    ensures msg.msgType == DEFAULT_MSG_TYPE
    ensures msg.namespace == event.namespace && msg.pod == event.name
    ensures msg.eventType == event.eventType && msg.reason == event.reason && msg.message == event.message
    ensures msg.clusterName == GetClusterName(env)
    ensures msg.text.template == LabelLines(Reversed(labels)) + MSG_TEMPLATE
  {
    var template := MSG_TEMPLATE;
    for i := 0 to |labels|
      invariant template == Template(labels[..i])
    {
      TemplateLastLabelFirst(labels[..i], labels[i]);
      assert labels[..i + 1] == labels[..i] + [labels[i]];
      template := labels[i] + "\n" + template;
    }
    assert labels[..|labels|] == labels;
    msg := WebHookMsg(DEFAULT_MSG_TYPE, Formatted("", "", "", "", "", "", "", event.lastTimestamp, ""),
                      "", "", "", "", "", "");
    msg := msg.(namespace := event.namespace);
    msg := msg.(pod := event.name);
    msg := msg.(eventType := event.eventType);
    msg := msg.(reason := event.reason);
    msg := msg.(message := event.message);
    msg := msg.(clusterName := GetClusterName(env));
    msg := msg.(text := Formatted(template, GetClusterName(env), event.eventType, event.involvedObject.kind,
                                  event.namespace, event.name, event.reason, event.lastTimestamp, event.message));
  }

  /**
   * The linear search in `Send`: `skip` starts true and turns false, ending
   * the search, at the first element equal to the value.
   */
  method InAllowList(allowed: seq<string>, value: string) returns (found: bool)
    ensures found <==> value in allowed
  {
    var skip := true;
    var i := 0;
    while i < |allowed|
      invariant 0 <= i <= |allowed|
      invariant skip
      invariant value !in allowed[..i]
    {
      if allowed[i] == value {
        skip := false;
        break;
      }
      assert allowed[..i + 1] == allowed[..i] + [allowed[i]];
      i := i + 1;
    }
    assert !skip || allowed[..i] == allowed;
    found := !skip;
  }

  /** An event clears the severity gate and both allow-lists. */
  predicate Admitted(cfg: WebHookConfig, event: Event) {
    && IsEventLevelDangerous(event.eventType, cfg.level)
    && Allows(cfg.namespaces, event.namespace)
    && Allows(cfg.kinds, event.involvedObject.kind)
  }

  /** The POST made for an event that reaches the network, if its message marshals. */
  function PostFor(cfg: WebHookConfig, event: Event, env: string, marshal: WebHookMsg -> Result<seq<bv8>, string>): Option<Post> {
    var msg := MsgFromEvent(cfg.labels, event, env);
    match marshal(msg)
    case Failure(_) => None
    case Success(body) => Some(Post(SendUrl(cfg.endpoint), CONTENT_TYPE_JSON, msg, body))
  }

  /** What one `Send` call posts: nothing for a filtered event or an unmarshalable message. */
  function SendOutcome(cfg: WebHookConfig, event: Event, env: string, marshal: WebHookMsg -> Result<seq<bv8>, string>): seq<Post> {
    if Allows(cfg.namespaces, event.namespace) && Allows(cfg.kinds, event.involvedObject.kind)
       && PostFor(cfg, event, env, marshal).Some?
    then [PostFor(cfg, event, env, marshal).value]
    else []
  }

  /** The posts of `ExportEvents` over a batch, event by event in batch order. */
  function Delivered(cfg: WebHookConfig, events: seq<Event>, env: string, marshal: WebHookMsg -> Result<seq<bv8>, string>): seq<Post>
    decreases |events|
  {
    if events == [] then []
    else
      var last := events[|events| - 1];
      Delivered(cfg, events[..|events| - 1], env, marshal)
        + (if IsEventLevelDangerous(last.eventType, cfg.level) then SendOutcome(cfg, last, env, marshal) else [])
  }

  /** The number of events that pass the severity gate, hence calls to `Send` and pauses. */
  function Throttled(threshold: int, events: seq<Event>): nat
    decreases |events|
  {
    if events == [] then 0
    else Throttled(threshold, events[..|events| - 1])
           + (if IsEventLevelDangerous(events[|events| - 1].eventType, threshold) then 1 else 0)
  }

  class WebHookSink {
    var namespaces: Option<seq<string>>
    var kinds: Option<seq<string>>
    var endpoint: string
    var level: int
    var labels: seq<string>
    /** Every POST issued so far, in order. */
    var posts: seq<Post>
    /** The number of 50 ms pauses taken so far. */
    var sleeps: nat

    function Config(): WebHookConfig
      reads this
    {
      WebHookConfig(namespaces, kinds, endpoint, level, labels)
    }

    /** `NewWebHookSink`: fill in the defaults, then each option in turn; it never fails. */
    constructor (uri: Url)
      ensures Config() == ResolveOptions(uri)
      ensures posts == [] && sleeps == 0
    {
      level := WARNING;
      namespaces, kinds, labels := None, None, [];
      posts, sleeps := [], 0;
      if |uri.host| > 0 {
        endpoint := "http://" + uri.host + uri.path;
      } else {
        endpoint := "";
      }
      var opts := uri.query;
      if |QueryValues(opts, "level")| >= 1 {
        level := GetLevel(QueryValues(opts, "level")[0]);
      }
      if |QueryValues(opts, "label")| >= 1 {
        labels := QueryValues(opts, "label");
      }
      namespaces := GetValues(QueryValues(opts, "namespaces"));
      kinds := GetValues(QueryValues(opts, "kinds"));
    }

    function Name(): (name: string) {
      WEBHOOK_SINK
    }

    /** `Stop` holds nothing to release. */
    method Stop() {
    }

    /**
     * `Send`: drop an event outside either allow-list, build and marshal its
     * message (dropping it if marshalling fails) and POST it, to the
     * configured endpoint or else the built-in URL.
     */
    method Send(event: Event, env: string, marshal: WebHookMsg -> Result<seq<bv8>, string>)
      modifies this`posts
      ensures posts == old(posts) + SendOutcome(Config(), event, env, marshal)
    {
      if namespaces.Some? {
        var found := InAllowList(namespaces.value, event.namespace);
        if !found {
          return;
        }
      }
      if kinds.Some? {
        var found := InAllowList(kinds.value, event.involvedObject.kind);
        if !found {
          return;
        }
      }
      var msg := CreateMsgFromEvent(labels, event, env);
      var body := marshal(msg);
      if body.Failure? {
        return;
      }
      var sendMsgUrl;
      if endpoint != "" {
        sendMsgUrl := endpoint;
      } else {
        sendMsgUrl := SEND_MSG_URL;
      }
      // the response, success or not, only decides what is logged
      posts := posts + [Post(sendMsgUrl, CONTENT_TYPE_JSON, msg, body.value)];
    }

    /**
     * `ExportEvents`: in batch order, send each event that passes the
     * severity gate and pause after each such send.
     */
    method ExportEvents(batch: EventBatch, env: string, marshal: WebHookMsg -> Result<seq<bv8>, string>)
      modifies this`posts, this`sleeps
      ensures posts == old(posts) + Delivered(Config(), batch.events, env, marshal)
      ensures sleeps == old(sleeps) + Throttled(level, batch.events)
    {
      var events := batch.events;
      for i := 0 to |events|
        invariant posts == old(posts) + Delivered(Config(), events[..i], env, marshal)
        invariant sleeps == old(sleeps) + Throttled(level, events[..i])
      {
        assert events[..i + 1][..i] == events[..i];
        var event := events[i];
        if IsEventLevelDangerous(event.eventType, level) {
          Send(event, env, marshal);
          sleeps := sleeps + 1;
        }
      }
      assert events[..|events|] == events;
    }
  }

  /** Batches are processed independently, one after the other, in order. */
  lemma {:induction false} DeliveredAppend(cfg: WebHookConfig, a: seq<Event>, b: seq<Event>, env: string, marshal: WebHookMsg -> Result<seq<bv8>, string>)
    ensures Delivered(cfg, a + b, env, marshal) == Delivered(cfg, a, env, marshal) + Delivered(cfg, b, env, marshal)
    decreases |b|
  {
    if b == [] {
      assert a + b == a;
    } else {
      var b' := b[..|b| - 1];
      assert (a + b)[..|a + b| - 1] == a + b';
      assert (a + b)[|a + b| - 1] == b[|b| - 1];
      DeliveredAppend(cfg, a, b', env, marshal);
    }
  }

  /**
   * At most one POST per event, and only for events that cleared the
   * severity gate (each of which costs one pause).
   */
  lemma {:induction false} DeliveredBound(cfg: WebHookConfig, events: seq<Event>, env: string, marshal: WebHookMsg -> Result<seq<bv8>, string>)
    ensures |Delivered(cfg, events, env, marshal)| <= Throttled(cfg.level, events) <= |events|
    decreases |events|
  {
    if events != [] {
      DeliveredBound(cfg, events[..|events| - 1], env, marshal);
    }
  }

  /** Each POST is the message of an admitted event of the batch. */
  lemma {:induction false} DeliveredSound(cfg: WebHookConfig, events: seq<Event>, env: string, marshal: WebHookMsg -> Result<seq<bv8>, string>, p: Post)
    requires p in Delivered(cfg, events, env, marshal)
    ensures exists i :: 0 <= i < |events| && Admitted(cfg, events[i]) && PostFor(cfg, events[i], env, marshal) == Some(p)
    decreases |events|
  {
    var init := events[..|events| - 1];
    if p in Delivered(cfg, init, env, marshal) {
      DeliveredSound(cfg, init, env, marshal, p);
      var i :| 0 <= i < |init| && Admitted(cfg, init[i]) && PostFor(cfg, init[i], env, marshal) == Some(p);
      assert events[i] == init[i];
    } else {
      assert Admitted(cfg, events[|events| - 1]);
    }
  }

  /** Every admitted event whose message marshals is posted. */
  lemma {:induction false} DeliveredComplete(cfg: WebHookConfig, events: seq<Event>, env: string, marshal: WebHookMsg -> Result<seq<bv8>, string>, i: nat)
    requires i < |events| && Admitted(cfg, events[i]) && PostFor(cfg, events[i], env, marshal).Some?
    ensures PostFor(cfg, events[i], env, marshal).value in Delivered(cfg, events, env, marshal)
    decreases |events|
  {
    var init := events[..|events| - 1];
    if i < |init| {
      assert init[i] == events[i];
      DeliveredComplete(cfg, init, env, marshal, i);
    }
  }

  /** A one-event batch posts that event's message exactly when it is admitted and marshals. */
  lemma DeliveredSingle(cfg: WebHookConfig, event: Event, env: string, marshal: WebHookMsg -> Result<seq<bv8>, string>)
    ensures Delivered(cfg, [event], env, marshal)
      == if Admitted(cfg, event) && PostFor(cfg, event, env, marshal).Some? then [PostFor(cfg, event, env, marshal).value] else []
  {
    assert [event][..0] == [];
  }

  /** With no query, a Normal event produces no POST and a Warning event exactly one, to the built-in URL. */
  lemma DefaultThresholdGate(path: string, event: Event, env: string, marshal: WebHookMsg -> Result<seq<bv8>, string>)
    requires marshal(MsgFromEvent([], event, env)).Success?
    ensures event.eventType == EVENT_TYPE_NORMAL ==> Delivered(ResolveOptions(Url("", path, map[])), [event], env, marshal) == []
    ensures event.eventType == EVENT_TYPE_WARNING ==>
      Delivered(ResolveOptions(Url("", path, map[])), [event], env, marshal)
        == [Post(SEND_MSG_URL, CONTENT_TYPE_JSON, MsgFromEvent([], event, env), marshal(MsgFromEvent([], event, env)).value)]
  {
    var cfg := ResolveOptions(Url("", path, map[]));
    assert cfg == WebHookConfig(None, None, "", WARNING, []);
    DeliveredSingle(cfg, event, env, marshal);
  }

  /**
   * `namespaces=kube-system,default` drops an event in `foo` and admits a
   * Warning event in `default`. The names are parameters pinned to their
   * literals by the requires: with the literals written inline, Dafny unrolls
   * `Split` on the literal string without bound and runs out of resource.
   */
  lemma NamespaceAllowList(system: string, default: string, event: Event)
    requires system == "kube-system" && default == "default"
    ensures var cfg := ResolveOptions(Url("", "", map["namespaces" := [system + "," + default]]));
      && cfg.namespaces == Some([system, default])
      && (event.namespace == "foo" ==> !Admitted(cfg, event))
      && (event.namespace == default && event.eventType == EVENT_TYPE_WARNING ==> Admitted(cfg, event))
  {
    var query := map["namespaces" := [system + "," + default]];
    assert QueryValues(query, "namespaces") == [system + "," + default];
    assert QueryValues(query, "kinds") == [];
    assert QueryValues(query, "level") == [];
    assert ',' !in system;
    assert ',' !in default;
    Strings.SplitNoSeparator(default, ',');
    Strings.SplitAfterPiece(system, ',', default);
    var joined := system + [','] + default;
    assert joined == system + "," + default && |joined| > 0;
    assert Strings.Split(joined, ',') == [system] + [default] == [system, default];
    assert GetValues([joined]) == Some([system, default]);
    var cfg := ResolveOptions(Url("", "", query));
    assert cfg == WebHookConfig(Some([system, default]), None, "", WARNING, QueryValues(query, "label"));
  }

  /**
   * The configuration `webhook://example.com/hook?level=Warning&namespaces=default`
   * resolves to. Host, path and namespace are parameters pinned to their
   * literals by the requires, because Dafny unrolls `Split` and literal string
   * comparisons without bound when they are written inline.
   */
  lemma ExampleConfig(host: string, path: string, ns: string)
    requires host == "example.com" && path == "/hook" && ns == "default"
    ensures ResolveOptions(Url(host, path, map["level" := [EVENT_TYPE_WARNING], "namespaces" := [ns]]))
      == WebHookConfig(Some([ns]), None, "http://" + host + path, WARNING, [])
  {
    var query := map["level" := [EVENT_TYPE_WARNING], "namespaces" := [ns]];
    assert QueryValues(query, "level") == [EVENT_TYPE_WARNING];
    assert QueryValues(query, "namespaces") == [ns];
    assert QueryValues(query, "label") == [];
    assert QueryValues(query, "kinds") == [];
    assert ',' !in ns && |ns| > 0 && |host| > 0;
    Strings.SplitNoSeparator(ns, ',');
    assert GetValues([ns]) == Some([ns]);
  }

  /**
   * That descriptor with one Warning event in `default` makes exactly one
   * POST, to `http://example.com/hook`, whose message names the namespace.
   */
  lemma EndToEnd(host: string, path: string, ns: string, event: Event, env: string, marshal: WebHookMsg -> Result<seq<bv8>, string>)
    requires host == "example.com" && path == "/hook" && ns == "default"
    requires event.eventType == EVENT_TYPE_WARNING && event.namespace == ns
    requires marshal(MsgFromEvent([], event, env)).Success?
    ensures var posts := Delivered(ResolveOptions(Url(host, path, map["level" := [EVENT_TYPE_WARNING], "namespaces" := [ns]])), [event], env, marshal);
      |posts| == 1 && posts[0].url == "http://" + host + path && posts[0].contentType == CONTENT_TYPE_JSON
      && posts[0].msg.namespace == ns
  {
    ExampleConfig(host, path, ns);
    var cfg := WebHookConfig(Some([ns]), None, "http://" + host + path, WARNING, []);
    assert Admitted(cfg, event);
    DeliveredSingle(cfg, event, env, marshal);
  }
}
