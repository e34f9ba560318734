/**
 * The sink factory: a closed registry from descriptor type keys to sink
 * constructors (`SinkFactory.Build`) and the loop that builds every
 * configured descriptor, skipping the ones that fail (`SinkFactory.BuildAll`).
 *
 * The eleven constructors live in other packages; here they are one
 * parameter `construct`, which gets the registry entry the key selected and
 * the descriptor's URL and may fail. `S` stands for `core.EventSink`.
 */
module Factory {
  import opened Wrappers
  import opened Core

  /** One registry entry per supported destination. */
  datatype SinkType =
    | Log | InfluxDB | MySQL | ElasticSearch | Kafka | Riemann
    | Honeycomb | DingTalk | SLS | WeChat | WebHook

  /** The descriptor scheme that selects each entry. */
  function Key(t: SinkType): string {
    match t
    case Log => "log"
    case InfluxDB => "influxdb"
    case MySQL => "mysql"
    case ElasticSearch => "elasticsearch"
    case Kafka => "kafka"
    case Riemann => "riemann"
    case Honeycomb => "honeycomb"
    case DingTalk => "dingtalk"
    case SLS => "sls"
    case WeChat => "wechat"
    case WebHook => "webhook"
  }

  const RegisteredKeys: set<string> :=
    {"log", "influxdb", "mysql", "elasticsearch", "kafka", "riemann",
     "honeycomb", "dingtalk", "sls", "wechat", "webhook"}

  /** The `switch uri.Key` of `Build`: which entry, if any, a key selects. */
  function Lookup(key: string): (t: Option<SinkType>)
    ensures t.Some? <==> key in RegisteredKeys
    ensures t.Some? ==> Key(t.value) == key
    ensures forall e: SinkType :: Key(e) == key ==> t == Some(e)
  {
    if key == "log" then Some(Log)
    else if key == "influxdb" then Some(InfluxDB)
    else if key == "mysql" then Some(MySQL)
    else if key == "elasticsearch" then Some(ElasticSearch)
    else if key == "kafka" then Some(Kafka)
    else if key == "riemann" then Some(Riemann)
    else if key == "honeycomb" then Some(Honeycomb)
    else if key == "dingtalk" then Some(DingTalk)
    else if key == "sls" then Some(SLS)
    else if key == "wechat" then Some(WeChat)
    else if key == "webhook" then Some(WebHook)
    else None
  }

  /** The error `Build` reports for a key outside the registry. */
  function NotRecognized(key: string): string {
    "Sink not recognized: " + key
  }

  /**
   * `SinkFactory.Build`: a registered key hands the descriptor to that
   * entry's constructor and returns its result unchanged; any other key
   * fails with an error naming the key.
   */
  function Build<S>(uri: Uri, construct: (SinkType, Url) -> Result<S, string>): (r: Result<S, string>)
    ensures uri.key !in RegisteredKeys ==> r == Failure(NotRecognized(uri.key))
    ensures forall t: SinkType :: Key(t) == uri.key ==> r == construct(t, uri.val)
  {
    match Lookup(uri.key)
    case None => Failure(NotRecognized(uri.key))
    case Some(t) => construct(t, uri.val)
  }

  /** The sinks `BuildAll` keeps: the successful builds, in descriptor order. */
  function Built<S>(uris: seq<Uri>, construct: (SinkType, Url) -> Result<S, string>): seq<S>
    decreases |uris|
  {
    if uris == [] then []
    else
      var last := Build(uris[|uris| - 1], construct);
      Built(uris[..|uris| - 1], construct) + (if last.Success? then [last.value] else [])
  }

  /**
   * `SinkFactory.BuildAll`: build each descriptor in turn; a failure is
   * logged and skipped (`continue`), a success is appended to the result.
   */
  method BuildAll<S>(uris: seq<Uri>, construct: (SinkType, Url) -> Result<S, string>)
    returns (result: seq<S>)
    ensures result == Built(uris, construct)
  {
    result := [];
    for i := 0 to |uris|
      invariant result == Built(uris[..i], construct)
    {
      assert uris[..i + 1][..i] == uris[..i];
      var sink := Build(uris[i], construct);
      if sink.Failure? {
        // klog.Errorf names the descriptor and the error; the loop goes on
        continue;
      }
      result := result + [sink.value];
    }
    assert uris[..|uris|] == uris;
  }

  /** Failure isolation: the descriptors before and after one another are built independently. */
  lemma {:induction false} BuiltAppend<S>(a: seq<Uri>, b: seq<Uri>, construct: (SinkType, Url) -> Result<S, string>)
    ensures Built(a + b, construct) == Built(a, construct) + Built(b, construct)
    decreases |b|
  {
    if b != [] {
      var b' := b[..|b| - 1];
      assert (a + b)[..|a + b| - 1] == a + b';
      assert (a + b)[|a + b| - 1] == b[|b| - 1];
      BuiltAppend(a, b', construct);
    } else {
      assert a + b == a;
    }
  }

  /** The number of descriptors whose build succeeds. */
  function Successes<S>(uris: seq<Uri>, construct: (SinkType, Url) -> Result<S, string>): nat
    decreases |uris|
  {
    if uris == [] then 0
    else Successes(uris[..|uris| - 1], construct) + (if Build(uris[|uris| - 1], construct).Success? then 1 else 0)
  }

  /**
   * The result holds one sink per successful build: never more sinks than
   * descriptors, all of them exactly when every build succeeds, none exactly
   * when every build fails.
   */
  lemma {:induction false} BuiltLength<S>(uris: seq<Uri>, construct: (SinkType, Url) -> Result<S, string>)
    ensures |Built(uris, construct)| == Successes(uris, construct) <= |uris|
    ensures |Built(uris, construct)| == |uris| <==> forall i :: 0 <= i < |uris| ==> Build(uris[i], construct).Success?
    ensures |Built(uris, construct)| == 0 <==> forall i :: 0 <= i < |uris| ==> Build(uris[i], construct).Failure?
    decreases |uris|
  {
    if uris != [] {
      var init := uris[..|uris| - 1];
      BuiltLength(init, construct);
      forall i | 0 <= i < |init| ensures init[i] == uris[i] { }
    }
  }

  /** The positions, in increasing order, of the descriptors whose build succeeds. */
  function SuccessIndices<S>(uris: seq<Uri>, construct: (SinkType, Url) -> Result<S, string>): seq<nat>
    decreases |uris|
  {
    if uris == [] then []
    else
      SuccessIndices(uris[..|uris| - 1], construct)
        + (if Build(uris[|uris| - 1], construct).Success? then [|uris| - 1] else [])
  }

  /**
   * `BuildAll` returns a subsequence of the built sinks: the j-th sink is the
   * product of the descriptor at the j-th successful position, those positions
   * increase, and a position is among them exactly when its build succeeds.
   */
  lemma {:induction false} BuiltIsSubsequence<S>(uris: seq<Uri>, construct: (SinkType, Url) -> Result<S, string>)
    ensures var idx := SuccessIndices(uris, construct);
      && |idx| == |Built(uris, construct)|
      && (forall j :: 0 <= j < |idx| ==> idx[j] < |uris|)
      && (forall j, k :: 0 <= j < k < |idx| ==> idx[j] < idx[k])
      && (forall j :: 0 <= j < |idx| ==> Build(uris[idx[j]], construct) == Success(Built(uris, construct)[j]))
      && (forall i :: 0 <= i < |uris| ==> (i in idx <==> Build(uris[i], construct).Success?))
    decreases |uris|
  {
    if uris != [] {
      var n := |uris| - 1;
      var init := uris[..n];
      BuiltIsSubsequence(init, construct);
      var prev, built := SuccessIndices(init, construct), Built(init, construct);
      var last := Build(uris[n], construct);
      var idx, all := SuccessIndices(uris, construct), Built(uris, construct);
      assert idx == prev + (if last.Success? then [n] else []);
      assert all == built + (if last.Success? then [last.value] else []);
      forall i | 0 <= i < n ensures init[i] == uris[i] { }
      forall j | 0 <= j < |idx| ensures idx[j] < |uris| && Build(uris[idx[j]], construct) == Success(all[j]) {
        if j < |prev| {
          assert idx[j] == prev[j] && all[j] == built[j];
        }
      }
      forall j, k | 0 <= j < k < |idx| ensures idx[j] < idx[k] {
        if k < |prev| {
          assert idx[j] == prev[j] && idx[k] == prev[k];
        }
      }
      forall i | 0 <= i < |uris| ensures i in idx <==> Build(uris[i], construct).Success? {
        if i < n {
          assert i in prev <==> Build(init[i], construct).Success?;
        }
      }
    }
  }
}
