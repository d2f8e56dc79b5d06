/**
  The good-loggly reporter: construction-time validation of the subscription
  and of the Loggly configuration, message extraction, and the in-place
  normalisation of each event before it is handed to the Loggly client.
*/
module LogglyReporter {
  import opened Wrappers
  import opened JsValues

  const OpsMessage: string := "\"ops\" events are not supported by Loggly"
  const TokenMessage: string := "Loggly API token required"
  const SubdomainMessage: string := "Loggly subdomain required"

  /** The options passed to `Loggly.createClient`. */
  datatype ClientOptions = ClientOptions(
    token: string,
    subdomain: string,
    json: bool,
    useTagHeader: bool,
    tags: seq<Value>)

  /** What a successful construction keeps: the client's options and its own copy of the configuration. */
  datatype Settings = Settings(options: ClientOptions, config: Value)

  /** One call `client.log(event, tags)`, with the event as it was when passed. */
  datatype LogCall = LogCall(event: map<string, Value>, tags: Value)

  /** `config || {}`: a missing or falsy configuration reads as an empty object. */
  function Effective(config: Value): (c: Value)
    ensures Truthy(c)
    ensures Truthy(config) ==> c == config
    ensures !Truthy(config) ==> c == Obj(map[])
  {
    Or(config, Obj(map[]))
  }

  /** `events && events.ops`: the subscription asks for `ops` events. */
  predicate OpsRequested(events: Value)
    ensures OpsRequested(events) ==> events.Obj? && "ops" in events.props && Truthy(events.props["ops"])
  {
    Truthy(events) && Truthy(Get(events, "ops"))
  }

  /** `Array.isArray(config.tags) ? config.tags : []`. */
  function ClientTags(config: Value): (tags: seq<Value>)
    requires config != Undef && config != Null
    ensures tags != [] ==> config.Obj? && "tags" in config.props && config.props["tags"] == Arr(tags)
    ensures Get(config, "tags").Arr? ==> Arr(tags) == Get(config, "tags")
  {
    var tags := Get(config, "tags");
    if tags.Arr? then tags.elems else []
  }

  /**
    Construction: the three assertions in order (ops subscription, string
    token, string subdomain), each failing with its own message; on success
    the client options and a value copy of the configuration.
  */
  function Construct(events: Value, config: Value): (r: Result<Settings, string>)
    ensures r == Failure(OpsMessage) <==> OpsRequested(events)
    ensures r == Failure(TokenMessage) <==>
      !OpsRequested(events) && !Get(Effective(config), "token").Str?
    ensures r == Failure(SubdomainMessage) <==>
      !OpsRequested(events) && Get(Effective(config), "token").Str? &&
      !Get(Effective(config), "subdomain").Str?
    ensures r.Success? <==>
      !OpsRequested(events) && Get(Effective(config), "token").Str? &&
      Get(Effective(config), "subdomain").Str?
    ensures r.Success? ==>
      && r.value.config == Effective(config)
      && r.value.options.token == Get(config, "token").s
      && r.value.options.subdomain == Get(config, "subdomain").s
      && r.value.options.json
      && !r.value.options.useTagHeader
      && (Get(config, "tags").Arr? ==> r.value.options.tags == Get(config, "tags").elems)
      && (!Get(config, "tags").Arr? ==> r.value.options.tags == [])
  {
    var cfg := Effective(config);
    if OpsRequested(events) then Failure(OpsMessage)
    else if !Get(cfg, "token").Str? then Failure(TokenMessage)
    else if !Get(cfg, "subdomain").Str? then Failure(SubdomainMessage)
    else
      var options := ClientOptions(Get(cfg, "token").s, Get(cfg, "subdomain").s, true, false, ClientTags(cfg));
      Success(Settings(options, cfg))
  }

  /**
    `getMessage(event)`: `event.data.message || event.data.error || event.data`
    when `event.data` is truthy, and `''` otherwise.
  */
  function GetMessage(event: map<string, Value>): (r: Value)
    ensures var data := Field(event, "data");
      Truthy(data) ==> r == FirstTruthy([Get(data, "message"), Get(data, "error"), data], Str(""))
    ensures !Truthy(Field(event, "data")) ==> r == Str("")
    ensures Truthy(r) <==> Truthy(Field(event, "data"))
  {
    var data := Field(event, "data");
    if Truthy(data) then
      OrChainIsFirstTruthy(Get(data, "message"), Get(data, "error"), data);
      FirstTruthyTruthyLast([Get(data, "message"), Get(data, "error")], data, Str(""));
      assert [Get(data, "message"), Get(data, "error")] + [data] == [Get(data, "message"), Get(data, "error"), data];
      Or(Or(Get(data, "message"), Get(data, "error")), data)
    else
      Str("")
  }

  /** `data.message` wins whenever it is truthy. */
  lemma GetMessageFromMessage(event: map<string, Value>)
    requires Truthy(Field(event, "data")) && Truthy(Get(Field(event, "data"), "message"))
    ensures GetMessage(event) == Get(Field(event, "data"), "message")
  {
    var data := Field(event, "data");
    FirstTruthyPicksFirst([Get(data, "message"), Get(data, "error"), data], Str(""), 0);
  }

  /** `data.error` is used when `data.message` is falsy and `data.error` truthy. */
  lemma GetMessageFromError(event: map<string, Value>)
    requires Truthy(Field(event, "data"))
    requires !Truthy(Get(Field(event, "data"), "message")) && Truthy(Get(Field(event, "data"), "error"))
    ensures GetMessage(event) == Get(Field(event, "data"), "error")
  {
    var data := Field(event, "data");
    FirstTruthyPicksFirst([Get(data, "message"), Get(data, "error"), data], Str(""), 1);
  }

  /** `data` itself (a string or an object) is used when neither `message` nor `error` is truthy. */
  lemma GetMessageFromData(event: map<string, Value>)
    requires Truthy(Field(event, "data"))
    requires !Truthy(Get(Field(event, "data"), "message")) && !Truthy(Get(Field(event, "data"), "error"))
    ensures GetMessage(event) == Field(event, "data")
  {
    var data := Field(event, "data");
    FirstTruthyPicksFirst([Get(data, "message"), Get(data, "error"), data], Str(""), 2);
  }

  /** The message depends on the `data` field alone. */
  lemma GetMessageReadsOnlyData(e1: map<string, Value>, e2: map<string, Value>)
    requires Field(e1, "data") == Field(e2, "data")
    ensures GetMessage(e1) == GetMessage(e2)
  {
  }

  /** The fields `_report` copies from the configuration: `name` and `hostname`, when truthy. */
  function StaticFields(config: Value): (m: map<string, Value>)
    requires config != Undef && config != Null
    ensures m.Keys <= {"name", "hostname"}
    ensures forall k :: k in m ==> Truthy(m[k])
  {
    map k | k in {"name", "hostname"} && Truthy(Get(config, k)) :: Get(config, k)
  }

  /** Writing the truthy `name`, then the truthy `hostname`, adds exactly the static fields. */
  lemma CopyStaticFields(event: map<string, Value>, config: Value)
    requires config != Undef && config != Null
    ensures var name := Get(config, "name");
      var hostname := Get(config, "hostname");
      var named := if Truthy(name) then event["name" := name] else event;
      (if Truthy(hostname) then named["hostname" := hostname] else named) == event + StaticFields(config)
  {
  }

  /** Copying the static fields leaves every other field as it was. */
  lemma StaticFieldsKeep(event: map<string, Value>, config: Value, key: string)
    requires config != Undef && config != Null
    requires key != "name" && key != "hostname"
    ensures Field(event + StaticFields(config), key) == Field(event, key)
  {
  }

  /**
    The event as `_report` leaves it when the timestamp converts to `stamp`:
    static fields copied, `timestamp` replaced by its ISO string, `msg` set
    from the original event; every other field untouched.
  */
  function Normalize(event: map<string, Value>, config: Value, stamp: string): (r: map<string, Value>)
    requires config != Undef && config != Null
    ensures r.Keys == event.Keys + StaticFields(config).Keys + {"timestamp", "msg"}
    ensures r["timestamp"] == Str(stamp)
    ensures r["msg"] == GetMessage(event)
    ensures Truthy(Get(config, "name")) ==> r["name"] == Get(config, "name")
    ensures !Truthy(Get(config, "name")) ==> Field(r, "name") == Field(event, "name")
    ensures Truthy(Get(config, "hostname")) ==> r["hostname"] == Get(config, "hostname")
    ensures !Truthy(Get(config, "hostname")) ==> Field(r, "hostname") == Field(event, "hostname")
    ensures forall k :: k in event && k !in {"name", "hostname", "timestamp", "msg"} ==> k in r && r[k] == event[k]
  {
    (event + StaticFields(config))["timestamp" := Str(stamp)]["msg" := GetMessage(event)]
  }

  /** The Loggly client, reduced to a recorder of the calls made on it. */
  class LogglyClient {
    const options: ClientOptions
    var calls: seq<LogCall>

    constructor (options: ClientOptions)
      ensures this.options == options && calls == []
    {
      this.options := options;
      calls := [];
    }

    /** `client.log(event, tags)`: sends one event, unbatched. */
    method Log(event: map<string, Value>, tags: Value)
      modifies this
      ensures calls == old(calls) + [LogCall(event, tags)]
    {
      calls := calls + [LogCall(event, tags)];
    }
  }

  /** An event record delivered by the stream; `_report` updates its fields in place. */
  class Event {
    var fields: map<string, Value>

    constructor (fields: map<string, Value>)
      ensures this.fields == fields
    {
      this.fields := fields;
    }
  }

  /** A constructed reporter: its client, its copy of the configuration and its subscription. */
  class GoodLoggly {
    const client: LogglyClient
    const config: Value
    const subscription: Value

    /** The client and the stored configuration are what `Construct` gives for the subscription. */
    ghost predicate Valid() {
      && Truthy(config)
      && Construct(subscription, config) == Success(Settings(client.options, config))
    }

    constructor (client: LogglyClient, config: Value, subscription: Value)
      requires Construct(subscription, config) == Success(Settings(client.options, config))
      ensures this.client == client && this.config == config && this.subscription == subscription
      ensures Valid()
    {
      this.client := client;
      this.config := config;
      this.subscription := subscription;
    }

    /**
      `new GoodLoggly(events, config)`: either the message of the first
      assertion that fails, or a fresh reporter whose client was created with
      the derived options and has logged nothing yet.
    */
    static method New(events: Value, config: Value) returns (r: Result<GoodLoggly, string>)
      ensures Construct(events, config).Failure? <==> r.Failure?
      ensures r.Failure? ==> r.error == Construct(events, config).error
      ensures r.Success? ==>
        && fresh(r.value) && fresh(r.value.client)
        && r.value.Valid()
        && Construct(events, config) == Success(Settings(r.value.client.options, r.value.config))
        && r.value.subscription == events
        && r.value.client.calls == []
    {
      var cfg := Effective(config);
      if OpsRequested(events) {
        return Failure(OpsMessage);
      }
      var token := Get(cfg, "token");
      if !token.Str? {
        return Failure(TokenMessage);
      }
      var subdomain := Get(cfg, "subdomain");
      if !subdomain.Str? {
        return Failure(SubdomainMessage);
      }
      var client := new LogglyClient(ClientOptions(token.s, subdomain.s, true, false, ClientTags(cfg)));
      var reporter := new GoodLoggly(client, cfg, events);
      return Success(reporter);
    }

    /**
      `_report(data)`. `toIso` is `new Date(t).toISOString()`; `None` stands
      for the RangeError it throws on an invalid date, in which case the
      static fields are already written, nothing else changes and no call is
      made (`ok` is false). Otherwise the event is normalised and sent in one
      `log` call that carries the event's own tags.
    */
    method Report(data: Event, toIso: Value -> Option<string>) returns (ok: bool)
      requires Valid()
      modifies data, client
      ensures ok <==> toIso(Field(old(data.fields), "timestamp")).Some?
      ensures !ok ==> data.fields == old(data.fields) + StaticFields(config) && client.calls == old(client.calls)
      ensures ok ==>
        && data.fields == Normalize(old(data.fields), config, toIso(Field(old(data.fields), "timestamp")).value)
        && client.calls == old(client.calls) + [LogCall(data.fields, Field(old(data.fields), "tags"))]
    {
      ghost var before := data.fields;
      CopyStaticFields(before, config);
      var name := Get(config, "name");
      if Truthy(name) {
        data.fields := data.fields["name" := name];
      }
      var hostname := Get(config, "hostname");
      if Truthy(hostname) {
        data.fields := data.fields["hostname" := hostname];
      }
      assert data.fields == before + StaticFields(config);
      StaticFieldsKeep(before, config, "timestamp");
      var stamp := toIso(Field(data.fields, "timestamp"));
      if stamp.None? {
        return false;
      }
      data.fields := data.fields["timestamp" := Str(stamp.value)];
      StaticFieldsKeep(before, config, "data");
      GetMessageReadsOnlyData(data.fields, before);
      data.fields := data.fields["msg" := GetMessage(data.fields)];
      assert data.fields == Normalize(before, config, stamp.value);
      StaticFieldsKeep(before, config, "tags");
      client.Log(data.fields, Field(data.fields, "tags"));
      return true;
    }
  }
}
