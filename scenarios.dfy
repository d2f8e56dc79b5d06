/** The concrete scenarios of the repository's test suite, stated against the model. */
module ReporterScenarios {
  import opened Wrappers
  import opened JsValues
  import opened LogglyReporter

  const Options: Value := Obj(map["token" := Str("TOKEN"), "subdomain" := Str("SUBDOMAIN")])

  /** A null subscription with a token and a subdomain constructs; `tags: ['foo']` reaches the client. */
  lemma ConstructAccepted()
    ensures Construct(Null, Options).Success?
    ensures Construct(Null, Options).value.options.tags == []
    ensures var withTags := Obj(Options.props["tags" := Arr([Str("foo")])]);
      Construct(Null, withTags).Success? && Construct(Null, withTags).value.options.tags == [Str("foo")]
  {
  }

  /** `{ops: '*'}` is refused before the missing configuration is looked at; each missing key names itself. */
  lemma ConstructRefused()
    ensures Construct(Obj(map["ops" := Str("*")]), Undef) == Failure(OpsMessage)
    ensures Construct(Null, Obj(map["subdomain" := Str("SUBDOMAIN")])) == Failure(TokenMessage)
    ensures Construct(Null, Obj(map["token" := Str("TOKEN")])) == Failure(SubdomainMessage)
  {
  }

  /** The four message fallbacks: `message`, then `error`, then `data`, then `''`. */
  lemma GetMessageScenarios()
    ensures GetMessage(map["data" := Obj(map["message" := Str("message")])]) == Str("message")
    ensures GetMessage(map["data" := Obj(map["error" := Str("error")])]) == Str("error")
    ensures GetMessage(map["data" := Str("data")]) == Str("data")
    ensures GetMessage(map[]) == Str("")
  {
  }

  const LogEvent: map<string, Value> := map[
    "event" := Str("log"),
    "timestamp" := Num(1396207735000.0),
    "tags" := Arr([Str("info"), Str("server")]),
    "data" := Str("Log message"),
    "pid" := Num(1234.0)]

  const Named: Value := Obj(Options.props["name" := Str("loggly-name")]["hostname" := Str("example.com")])

  /** A log event is reported as itself with `timestamp` converted and `msg` set from `data`. */
  lemma NormalizeLogEvent(stamp: string)
    ensures Normalize(LogEvent, Options, stamp) == LogEvent["timestamp" := Str(stamp)]["msg" := Str("Log message")]
  {
    assert StaticFields(Options) == map[];
    assert GetMessage(LogEvent) == Str("Log message");
  }

  /** With `name` and `hostname` configured, both are added to the reported event. */
  lemma NormalizeNamedLogEvent(stamp: string)
    ensures Normalize(LogEvent, Named, stamp) ==
      LogEvent["timestamp" := Str(stamp)]["msg" := Str("Log message")]
              ["name" := Str("loggly-name")]["hostname" := Str("example.com")]
  {
    assert Get(Named, "name") == Str("loggly-name") && Get(Named, "hostname") == Str("example.com");
    assert StaticFields(Named) == map["name" := Str("loggly-name"), "hostname" := Str("example.com")];
    assert GetMessage(LogEvent) == Str("Log message");
  }

  /** The subscription `{log: '*'}` with a token and a subdomain constructs, keeping the options as the config. */
  lemma ConstructLogSubscription()
    ensures Construct(Obj(map["log" := Str("*")]), Options) ==
      Success(Settings(ClientOptions("TOKEN", "SUBDOMAIN", true, false, []), Options))
  {
    assert !OpsRequested(Obj(map["log" := Str("*")]));
  }

  /**
    The reporter built for `{log: '*'}` with a token and a subdomain sends the
    log event in exactly one call, normalised, with the event's own tags.
  */
  method ReportLogEvent(toIso: Value -> Option<string>) returns (calls: seq<LogCall>)
    requires toIso(Num(1396207735000.0)).Some?
    ensures var stamp := toIso(Num(1396207735000.0)).value;
      calls == [LogCall(LogEvent["timestamp" := Str(stamp)]["msg" := Str("Log message")], Arr([Str("info"), Str("server")]))]
  {
    var subscription := Obj(map["log" := Str("*")]);
    ConstructLogSubscription();
    var created := GoodLoggly.New(subscription, Options);
    var reporter := created.value;
    assert reporter.config == Options;
    assert Field(LogEvent, "timestamp") == Num(1396207735000.0);
    assert Field(LogEvent, "tags") == Arr([Str("info"), Str("server")]);
    NormalizeLogEvent(toIso(Num(1396207735000.0)).value);
    var event := new Event(LogEvent);
    var ok := reporter.Report(event, toIso);
    calls := reporter.client.calls;
  }
}
