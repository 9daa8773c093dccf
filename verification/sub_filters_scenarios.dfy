/** Concrete invocations of the reconciler under the default configuration,
    pinning down behaviour that the general lemmas only imply. */
module SubFilterScenarios {
  import opened PyJson
  import opened Text
  import opened LogBackend
  import opened SubFilters

  const DESTINATION: string := "arn:aws:lambda:us-west-2:123:function:issue-creator"

  /** A notification with the given event name and request parameters. */
  function Notification(eventName: string, p: RequestParameters): Event {
    Event(Present(Detail(Present(eventName), Present(p))))
  }

  /** The look-up is by prefix: an unrelated filter whose name merely
      begins with the managed name makes the upsert log "Updated", although
      the put then creates a second, separate filter. */
  lemma PrefixMatchReportsUpdate(pattern: string)
    ensures var cfg := DefaultConfig(DESTINATION);
            var other := FilterKey("/aws/lambda/foo", "ErrorSubscription-foo-bar");
            var b := Backend({"/aws/lambda/foo"}, map[other := Filter("\"WARN\"", DESTINATION)]);
            var r := UpsertFilter(cfg, b, {}, "foo", pattern);
            && r.outcome == Updated
            && r.backend.filters == map[other := Filter("\"WARN\"", DESTINATION),
                                        FilterKey("/aws/lambda/foo", "ErrorSubscription-foo") := Filter(pattern, DESTINATION)]
  {
    var cfg := DefaultConfig(DESTINATION);
    var other := FilterKey("/aws/lambda/foo", "ErrorSubscription-foo-bar");
    assert IsPrefix(FilterName(cfg, "foo"), other.filterName) by {
      assert other.filterName == FilterName(cfg, "foo") + "-bar";
    }
    assert KeyOf(cfg, "foo") == FilterKey("/aws/lambda/foo", "ErrorSubscription-foo");
  }

  /** Without `functionName` the name is the last `:`-segment of the
      resource ARN, and a tagging event installs the tag value verbatim,
      quotes included (`ArnFallback` computes the segment of a concrete ARN). */
  lemma TagResourceByArn(b: Backend, arn: string, n: string)
    requires LastSegment(arn, ':') == n
    requires LogGroupName(n) in b.logGroups
    ensures var cfg := DefaultConfig(DESTINATION);
            var e := Notification("TagResource",
              RequestParameters(Absent, Present(arn), Present(map["create_error_reports" := "\"TIMEOUT\""])));
            var r := Handle(cfg, b, {}, e);
            && Route(cfg, e) == Ok(Upsert(n, "\"TIMEOUT\""))
            && r.outcome in {Created, Updated}
            && FilterKey("/aws/lambda/" + n, "ErrorSubscription-" + n) in r.backend.filters
            && r.backend.filters[FilterKey("/aws/lambda/" + n, "ErrorSubscription-" + n)] == Filter("\"TIMEOUT\"", DESTINATION)
  {
    var cfg := DefaultConfig(DESTINATION);
    var p := RequestParameters(Absent, Present(arn), Present(map["create_error_reports" := "\"TIMEOUT\""]));
    assert ResolveFunctionName(p) == Ok(n);
    assert KeyOf(cfg, n) == FilterKey("/aws/lambda/" + n, "ErrorSubscription-" + n);
  }

  /** The last `:`-segment of a function ARN is the function name. */
  lemma ArnFallback()
    ensures LastSegment("arn:aws:lambda:us-west-2:123:function:billing-worker", ':') == "billing-worker"
  {
    var arn := "arn:aws:lambda:us-west-2:123:function:billing-worker";
    var head := "arn:aws:lambda:us-west-2:123:function:";
    assert arn == head + "billing-worker";
    LastSegmentAfter(head, "billing-worker", ':');
  }

  /** A created function with no tags gets the default pattern, which keeps
      its double quotes. */
  lemma CreateFunctionUsesQuotedDefault(b: Backend, n: string)
    requires LogGroupName(n) in b.logGroups
    ensures var cfg := DefaultConfig(DESTINATION);
            var e := Notification("CreateFunction", RequestParameters(Present(n), Absent, Absent));
            var r := Handle(cfg, b, {}, e);
            var key := FilterKey("/aws/lambda/" + n, "ErrorSubscription-" + n);
            && key in r.backend.filters
            && r.backend.filters[key].pattern == "\"ERROR\""
            && |r.backend.filters[key].pattern| == 7
            && r.backend.filters[key].pattern[0] == '"'
  {
    var cfg := DefaultConfig(DESTINATION);
    var p := RequestParameters(Present(n), Absent, Absent);
    var e := Notification("CreateFunction", p);
    assert ResolveFunctionName(p) == Ok(n);
    assert Decide(cfg, Some(CREATE_FUNCTION), n, Some(map[])) == Ok(Upsert(n, DEFAULT_FILTER_PATTERN));
    assert Route(cfg, e) == Ok(Upsert(n, DEFAULT_FILTER_PATTERN));
    assert KeyOf(cfg, n) == FilterKey("/aws/lambda/" + n, "ErrorSubscription-" + n);
  }

  /** An event name the handler does not route is skipped whatever its tags,
      and the service is left alone. */
  lemma UnknownEventSkipped(b: Backend, faults: set<Call>, tags: Field<map<string, string>>)
    ensures var e := Notification("UpdateFunctionCode", RequestParameters(Present("orders-api"), Absent, tags));
            Handle(DefaultConfig(DESTINATION), b, faults, e) == Invocation(b, Skipped)
  {
  }

  /** A tagging event without the watched key is skipped too. */
  lemma TagWithoutKeySkipped(b: Backend, faults: set<Call>)
    ensures var e := Notification("TagResource",
              RequestParameters(Present("orders-api"), Absent, Present(map["team" := "payments"])));
            Handle(DefaultConfig(DESTINATION), b, faults, e) == Invocation(b, Skipped)
  {
  }

  /** A `null` `requestParameters` makes the handler raise before any call,
      even for an event it would otherwise skip. */
  lemma NullParametersRaise(b: Backend, faults: set<Call>)
    ensures var e := Event(Present(Detail(Present("UpdateFunctionCode"), Null)));
            Handle(DefaultConfig(DESTINATION), b, faults, e) == Invocation(b, Raised(AttributeError))
  {
  }
}
