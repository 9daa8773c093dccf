/** Properties of the subscription-filter reconciler: which events lead to
    which path, how names are derived, what each path does to the log
    service, and what repeating or combining invocations does. */
module SubFilterProperties {
  import opened PyJson
  import opened Text
  import opened LogBackend
  import opened SubFilters

  /** The event can be read without an exception: every lookup the handler
      performs on the way to its decision succeeds. */
  predicate WellFormed(e: Event) {
    && e.detail.Present?
    && !e.detail.value.eventName.Absent?
    && !e.detail.value.requestParameters.Null?
    && var p := ParamsOf(e.detail.value);
       && (!Truthy(p.functionName) ==> !p.resourceArn.Null?)
       && (p.tags.Null? ==> NameOf(e.detail.value) !in {Some(CREATE_FUNCTION), Some(TAG_RESOURCE), Some(UNTAG_RESOURCE)})
  }

  /** `requestParameters`, an absent one read as empty. */
  function ParamsOf(d: Detail): RequestParameters {
    if d.requestParameters.Present? then d.requestParameters.value
    else RequestParameters(Absent, Absent, Absent)
  }

  /** The event name, `None` when it is `null` or missing. */
  function NameOf(d: Detail): Option<string> {
    if d.eventName.Present? then Some(d.eventName.value) else None
  }

  /** The tags, empty when missing or `null`. */
  function TagMap(d: Detail): map<string, string> {
    var p := ParamsOf(d);
    if p.tags.Present? then p.tags.value else map[]
  }

  /** The routing rule for upsert: a function was created, or tagged with
      the watched key. */
  predicate WantsUpsert(cfg: Config, d: Detail) {
    NameOf(d) == Some(CREATE_FUNCTION) || (NameOf(d) == Some(TAG_RESOURCE) && cfg.tagKey in TagMap(d))
  }

  /** The routing rule for remove: a function was deleted, or untagged
      with the watched key. */
  predicate WantsRemove(cfg: Config, d: Detail) {
    NameOf(d) == Some(DELETE_FUNCTION) || (NameOf(d) == Some(UNTAG_RESOURCE) && cfg.tagKey in TagMap(d))
  }

  /** The handler routes an event without raising exactly when the event is
      well formed. */
  lemma RouteTotalOnWellFormed(cfg: Config, e: Event)
    ensures Route(cfg, e).Ok? <==> WellFormed(e)
  {
  }

  /** On a well-formed event, upsert is chosen exactly for a created
      function or a tag with the watched key, remove exactly for a deleted
      function or an untag with the watched key, and nothing otherwise; both
      paths act on the resolved function name. */
  lemma RouteDecision(cfg: Config, e: Event)
    requires WellFormed(e)
    ensures var a := Route(cfg, e).value;
            var d := e.detail.value;
            && (a.Upsert? <==> WantsUpsert(cfg, d))
            && (a.Remove? <==> !WantsUpsert(cfg, d) && WantsRemove(cfg, d))
            && (a.Ignore? <==> !WantsUpsert(cfg, d) && !WantsRemove(cfg, d))
            && (!a.Ignore? ==> a.functionName == ResolveFunctionName(ParamsOf(d)).value)
  {
  }

  /** The pattern of an upsert is the watched tag's value, verbatim, when
      the tags carry it and the configured default otherwise; so a tagging
      event always installs its tag value. */
  lemma UpsertPattern(cfg: Config, e: Event)
    requires Route(cfg, e).Ok? && Route(cfg, e).value.Upsert?
    ensures var d := e.detail.value;
            Route(cfg, e).value.pattern ==
              if cfg.tagKey in TagMap(d) then TagMap(d)[cfg.tagKey] else cfg.defaultPattern
    ensures NameOf(e.detail.value) == Some(TAG_RESOURCE) ==>
              Route(cfg, e).value.pattern == TagMap(e.detail.value)[cfg.tagKey]
  {
  }

  /** A function name determines its log group and its filter name, and
      different functions get different ones, so the two paths of one
      function always address the same single filter and never another
      function's. */
  lemma {:induction false} NamingInjective(cfg: Config, n1: string, n2: string)
    ensures LogGroupName(n1) == LogGroupName(n2) <==> n1 == n2
    ensures FilterName(cfg, n1) == FilterName(cfg, n2) <==> n1 == n2
    ensures KeyOf(cfg, n1) == KeyOf(cfg, n2) <==> n1 == n2
  {
    if LogGroupName(n1) == LogGroupName(n2) {
      assert n1 == LogGroupName(n1)[|LOG_GROUP_PREFIX|..];
      assert n2 == LogGroupName(n2)[|LOG_GROUP_PREFIX|..];
    }
    var p := cfg.filterNamePrefix + "-";
    if FilterName(cfg, n1) == FilterName(cfg, n2) {
      assert FilterName(cfg, n1) == p + n1;
      assert FilterName(cfg, n2) == p + n2;
      assert n1 == (p + n1)[|p|..];
      assert n2 == (p + n2)[|p|..];
    }
  }

  /** Upserting twice with the same arguments leaves the service as one
      upsert did; the second call reports an update when the first one
      wrote, and repeats the first call's outcome when it did not. */
  lemma UpsertIdempotent(cfg: Config, b: Backend, faults: set<Call>, n: string, pattern: string)
    ensures var r1 := UpsertFilter(cfg, b, faults, n, pattern);
            var r2 := UpsertFilter(cfg, r1.backend, faults, n, pattern);
            && r2.backend == r1.backend
            && (r1.outcome in {Created, Updated} ==> r2.outcome == Updated)
            && (r1.outcome !in {Created, Updated} ==> r2 == r1)
  {

  }

  /** A second upsert of the same function overwrites the first: the
      service ends as if only the second had been made. */
  lemma UpsertLastWriteWins(cfg: Config, b: Backend, faults: set<Call>, n: string, p1: string, p2: string)
    ensures var r1 := UpsertFilter(cfg, b, faults, n, p1);
            UpsertFilter(cfg, r1.backend, faults, n, p2).backend == UpsertFilter(cfg, b, faults, n, p2).backend
  {
    var b1 := UpsertFilter(cfg, b, faults, n, p1).backend;
    UpsertEffect(cfg, b, faults, n, p1);
    UpsertEffect(cfg, b, faults, n, p2);
    assert UpsertWrites(cfg, b1, faults, n) == UpsertWrites(cfg, b, faults, n);
    UpsertEffect(cfg, b1, faults, n, p2);
    if UpsertWrites(cfg, b, faults, n) {
      var k := KeyOf(cfg, n);
      assert b.filters[k := Filter(p1, cfg.destinationArn)][k := Filter(p2, cfg.destinationArn)]
          == b.filters[k := Filter(p2, cfg.destinationArn)];
    }
  }

  /** Removing twice leaves the service as one removal did; the second call
      finds nothing and reports it as not found. */
  lemma RemoveIdempotent(cfg: Config, b: Backend, faults: set<Call>, n: string)
    ensures var r1 := RemoveFilter(cfg, b, faults, n);
            var r2 := RemoveFilter(cfg, r1.backend, faults, n);
            && r2.backend == r1.backend
            && (r1.outcome == Removed ==> r2.outcome == LogGroupNotFound)
            && (r1.outcome != Removed ==> r2 == r1)
  {
  }

  /** Removing right after a successful upsert takes out exactly the
      filter the upsert wrote, whatever was there before. */
  lemma RemoveUndoesUpsert(cfg: Config, b: Backend, n: string, pattern: string)
    requires UpsertFilter(cfg, b, {}, n, pattern).outcome in {Created, Updated}
    ensures var r1 := UpsertFilter(cfg, b, {}, n, pattern);
            var r2 := RemoveFilter(cfg, r1.backend, {}, n);
            && r2.outcome == Removed
            && r2.backend == b.(filters := b.filters - {KeyOf(cfg, n)})
  {

  }

  /** The upsert writes, and only writes, when neither call fails and the
      function's log group exists. */
  predicate UpsertWrites(cfg: Config, b: Backend, faults: set<Call>, n: string) {
    DescribeCall !in faults && PutCall !in faults && LogGroupName(n) in b.logGroups
  }

  /** The removal deletes when its call does not fail and the function's
      log group exists (deleting an absent filter changes nothing). */
  predicate RemoveDeletes(b: Backend, faults: set<Call>, n: string) {
    DeleteCall !in faults && LogGroupName(n) in b.logGroups
  }

  /** The service after putting `f` under `k`, if `writes`. */
  function Written(b: Backend, writes: bool, k: FilterKey, f: Filter): Backend {
    if writes then b.(filters := b.filters[k := f]) else b
  }

  /** The service after deleting `k`, if `deletes`. */
  function Dropped(b: Backend, deletes: bool, k: FilterKey): Backend {
    if deletes then b.(filters := b.filters - {k}) else b
  }

  /** The whole effect of an upsert on the service: a put of the pattern and
      the configured destination under the function's key, or nothing. */
  lemma UpsertEffect(cfg: Config, b: Backend, faults: set<Call>, n: string, pattern: string)
    ensures UpsertFilter(cfg, b, faults, n, pattern).backend ==
      Written(b, UpsertWrites(cfg, b, faults, n), KeyOf(cfg, n), Filter(pattern, cfg.destinationArn))
  {

  }

  /** The whole effect of a removal on the service: the function's key is
      dropped, or nothing changes. */
  lemma RemoveEffect(cfg: Config, b: Backend, faults: set<Call>, n: string)
    ensures RemoveFilter(cfg, b, faults, n).backend == Dropped(b, RemoveDeletes(b, faults, n), KeyOf(cfg, n))
  {

  }

  /** Puts under different keys commute. */
  lemma WrittenCommute(b: Backend, w1: bool, k1: FilterKey, f1: Filter, w2: bool, k2: FilterKey, f2: Filter)
    requires k1 != k2
    ensures Written(Written(b, w1, k1, f1), w2, k2, f2) == Written(Written(b, w2, k2, f2), w1, k1, f1)
  {

  }

  /** A put and a delete under different keys commute. */
  lemma WrittenDroppedCommute(b: Backend, w: bool, k1: FilterKey, f: Filter, d: bool, k2: FilterKey)
    requires k1 != k2
    ensures Dropped(Written(b, w, k1, f), d, k2) == Written(Dropped(b, d, k2), w, k1, f)
  {

  }

  /** Upserts for two different functions do not interfere: either order
      leaves the service in the same state. */
  lemma UpsertsCommute(cfg: Config, b: Backend, faults: set<Call>, n1: string, p1: string, n2: string, p2: string)
    requires n1 != n2
    ensures var a := UpsertFilter(cfg, UpsertFilter(cfg, b, faults, n1, p1).backend, faults, n2, p2);
            var c := UpsertFilter(cfg, UpsertFilter(cfg, b, faults, n2, p2).backend, faults, n1, p1);
            a.backend == c.backend
  {
    NamingInjective(cfg, n1, n2);
    var k1, k2 := KeyOf(cfg, n1), KeyOf(cfg, n2);
    var f1, f2 := Filter(p1, cfg.destinationArn), Filter(p2, cfg.destinationArn);
    var w1, w2 := UpsertWrites(cfg, b, faults, n1), UpsertWrites(cfg, b, faults, n2);
    var b1 := UpsertFilter(cfg, b, faults, n1, p1).backend;
    var b2 := UpsertFilter(cfg, b, faults, n2, p2).backend;
    UpsertEffect(cfg, b, faults, n1, p1);
    UpsertEffect(cfg, b, faults, n2, p2);
    assert UpsertWrites(cfg, b1, faults, n2) == w2;
    assert UpsertWrites(cfg, b2, faults, n1) == w1;
    UpsertEffect(cfg, b1, faults, n2, p2);
    UpsertEffect(cfg, b2, faults, n1, p1);
    WrittenCommute(b, w1, k1, f1, w2, k2, f2);
  }

  /** An upsert for one function and a removal for another do not
      interfere either. */
  lemma UpsertRemoveCommute(cfg: Config, b: Backend, faults: set<Call>, n1: string, p1: string, n2: string)
    requires n1 != n2
    ensures var a := RemoveFilter(cfg, UpsertFilter(cfg, b, faults, n1, p1).backend, faults, n2);
            var c := UpsertFilter(cfg, RemoveFilter(cfg, b, faults, n2).backend, faults, n1, p1);
            a.backend == c.backend
  {
    NamingInjective(cfg, n1, n2);
    var k1, k2 := KeyOf(cfg, n1), KeyOf(cfg, n2);
    var f1 := Filter(p1, cfg.destinationArn);
    var w, d := UpsertWrites(cfg, b, faults, n1), RemoveDeletes(b, faults, n2);
    var b1 := UpsertFilter(cfg, b, faults, n1, p1).backend;
    var b2 := RemoveFilter(cfg, b, faults, n2).backend;
    UpsertEffect(cfg, b, faults, n1, p1);
    RemoveEffect(cfg, b, faults, n2);
    assert RemoveDeletes(b1, faults, n2) == d;
    assert UpsertWrites(cfg, b2, faults, n1) == w;
    RemoveEffect(cfg, b1, faults, n2);
    UpsertEffect(cfg, b2, faults, n1, p1);
    WrittenDroppedCommute(b, w, k1, f1, d, k2);
  }

  /** Whatever the event, an invocation changes at most the filter of the
      function it routes to, and never the set of log groups. */
  lemma HandleFrame(cfg: Config, b: Backend, faults: set<Call>, e: Event, k: FilterKey)
    requires !(Route(cfg, e).Ok? && !Route(cfg, e).value.Ignore? && k == KeyOf(cfg, Route(cfg, e).value.functionName))
    ensures var r := Handle(cfg, b, faults, e);
            && r.backend.logGroups == b.logGroups
            && (k in r.backend.filters <==> k in b.filters)
            && (k in b.filters ==> r.backend.filters[k] == b.filters[k])
  {
  }

  /** Handling the same event twice leaves the service as handling it once:
      duplicate notifications are harmless. */
  lemma HandleIdempotent(cfg: Config, b: Backend, faults: set<Call>, e: Event)
    ensures var b1 := Handle(cfg, b, faults, e).backend;
            Handle(cfg, b1, faults, e).backend == b1
  {

  }

  /** No backend error escapes the handler: an exception leaves it only for
      an event it cannot read, and then before any call is made. */
  lemma HandleRaisesOnlyOnMalformed(cfg: Config, b: Backend, faults: set<Call>, e: Event)
    ensures Handle(cfg, b, faults, e).outcome.Raised? <==> !WellFormed(e)
    ensures !WellFormed(e) ==> Handle(cfg, b, faults, e) == Invocation(b, Handle(cfg, b, faults, e).outcome)
  {

  }

  /** An event that routes nowhere is skipped without any call to the
      service: the result is the same whichever calls would have failed. */
  lemma SkippedMakesNoCall(cfg: Config, b: Backend, faults: set<Call>, faults': set<Call>, e: Event)
    requires WellFormed(e)
    requires !WantsUpsert(cfg, e.detail.value) && !WantsRemove(cfg, e.detail.value)
    ensures Handle(cfg, b, faults, e) == Invocation(b, Skipped)
    ensures Handle(cfg, b, faults', e) == Handle(cfg, b, faults, e)
  {

  }

  /** Every invocation keeps every filter attached to an existing log group. */
  lemma HandlePreservesValid(cfg: Config, b: Backend, faults: set<Call>, e: Event)
    requires Valid(b)
    ensures Valid(Handle(cfg, b, faults, e).backend)
  {
  }
}
