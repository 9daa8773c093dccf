/** The tag-driven subscription-filter reconciler
    (`src/create_sub_filters/main.py`).

    One invocation reads a CloudTrail change notification, decides whether
    the function it names should have an error subscription filter
    (upsert), should lose it (remove), or is none of its business, and then
    makes at most one describe and one write call to the log service. The
    handler returns nothing: what happened is only visible in the log line
    it writes, which `Outcome` mirrors. */
module SubFilters {
  import opened PyJson
  import opened Text
  import opened LogBackend

  /** Settings read from the environment when the module loads. */
  datatype Config = Config(
    destinationArn: string,    // DESTINATION_ARN, required
    filterNamePrefix: string,  // SUBSCRIPTION_FILTER_PREFIX
    defaultPattern: string,    // FILTER_PATTERN
    tagKey: string)            // TAG_KEY

  const DEFAULT_FILTER_NAME_PREFIX: string := "ErrorSubscription"
  /** The default pattern keeps its double quotes: a quoted term in the log
      service's filter syntax. */
  const DEFAULT_FILTER_PATTERN: string := "\"ERROR\""
  const DEFAULT_TAG_KEY: string := "create_error_reports"

  /** The configuration when only the required destination is set. */
  function DefaultConfig(destinationArn: string): Config {
    Config(destinationArn, DEFAULT_FILTER_NAME_PREFIX, DEFAULT_FILTER_PATTERN, DEFAULT_TAG_KEY)
  }

  const CREATE_FUNCTION: string := "CreateFunction"
  const DELETE_FUNCTION: string := "DeleteFunction"
  const TAG_RESOURCE: string := "TagResource"
  const UNTAG_RESOURCE: string := "UntagResource"

  const LOG_GROUP_PREFIX: string := "/aws/lambda/"

  /** `requestParameters` of the notification. */
  datatype RequestParameters = RequestParameters(
    functionName: Field<string>,
    resourceArn: Field<string>,
    tags: Field<map<string, string>>)

  /** `detail` of the notification. */
  datatype Detail = Detail(eventName: Field<string>, requestParameters: Field<RequestParameters>)

  /** The notification; `Null` for `detail` also stands for any value that
      is not an object. */
  datatype Event = Event(detail: Field<Detail>)

  /** What the handler decided to do. */
  datatype Action = Upsert(functionName: string, pattern: string) | Remove(functionName: string) | Ignore

  /** What one invocation did, one alternative per log line (or lack of it). */
  datatype Outcome =
    | Created          // no filter with the name as prefix existed; put issued
    | Updated          // some filter with the name as prefix existed; put issued
    | Removed          // delete issued and accepted
    | LogGroupNotFound // ResourceNotFoundException, on either path
    | UpsertFailed     // any other error while creating or updating
    | RemoveFailed     // any other error while removing
    | Skipped          // routing chose no action; nothing logged, no call made
    | Raised(error: PyError) // an exception escaped the handler before any call

  /** The backend after an invocation, and what the invocation did. */
  datatype Invocation = Invocation(backend: Backend, outcome: Outcome)

  /** Log group of a function: the fixed Lambda prefix, after which the
      function name can be read back. */
  function LogGroupName(functionName: string): (g: string)
    ensures IsPrefix(LOG_GROUP_PREFIX, g)
    ensures g[|LOG_GROUP_PREFIX|..] == functionName
  {
    LOG_GROUP_PREFIX + functionName
  }

  /** Name of the filter the reconciler manages for a function: the
      configured prefix and a dash, after which the function name can be
      read back. */
  function FilterName(cfg: Config, functionName: string): (f: string)
    ensures IsPrefix(cfg.filterNamePrefix + "-", f)
    ensures f[|cfg.filterNamePrefix| + 1..] == functionName
  {
    cfg.filterNamePrefix + "-" + functionName
  }

  /** The (log group, filter name) key both paths use for a function. */
  function KeyOf(cfg: Config, functionName: string): FilterKey {
    FilterKey(LogGroupName(functionName), FilterName(cfg, functionName))
  }

  /** `detail.get("requestParameters", {})`: a `null` here makes the next
      `.get` raise. */
  function Parameters(d: Detail): Result<RequestParameters> {
    match d.requestParameters
    case Absent => Ok(RequestParameters(Absent, Absent, Absent))
    case Null => Raise(AttributeError)
    case Present(p) => Ok(p)
  }

  /** Python truthiness of an optional string: present and non-empty. */
  predicate Truthy(f: Field<string>) {
    f.Present? && f.value != ""
  }

  /** The function name: `functionName` when truthy, otherwise the text
      after the last `:` of `resourceArn` (`""` when that is missing). A
      `null` ARN raises on `.split`. */
  function ResolveFunctionName(p: RequestParameters): (r: Result<string>)
    ensures Truthy(p.functionName) ==> r == Ok(p.functionName.value)
    ensures !Truthy(p.functionName) ==> (r.Raise? <==> p.resourceArn.Null?)
    ensures !Truthy(p.functionName) && r.Ok? ==> ':' !in r.value
    ensures !Truthy(p.functionName) && p.resourceArn.Present? ==>
      var arn := p.resourceArn.value;
      && IsSuffix(r.value, arn)
      && (r.value == arn || arn[|arn| - |r.value| - 1] == ':')
    ensures !Truthy(p.functionName) && p.resourceArn.Absent? ==> r == Ok("")
  {
    if Truthy(p.functionName) then Ok(p.functionName.value)
    else match p.resourceArn
      case Absent =>
        LastSegmentProperties("", ':');
        Ok(LastSegment("", ':'))
      case Null => Raise(AttributeError)
      case Present(arn) =>
        LastSegmentProperties(arn, ':');
        Ok(LastSegment(arn, ':'))
  }

  /** `request_parameters.get("tags", {})`; `None` when the tags are `null`. */
  function TagsOf(p: RequestParameters): Option<map<string, string>> {
    match p.tags
    case Absent => Some(map[])
    case Null => None
    case Present(m) => Some(m)
  }

  /** `TAG_KEY in tags`, which raises when `tags` is `None`. */
  function HasKey(tags: Option<map<string, string>>, key: string): Result<bool> {
    match tags
    case None => Raise(TypeError)
    case Some(m) => Ok(key in m)
  }

  /** `name == a or (name == b and TAG_KEY in tags)`, evaluated left to
      right with Python's short circuit: the tags are only inspected when
      the event name is `b`. */
  function NameOrTagged(eventName: Option<string>, a: string, b: string,
                        tags: Option<map<string, string>>, key: string): Result<bool>
  {
    if eventName == Some(a) then Ok(true)
    else if eventName == Some(b) then HasKey(tags, key)
    else Ok(false)
  }

  /** `tags.get(TAG_KEY, DEFAULT_FILTER_PATTERN)`, which raises when `tags`
      is `None`. */
  function TagValue(tags: Option<map<string, string>>, key: string, default: string): Result<string> {
    match tags
    case None => Raise(AttributeError)
    case Some(m) => Ok(if key in m then m[key] else default)
  }

  /** `detail["eventName"]`: a missing key raises, `null` gives `None`. */
  function EventNameOf(d: Detail): Result<Option<string>> {
    match d.eventName
    case Absent => Raise(KeyError)
    case Null => Ok(None)
    case Present(n) => Ok(Some(n))
  }

  /** Lines 34-42: the choice between upsert, remove and nothing, once the
      event name, the function name and the tags have been read. Only the
      two routed names can lead anywhere, and a tagging event always
      carries the watched key and installs its value. */
  function Decide(cfg: Config, eventName: Option<string>, functionName: string,
                  tags: Option<map<string, string>>): (r: Result<Action>)
    ensures r.Ok? && r.value.Upsert? ==> eventName in {Some(CREATE_FUNCTION), Some(TAG_RESOURCE)}
    ensures r.Ok? && r.value.Remove? ==> eventName in {Some(DELETE_FUNCTION), Some(UNTAG_RESOURCE)}
    ensures r.Ok? && r.value.Upsert? && eventName == Some(TAG_RESOURCE) ==>
      tags.Some? && cfg.tagKey in tags.value && r.value.pattern == tags.value[cfg.tagKey]
    ensures r.Ok? && !r.value.Ignore? ==> r.value.functionName == functionName
    ensures eventName.None? ==> r == Ok(Ignore)
  {
    var upsert :- NameOrTagged(eventName, CREATE_FUNCTION, TAG_RESOURCE, tags, cfg.tagKey);
    if upsert then
      var pattern :- TagValue(tags, cfg.tagKey, cfg.defaultPattern);
      Ok(Upsert(functionName, pattern))
    else
      var remove :- NameOrTagged(eventName, DELETE_FUNCTION, UNTAG_RESOURCE, tags, cfg.tagKey);
      if remove then Ok(Remove(functionName)) else Ok(Ignore)
  }

  /** The `detail` of the notification: raises when it is missing or not
      an object. */
  function DetailOf(e: Event): (r: Result<Detail>)
    ensures r.Ok? <==> e.detail.Present?
  {
    match e.detail
    case Absent => Raise(KeyError)
    case Null => Raise(TypeError)
    case Present(d) => Ok(d)
  }

  /** Lines 22-42 of the handler up to, not including, the backend calls:
      the fields are read in the source's order, so an exception comes from
      the first lookup that fails; a `null` event name routes nowhere. */
  function Route(cfg: Config, e: Event): (r: Result<Action>)
    ensures r.Ok? ==> e.detail.Present? && !e.detail.value.eventName.Absent?
    ensures r.Ok? && e.detail.value.eventName.Null? ==> r.value == Ignore
    ensures r.Ok? && !r.value.Ignore? ==>
      Parameters(e.detail.value).Ok? &&
      ResolveFunctionName(Parameters(e.detail.value).value) == Ok(r.value.functionName)
  {
    var d :- DetailOf(e);
    var eventName :- EventNameOf(d);
    var params :- Parameters(d);
    var functionName :- ResolveFunctionName(params);
    Decide(cfg, eventName, functionName, TagsOf(params))
  }

  /** `create_or_update_log_subscription_filter`: look for filters whose
      name begins with the managed name, then issue the same put whether or
      not one was found; the look-up only decides which line is logged. */
  function UpsertFilter(cfg: Config, b: Backend, faults: set<Call>,
                        functionName: string, pattern: string): (r: Invocation)
    ensures r.outcome in {Created, Updated, LogGroupNotFound, UpsertFailed}
    ensures r.outcome in {Created, Updated} <==>
      DescribeCall !in faults && PutCall !in faults && LogGroupName(functionName) in b.logGroups
    ensures r.outcome == LogGroupNotFound <==>
      DescribeCall !in faults && LogGroupName(functionName) !in b.logGroups
    ensures r.outcome in {Created, Updated} ==>
      var key := KeyOf(cfg, functionName);
      key in r.backend.filters && r.backend.filters[key] == Filter(pattern, cfg.destinationArn)
    ensures r.outcome == Updated ==>
      exists k :: k in b.filters && k.logGroup == LogGroupName(functionName)
              && IsPrefix(FilterName(cfg, functionName), k.filterName)
    ensures r.outcome == Created ==>
      forall k :: k in b.filters && k.logGroup == LogGroupName(functionName)
              ==> !IsPrefix(FilterName(cfg, functionName), k.filterName)
    ensures r.backend.logGroups == b.logGroups
    ensures forall k :: k != KeyOf(cfg, functionName) ==>
      (k in r.backend.filters <==> k in b.filters) && (k in b.filters ==> r.backend.filters[k] == b.filters[k])
    ensures r.outcome !in {Created, Updated} ==> r.backend == b
  {
    var group := LogGroupName(functionName);
    var name := FilterName(cfg, functionName);
    match Describe(b, faults, group, name)
    case ServiceError => Invocation(b, UpsertFailed)
    case NotFound => Invocation(b, LogGroupNotFound)
    case Done(existing) =>
      var (b', reply) := Put(b, faults, KeyOf(cfg, functionName), Filter(pattern, cfg.destinationArn));
      match reply
      case Done(_) =>
        if existing != {} then
          var n :| n in existing;
          assert FilterKey(group, n) in b.filters;
          Invocation(b', Updated)
        else Invocation(b', Created)
      case NotFound => Invocation(b', LogGroupNotFound)
      case ServiceError => Invocation(b', UpsertFailed)
  }

  /** `remove_log_subscription_filter`: delete the managed filter by name;
      a missing group or filter is logged as "log group not found". */
  function RemoveFilter(cfg: Config, b: Backend, faults: set<Call>, functionName: string): (r: Invocation)
    ensures r.outcome in {Removed, LogGroupNotFound, RemoveFailed}
    ensures r.outcome == Removed <==> DeleteCall !in faults && KeyOf(cfg, functionName) in b.filters
                                      && LogGroupName(functionName) in b.logGroups
    ensures KeyOf(cfg, functionName) !in r.backend.filters || r.backend == b
    ensures r.backend.logGroups == b.logGroups
    ensures forall k :: k != KeyOf(cfg, functionName) ==>
      (k in r.backend.filters <==> k in b.filters) && (k in b.filters ==> r.backend.filters[k] == b.filters[k])
    ensures r.outcome != Removed ==> r.backend == b
  {
    var (b', reply) := Delete(b, faults, KeyOf(cfg, functionName));
    match reply
    case Done(_) => Invocation(b', Removed)
    case NotFound => Invocation(b', LogGroupNotFound)
    case ServiceError => Invocation(b', RemoveFailed)
  }

  /** `lambda_handler`: route the event, then run the chosen path. Every
      backend error is caught inside the paths; only a malformed event can
      make the handler raise, and then before any call is made. */
  function Handle(cfg: Config, b: Backend, faults: set<Call>, e: Event): (r: Invocation)
    ensures r.outcome.Raised? ==> r.backend == b
    ensures r.outcome == Skipped ==> r.backend == b
  {
    match Route(cfg, e)
    case Raise(err) => Invocation(b, Raised(err))
    case Ok(Upsert(name, pattern)) => UpsertFilter(cfg, b, faults, name, pattern)
    case Ok(Remove(name)) => RemoveFilter(cfg, b, faults, name)
    case Ok(Ignore) => Invocation(b, Skipped)
  }
}
