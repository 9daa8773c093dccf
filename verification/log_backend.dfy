/** The part of the log service the reconciler talks to: log groups and the
    subscription filters attached to them, keyed by (log group, filter name).

    Each call is one atomic step on an immutable `Backend` value. Failures
    other than "not found" (throttling, missing permissions, the service's
    limit on filters per group) are not decided here: the caller passes the
    set of calls that the service answers with such an error. */
module LogBackend {
  import opened Text

  /** Identity of one subscription filter: a log group holds at most one
      filter of a given name, which the map's keys enforce. */
  datatype FilterKey = FilterKey(logGroup: string, filterName: string)

  /** What a subscription filter forwards, and where to. */
  datatype Filter = Filter(pattern: string, destination: string)

  datatype Backend = Backend(logGroups: set<string>, filters: map<FilterKey, Filter>)

  /** Every filter belongs to an existing log group. */
  ghost predicate Valid(b: Backend) {
    forall k :: k in b.filters ==> k.logGroup in b.logGroups
  }

  /** The three service calls the reconciler makes. */
  datatype Call = DescribeCall | PutCall | DeleteCall

  /** How the service answers a call. `NotFound` stands for
      `ResourceNotFoundException`; `ServiceError` for any other error. */
  datatype Reply<+T> = Done(value: T) | NotFound | ServiceError

  /** `describe_subscription_filters(logGroupName, filterNamePrefix)`: the
      names of the filters on `group` that begin with `prefix`; not found
      when the group does not exist. */
  function Describe(b: Backend, faults: set<Call>, group: string, prefix: string): (r: Reply<set<string>>)
    ensures r.Done? <==> DescribeCall !in faults && group in b.logGroups
    ensures r.NotFound? <==> DescribeCall !in faults && group !in b.logGroups
    ensures r.Done? ==> forall n :: n in r.value <==>
      FilterKey(group, n) in b.filters && IsPrefix(prefix, n)
  {
    if DescribeCall in faults then ServiceError
    else if group !in b.logGroups then NotFound
    else Done(set k | k in b.filters && k.logGroup == group && IsPrefix(prefix, k.filterName) :: k.filterName)
  }

  /** `put_subscription_filter`: creates the filter, or replaces the one of
      the same name, on an existing group. On success the key maps to `f`
      and nothing else changes; otherwise nothing changes at all. */
  function Put(b: Backend, faults: set<Call>, key: FilterKey, f: Filter): (r: (Backend, Reply<()>))
    ensures r.1.Done? <==> PutCall !in faults && key.logGroup in b.logGroups
    ensures r.1.Done? ==> key in r.0.filters && r.0.filters[key] == f
    ensures r.0.logGroups == b.logGroups
    ensures forall k :: k != key ==>
      (k in r.0.filters <==> k in b.filters) && (k in b.filters ==> r.0.filters[k] == b.filters[k])
    ensures !r.1.Done? ==> r.0 == b
  {
    if PutCall in faults then (b, ServiceError)
    else if key.logGroup !in b.logGroups then (b, NotFound)
    else (b.(filters := b.filters[key := f]), Done(()))
  }

  /** `delete_subscription_filter`: removes an existing filter; not found
      when either the group or the filter is missing. On success exactly
      that key disappears; otherwise nothing changes. */
  function Delete(b: Backend, faults: set<Call>, key: FilterKey): (r: (Backend, Reply<()>))
    ensures r.1.Done? <==> DeleteCall !in faults && key.logGroup in b.logGroups && key in b.filters
    ensures r.1.NotFound? <==> DeleteCall !in faults && (key.logGroup !in b.logGroups || key !in b.filters)
    ensures key !in r.0.filters || r.0 == b
    ensures r.0.logGroups == b.logGroups
    ensures forall k :: k != key ==>
      (k in r.0.filters <==> k in b.filters) && (k in b.filters ==> r.0.filters[k] == b.filters[k])
    ensures !r.1.Done? ==> r.0 == b
  {
    if DeleteCall in faults then (b, ServiceError)
    else if key.logGroup !in b.logGroups || key !in b.filters then (b, NotFound)
    else (b.(filters := b.filters - {key}), Done(()))
  }
}
