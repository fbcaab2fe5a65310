/**
 Measuring a batch of asynchronous units. Every unit is measured on its own and
 tracks its own metric when it settles; the settled promises are then joined
 either with `Promise.allSettled` (best effort) or `Promise.all` (fail fast)
 and folded into index-aligned `results`, `durations` and `errors`.
 */
module Batch {
  import opened Wrappers
  import opened Js
  import opened Timer
  import opened MetricBuilder
  import opened Telemetry
  import opened ClientResolver
  import opened SingleUnit

  /** One element of the joined array: a `Promise.allSettled` record, fulfilled
      or rejected, or a bare `{result, duration}` from `Promise.all`. */
  datatype Entry = Fulfilled(timed: Timed) | Rejected(reason: Fault) | Raw(timed: Timed)

  /** The three index-aligned arrays; `None` is `undefined`. */
  datatype Aggregated = Aggregated(results: seq<Value>, durations: seq<Option<real>>, errors: seq<Option<Fault>>)

  /** What the fail-fast call returns: the `errors` array is dropped. */
  datatype Timings = Timings(results: seq<Value>, durations: seq<Option<real>>)

  /** `order` lists the indices of `n` units in the order they settle, each once. */
  predicate SettlementOrder(order: seq<nat>, n: nat) {
    && |order| == n
    && (forall k :: 0 <= k < n ==> order[k] < n)
    && (forall i :: 0 <= i < n ==> i in order)
    && (forall j, k :: 0 <= j < k < n ==> order[j] != order[k])
  }

  // Property reads on a joined element, as the aggregation performs them.

  function StatusField(e: Entry): Value {
    match e
    case Fulfilled(_) => Str("fulfilled")
    case Rejected(_) => Str("rejected")
    case Raw(_) => Undefined
  }

  function ReasonField(e: Entry): Option<Fault> {
    if e.Rejected? then Some(e.reason) else None
  }

  function ValueField(e: Entry): Option<Timed> {
    if e.Fulfilled? then Some(e.timed) else None
  }

  function ResultField(e: Entry): Value {
    if e.Raw? then e.timed.result else Undefined
  }

  function DurationField(e: Entry): Option<real> {
    if e.Raw? then Some(e.timed.duration) else None
  }

  /** What slot `i` of the three arrays holds for joined element `e`: a result and
      duration for a fulfilled or bare element, `undefined` for a rejected one,
      and the rejection reason as error only when that reason is truthy. */
  predicate Slot(e: Entry, result: Value, duration: Option<real>, error: Option<Fault>) {
    match e
    case Fulfilled(t) => result == t.result && duration == Some(t.duration) && error.None?
    case Raw(t) => result == t.result && duration == Some(t.duration) && error.None?
    case Rejected(f) =>
      && result == Undefined && duration.None?
      && error == (if Truthy(f.thrown) then Some(f) else None)
  }

  /** The fold over the joined array. */
  method Aggregate(entries: seq<Entry>) returns (a: Aggregated)
    ensures |a.results| == |entries| && |a.durations| == |entries| && |a.errors| == |entries|
    ensures forall i :: 0 <= i < |entries| ==> Slot(entries[i], a.results[i], a.durations[i], a.errors[i])
  {
    var results: seq<Value> := [];
    var durations: seq<Option<real>> := [];
    var errors: seq<Option<Fault>> := [];
    for i := 0 to |entries|
      invariant |results| == i && |durations| == i && |errors| == i
      invariant forall j :: 0 <= j < i ==> Slot(entries[j], results[j], durations[j], errors[j])
    {
      var e := entries[i];
      if Truthy(StatusField(e)) && StatusField(e) == Str("rejected")
        && ReasonField(e).Some? && Truthy(ReasonField(e).value.thrown) {
        errors := errors + [ReasonField(e)];
      } else {
        errors := errors + [None];
      }
      if ValueField(e).Some? {
        results := results + [ValueField(e).value.result];
        durations := durations + [Some(ValueField(e).value.duration)];
      } else {
        results := results + [ResultField(e)];
        durations := durations + [DurationField(e)];
      }
    }
    a := Aggregated(results, durations, errors);
  }

  /** The position in `order` of the first unit to reject, if any. */
  function FirstRejection(units: seq<Outcome>, order: seq<nat>): (k: Option<nat>)
    requires forall j :: 0 <= j < |order| ==> order[j] < |units|
    ensures k.Some? ==> k.value < |order| && units[order[k.value]].Threw?
    ensures k.Some? ==> forall j :: 0 <= j < k.value ==> units[order[j]].Returned?
    ensures k.None? ==> forall j :: 0 <= j < |order| ==> units[order[j]].Returned?
    decreases |order|
  {
    if |order| == 0 then None
    else match FirstRejection(units, order[..|order| - 1])
      case Some(k) => Some(k)
      case None => if units[order[|order| - 1]].Threw? then Some(|order| - 1) else None
  }

  /** When no unit rejects in settlement order, every unit of the batch returned. */
  lemma NoRejectionMeansAllReturned(units: seq<Outcome>, order: seq<nat>)
    requires SettlementOrder(order, |units|)
    requires FirstRejection(units, order).None?
    ensures forall i :: 0 <= i < |units| ==> units[i].Returned?
  {
    forall i | 0 <= i < |units|
      ensures units[i].Returned?
    {
      assert i in order;
      var k :| 0 <= k < |order| && order[k] == i;
    }
  }

  /** The best-effort outcome of a batch, stated per unit: a unit that returned
      contributes its value and duration and no error; a unit that threw
      contributes `undefined` result and duration, and its fault as error when
      the thrown value is truthy. */
  predicate BestEffort(units: seq<Outcome>, clocks: seq<Clock>, a: Aggregated)
    requires |clocks| == |units|
  {
    && |a.results| == |units| && |a.durations| == |units| && |a.errors| == |units|
    && forall i :: 0 <= i < |units| ==>
      match units[i]
      case Returned(v) => a.results[i] == v && a.durations[i] == Some(Elapsed(clocks[i])) && a.errors[i].None?
      case Threw(f) =>
        && a.results[i] == Undefined && a.durations[i].None?
        && a.errors[i] == (if Truthy(f.thrown) then Some(f) else None)
  }

  /** The metrics a batch tracks while the first `k` units of the settlement
      order settle: one per settled unit, appended as each settles. */
  function TrackedFor(request: MetricRequest, units: seq<Outcome>, clocks: seq<Clock>, order: seq<nat>, k: nat)
    : (added: seq<Metric>)
    requires |clocks| == |units| && k <= |order|
    requires forall j :: 0 <= j < |order| ==> order[j] < |units|
    ensures |added| == k
  {
    if k == 0 then []
    else TrackedFor(request, units, clocks, order, k - 1) + [UnitMetric(request, units[order[k - 1]], clocks[order[k - 1]])]
  }

  /** The `j`-th metric a batch tracks is the one of the `j`-th unit to settle. */
  lemma {:induction false} TrackedForAt(request: MetricRequest, units: seq<Outcome>, clocks: seq<Clock>, order: seq<nat>, k: nat)
    requires |clocks| == |units| && k <= |order|
    requires forall j :: 0 <= j < |order| ==> order[j] < |units|
    ensures forall j :: 0 <= j < k ==>
      TrackedFor(request, units, clocks, order, k)[j] == UnitMetric(request, units[order[j]], clocks[order[j]])
  {
    if k > 0 {
      TrackedForAt(request, units, clocks, order, k - 1);
    }
  }

  /** The batch log: exactly the metrics of the units in settlement order. */
  predicate TrackedInOrder(added: seq<Metric>, units: seq<Outcome>, clocks: seq<Clock>,
                           order: seq<nat>, request: MetricRequest)
    requires |clocks| == |units| && SettlementOrder(order, |units|)
  {
    added == TrackedFor(request, units, clocks, order, |order|)
  }

  /** One iteration of the launch loop: unit `i` is wrapped by the single-unit
      measurement, which tracks its metric and settles its promise. */
  method LaunchOne(s: Service, units: seq<Outcome>, clocks: seq<Clock>, i: nat, request: MetricRequest)
    returns (s': Service, tracked: Metric, settled: Result<Timed, Fault>)
    requires s.client.Some? && |clocks| == |units| && i < |units|
    ensures Appended(s, s', [tracked])
    ensures tracked == UnitMetric(request, units[i], clocks[i])
    ensures settled == Settle(units[i], clocks[i])
  {
    var measured := Measure(s, units[i], clocks[i], request);
    s' := measured.state;
    tracked := Log(s')[|Log(s)|];
    settled := measured.settled;
  }

  /** Records how unit `i` settled in the by-index table of settled promises. */
  function Settled(pending: seq<Option<Result<Timed, Fault>>>, i: nat, settled: Result<Timed, Fault>,
                   units: seq<Outcome>, clocks: seq<Clock>): (p: seq<Option<Result<Timed, Fault>>>)
    requires |clocks| == |units| && |pending| == |units| && i < |units|
    requires settled == Settle(units[i], clocks[i])
    requires forall j :: 0 <= j < |units| && pending[j].Some? ==> pending[j].value == Settle(units[j], clocks[j])
    ensures |p| == |pending| && p[i].Some?
    ensures forall j :: 0 <= j < |units| && pending[j].Some? ==> p[j].Some?
    ensures forall j :: 0 <= j < |units| && p[j].Some? ==> p[j].value == Settle(units[j], clocks[j])
  {
    pending[i := Some(settled)]
  }

  /** Once every unit of the settlement order has settled, the table is full. */
  lemma EverySettled<T>(pending: seq<Option<T>>, order: seq<nat>)
    requires SettlementOrder(order, |pending|)
    requires forall j :: 0 <= j < |order| ==> pending[order[j]].Some?
    ensures forall i :: 0 <= i < |pending| ==> pending[i].Some?
  {
    forall i | 0 <= i < |pending|
      ensures pending[i].Some?
    {
      assert i in order;
      var j :| 0 <= j < |order| && order[j] == i;
    }
  }

  /** Each unit is measured as a single unit, in settlement order, against the
      one held client. Returns the metrics the batch tracked, oldest first, and
      how each unit's measured promise settled, by unit index. */
  method SettleInOrder(s: Service, units: seq<Outcome>, clocks: seq<Clock>, order: seq<nat>,
                       request: MetricRequest)
    returns (s': Service, added: seq<Metric>, settled: seq<Result<Timed, Fault>>)
    requires s.client.Some?
    requires |clocks| == |units| && SettlementOrder(order, |units|)
    ensures Appended(s, s', added)
    ensures TrackedInOrder(added, units, clocks, order, request)
    ensures |settled| == |units|
    ensures forall i :: 0 <= i < |units| ==> settled[i] == Settle(units[i], clocks[i])
  {
    var n := |units|;
    s' := s;
    added := [];
    var pending: seq<Option<Result<Timed, Fault>>> := seq(n, _ => None);
    for k := 0 to n
      invariant Appended(s, s', added)
      invariant added == TrackedFor(request, units, clocks, order, k)
      invariant |pending| == n
      invariant forall j :: 0 <= j < k ==> pending[order[j]].Some?
      invariant forall i :: 0 <= i < n && pending[i].Some? ==> pending[i].value == Settle(units[i], clocks[i])
    {
      var i := order[k];
      var m, outcome;
      s', m, outcome := LaunchOne(s', units, clocks, i, request);
      added := added + [m];
      pending := Settled(pending, i, outcome, units, clocks);
    }
    EverySettled(pending, order);
    settled := seq(n, i requires 0 <= i < n && pending[i].Some? => pending[i].value);
  }

  /** `#measureAllAsync`: settle every unit, then join. With `failFast`, the first
      unit to reject (in settlement order) aborts the join with its fault; the
      returned state is the one after every unit has settled, since nothing
      cancels the remaining units. */
  method MeasureAll(s: Service, units: seq<Outcome>, clocks: seq<Clock>, order: seq<nat>,
                    request: MetricRequest, failFast: bool)
    returns (s': Service, r: Result<Aggregated, Raise>)
    requires s.client.Some?
    requires |clocks| == |units| && SettlementOrder(order, |units|)
    ensures s'.client.Some? && s'.client.value.origin == s.client.value.origin
    ensures s'.client.value.flushed == s.client.value.flushed
    ensures |Log(s')| == |Log(s)| + |units| && Log(s')[..|Log(s)|] == Log(s)
    ensures TrackedInOrder(Log(s')[|Log(s)|..], units, clocks, order, request)
    ensures !failFast ==> r.Success? && BestEffort(units, clocks, r.value)
    ensures failFast && FirstRejection(units, order).Some? ==>
      r == Failure(Raised(units[order[FirstRejection(units, order).value]].fault))
    ensures failFast && FirstRejection(units, order).None? ==>
      r.Success? && BestEffort(units, clocks, r.value)
  {
    var added, settled;
    s', added, settled := SettleInOrder(s, units, clocks, order, request);
    var n := |units|;
    // Promise.all rejects as soon as the first measured promise rejects
    var rejectedAt := FirstRejection(units, order);
    var entries: seq<Entry>;
    if failFast {
      if rejectedAt.Some? {
        r := Failure(Raised(units[order[rejectedAt.value]].fault));
        return;
      }
      NoRejectionMeansAllReturned(units, order);
      entries := seq(n, i requires 0 <= i < n && settled[i].Success? => Raw(settled[i].value));
    } else {
      entries := seq(n, i requires 0 <= i < n =>
        match settled[i]
        case Success(t) => Fulfilled(t)
        case Failure(f) => Rejected(f));
    }
    var a := Aggregate(entries);
    r := Success(a);
  }

  /** `executeAllAsync`: resolve once, then measure the whole batch best effort.
      It raises only when no client can be resolved, and then runs no unit. */
  method ExecuteAll(s: Service, config: Option<Config>, env: Option<string>,
                    units: seq<Outcome>, clocks: seq<Clock>, order: seq<nat>, request: MetricRequest)
    returns (s': Service, r: Result<Aggregated, Raise>)
    requires |clocks| == |units| && SettlementOrder(order, |units|)
    ensures Resolve(s, config, env).Failure? ==>
      s' == s && r == Failure(ConfigurationError(NoConnectionStringMessage))
    ensures Resolve(s, config, env).Success? ==>
      && s'.client.Some?
      && |Log(s')| == |Log(s)| + |units| && Log(s')[..|Log(s)|] == Log(s)
      && TrackedInOrder(Log(s')[|Log(s)|..], units, clocks, order, request)
      && r.Success? && BestEffort(units, clocks, r.value)
    ensures s.client.Some? ==>
      s'.client.Some? && s'.client.value.origin == s.client.value.origin
      && s'.client.value.flushed == s.client.value.flushed
    ensures s.client.None? && Resolve(s, config, env).Success? ==>
      s'.client.Some? && s'.client.value.origin == Created(Credential(config, env).value)
      && s'.client.value.flushed == 0
  {
    var resolved := Resolve(s, config, env);
    if resolved.Failure? {
      return s, Failure(resolved.error);
    }
    s', r := MeasureAll(resolved.value, units, clocks, order, request, false);
  }

  /** `executeAllFailFastAsync`: resolve once, then measure the batch joined with
      `Promise.all`. If any unit rejects, the fault of the first one to settle
      rejected is raised; otherwise results and durations are returned. */
  method ExecuteAllFailFast(s: Service, config: Option<Config>, env: Option<string>,
                            units: seq<Outcome>, clocks: seq<Clock>, order: seq<nat>, request: MetricRequest)
    returns (s': Service, r: Result<Timings, Raise>)
    requires |clocks| == |units| && SettlementOrder(order, |units|)
    ensures Resolve(s, config, env).Failure? ==>
      s' == s && r == Failure(ConfigurationError(NoConnectionStringMessage))
    ensures Resolve(s, config, env).Success? ==>
      && s'.client.Some?
      && |Log(s')| == |Log(s)| + |units| && Log(s')[..|Log(s)|] == Log(s)
      && TrackedInOrder(Log(s')[|Log(s)|..], units, clocks, order, request)
    ensures Resolve(s, config, env).Success? && FirstRejection(units, order).Some? ==>
      r == Failure(Raised(units[order[FirstRejection(units, order).value]].fault))
    ensures Resolve(s, config, env).Success? && FirstRejection(units, order).None? ==>
      && r.Success?
      && |r.value.results| == |units| && |r.value.durations| == |units|
      && forall i :: 0 <= i < |units| ==>
        units[i].Returned? && r.value.results[i] == units[i].value && r.value.durations[i] == Some(Elapsed(clocks[i]))
    ensures s.client.Some? ==>
      s'.client.Some? && s'.client.value.origin == s.client.value.origin
      && s'.client.value.flushed == s.client.value.flushed
    ensures s.client.None? && Resolve(s, config, env).Success? ==>
      s'.client.Some? && s'.client.value.origin == Created(Credential(config, env).value)
      && s'.client.value.flushed == 0
  {
    var resolved := Resolve(s, config, env);
    if resolved.Failure? {
      return s, Failure(resolved.error);
    }
    var all;
    s', all := MeasureAll(resolved.value, units, clocks, order, request, true);
    if FirstRejection(units, order).None? {
      NoRejectionMeansAllReturned(units, order);
    }
    match all
    case Success(a) =>
      r := Success(Timings(a.results, a.durations));
    case Failure(e) =>
      r := Failure(e);
  }

  /** In a best-effort outcome a duration is defined exactly for the units that
      returned, and each such duration is the value of the metric tracked for
      that unit; every tracked metric carries the batch's metric name. */
  lemma BatchDurationsAreTrackedValues(units: seq<Outcome>, clocks: seq<Clock>, order: seq<nat>,
                                       request: MetricRequest, added: seq<Metric>, a: Aggregated)
    requires |clocks| == |units| && SettlementOrder(order, |units|)
    requires TrackedInOrder(added, units, clocks, order, request)
    requires BestEffort(units, clocks, a)
    ensures forall k :: 0 <= k < |added| ==> added[k].name == request.name
    ensures forall i :: 0 <= i < |units| ==> (a.durations[i].Some? <==> units[i].Returned?)
    ensures forall i :: 0 <= i < |units| && a.durations[i].Some? ==>
      exists k :: 0 <= k < |added| && order[k] == i && added[k].value == a.durations[i].value
  {
    TrackedForAt(request, units, clocks, order, |order|);
    forall i | 0 <= i < |units| && a.durations[i].Some?
      ensures exists k :: 0 <= k < |added| && order[k] == i && added[k].value == a.durations[i].value
    {
      assert i in order;
      var k :| 0 <= k < |order| && order[k] == i;
      assert added[k].value == Elapsed(clocks[i]);
    }
  }

  /** When a fail-fast batch aborts, the metric of the rejecting unit has already
      been tracked (flagged as an error when its thrown value is truthy), and every
      unit that settled before it returned and tracked a metric without error. */
  lemma AbortFollowsItsMetric(units: seq<Outcome>, clocks: seq<Clock>, order: seq<nat>,
                              request: MetricRequest, added: seq<Metric>)
    requires |clocks| == |units| && SettlementOrder(order, |units|)
    requires TrackedInOrder(added, units, clocks, order, request)
    requires FirstRejection(units, order).Some?
    ensures var k := FirstRejection(units, order).value;
      && k < |added|
      && added[k].value == Elapsed(clocks[order[k]])
      && (Truthy(units[order[k]].fault.thrown) ==>
            DidErrorKey in added[k].properties && added[k].properties[DidErrorKey] == Bool(true))
      && forall j :: 0 <= j < k ==>
        added[j] == CreateMetric(request.name, Elapsed(clocks[order[j]]), request.properties, None)
  {
    TrackedForAt(request, units, clocks, order, |order|);
  }

  /** The batch `[fail, succeed, fail]` under best effort, where both failures
      throw the same non-empty string: results `[undefined, v, undefined]`, errors
      `[e, undefined, e]`, and a duration only for the unit that succeeded. */
  lemma MixedBatchScenario(msg: string, v: Value, clocks: seq<Clock>, a: Aggregated)
    requires |msg| > 0 && |clocks| == 3
    requires BestEffort([Threw(StringThrow(msg)), Returned(v), Threw(StringThrow(msg))], clocks, a)
    ensures a.results == [Undefined, v, Undefined]
    ensures a.errors == [Some(StringThrow(msg)), None, Some(StringThrow(msg))]
    ensures a.durations == [None, Some(Elapsed(clocks[1])), None]
  {
    var units := [Threw(StringThrow(msg)), Returned(v), Threw(StringThrow(msg))];
    assert units[0].Threw? && units[1].Returned? && units[2].Threw?;
  }
}
