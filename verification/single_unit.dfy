/**
 Measuring one unit of work: time it, record exactly one metric on every exit
 path, then return `{result, duration}` or rethrow the unit's error. A unit is
 modelled by the outcome it settles to, so the synchronous and asynchronous
 forms share this model.
 */
module SingleUnit {
  import opened Wrappers
  import opened Js
  import opened Timer
  import opened MetricBuilder
  import opened Telemetry
  import opened ClientResolver

  /** How a unit of work settled: it returned (or resolved to) a value, or it
      threw (or rejected with) a fault. */
  datatype Outcome = Returned(value: Value) | Threw(fault: Fault)

  /** The `{result, duration}` a successful measurement returns. */
  datatype Timed = Timed(result: Value, duration: real)

  /** A measurement: the state after the `finally` block and how the measured
      promise settles. */
  datatype Measured = Measured(state: Service, settled: Result<Timed, Fault>)

  /** A public call: the state afterwards and what it returns or raises. */
  datatype Step<T> = Step(state: Service, result: Result<T, Raise>)

  /** The `error` variable of the measurement after the `try`/`catch`. */
  function ErrorOf(unit: Outcome): Option<Fault> {
    match unit
    case Returned(_) => None
    case Threw(f) => Some(f)
  }

  /** How the measured promise of a unit settles (independent of the log and of the client). */
  function Settle(unit: Outcome, clock: Clock): Result<Timed, Fault> {
    match unit
    case Returned(v) => Success(Timed(v, Elapsed(clock)))
    case Threw(f) => Failure(f)
  }

  /** The metric recorded for `unit` measured over `clock`. */
  function UnitMetric(request: MetricRequest, unit: Outcome, clock: Clock): Metric {
    CreateMetric(request.name, Elapsed(clock), request.properties, ErrorOf(unit))
  }

  /** Runs a unit under the timer with a held client. The `finally` block tracks
      one metric whatever the outcome; afterwards the error is rethrown, or the
      result is returned with the duration that was tracked. */
  function Measure(s: Service, unit: Outcome, clock: Clock, request: MetricRequest): (r: Measured)
    requires s.client.Some?
    ensures Appended(s, r.state, [UnitMetric(request, unit, clock)])
    ensures var m := Log(r.state)[|Log(s)|];
      && m.name == request.name
      && m.value == Elapsed(clock)
      && (m.properties[DidErrorKey] == Bool(true) <== unit.Threw? && Truthy(unit.fault.thrown))
      && (ErrorMessageKey in m.properties && ErrorMessageKey !in request.properties ==> unit.Threw?)
    ensures unit.Returned? ==> r.settled == Success(Timed(unit.value, Log(r.state)[|Log(s)|].value))
    ensures unit.Threw? ==> r.settled == Failure(unit.fault)
    ensures r.settled == Settle(unit, clock)
  {
    var error := ErrorOf(unit);
    var result := if unit.Returned? then unit.value else Undefined;
    // finally: time and track on every exit path
    var duration := Elapsed(clock);
    var s' := Track(s, error, duration, request);
    if error.Some? then Measured(s', Failure(error.value))
    else Measured(s', Success(Timed(result, duration)))
  }

  /** `execute` / `executeAsync`: resolve the client, then measure the unit. If
      resolution fails the unit never runs, nothing is tracked and the state is
      unchanged. */
  function Execute(s: Service, config: Option<Config>, env: Option<string>,
                   unit: Outcome, clock: Clock, request: MetricRequest): (r: Step<Timed>)
    ensures Resolve(s, config, env).Failure? ==>
      r.state == s && r.result == Failure(ConfigurationError(NoConnectionStringMessage))
    ensures Resolve(s, config, env).Success? ==>
      r.state.client.Some? && Log(r.state) == Log(s) + [UnitMetric(request, unit, clock)]
    ensures Resolve(s, config, env).Success? && unit.Returned? ==>
      r.result == Success(Timed(unit.value, Elapsed(clock)))
    ensures Resolve(s, config, env).Success? && unit.Threw? ==>
      r.result == Failure(Raised(unit.fault))
    ensures r.result.Success? ==> r.result.value.duration == Log(r.state)[|Log(s)|].value
    ensures s.client.Some? ==> r.state.client.Some? && r.state.client.value.origin == s.client.value.origin
  {
    match Resolve(s, config, env)
    case Failure(e) => Step(s, Failure(e))
    case Success(resolved) =>
      var measured := Measure(resolved, unit, clock, request);
      match measured.settled
      case Success(t) => Step(measured.state, Success(t))
      case Failure(f) => Step(measured.state, Failure(Raised(f)))
  }

  /** With no credential anywhere, what `execute` does is independent of the unit
      and of the clock: the unit is never run. */
  lemma UnitNotRunWithoutCredential(s: Service, config: Option<Config>, env: Option<string>,
                                    u1: Outcome, c1: Clock, u2: Outcome, c2: Clock, request: MetricRequest)
    requires s.client.None? && Credential(config, env).None?
    ensures Execute(s, config, env, u1, c1, request) == Execute(s, config, env, u2, c2, request)
    ensures Execute(s, config, env, u1, c1, request).state.client.None?
  {
  }

  /** A unit returning "A value" under an injected client, with a configuration
      carrying a connection string and `disableAppInsights: true`: the injected
      client is kept, the value is returned with a positive duration, and exactly
      `{name: "testMetric", value: duration, properties: {didError: false}}` is tracked. */
  lemma ExecuteReturnScenario(id: nat, connectionString: Value, env: Option<string>, start: real, now: real)
    requires start < now
    ensures var config := Config(connectionString, map["disableAppInsights" := Bool(true)]);
      var r := Execute(Service(Some(Client(Injected(id), [], 0))), Some(config), env,
                       Returned(Str("A value")), Clock(start, now), MetricRequest("testMetric", map[]));
      && r.result.Success?
      && r.result.value.result == Str("A value")
      && r.result.value.duration > 0.0
      && Log(r.state) == [Metric("testMetric", r.result.value.duration, map[DidErrorKey := Bool(false)])]
      && r.state.client.value.origin == Injected(id)
  {
    NoErrorShape("testMetric", Elapsed(Clock(start, now)));
  }

  /** A unit throwing the string "An error from executed function" under a held
      client: the same string is rethrown, and the one tracked metric carries
      `didError: true` and that string as `errorMessage`. */
  lemma ExecuteThrowScenario(id: nat, start: real, now: real)
    requires start < now
    ensures var msg := "An error from executed function";
      var r := Execute(Service(Some(Client(Injected(id), [], 0))), None, None,
                       Threw(StringThrow(msg)), Clock(start, now), MetricRequest("testMetric", map[]));
      && r.result == Failure(Raised(StringThrow(msg)))
      && |Log(r.state)| == 1
      && Log(r.state)[0].value > 0.0
      && Log(r.state)[0] == Metric("testMetric", Log(r.state)[0].value,
                                   map[DidErrorKey := Bool(true), ErrorMessageKey := Str(msg)])
      && r.state.client.value.origin == Injected(id)
  {
    StringErrorShape("testMetric", Elapsed(Clock(start, now)), "An error from executed function");
  }
}
