# MetricsService, modelled in Dafny

This project models the measure-and-report engine of `MetricsService` (`src/metrics.js`). The service wraps a unit of work and times it. It tracks exactly one metric per unit on every exit path: `{name, value: seconds, properties}` with `didError` and, on failure, `errorMessage`. Then it returns `{result, duration}` or rethrows the unit's error. Batches of asynchronous units are joined in one of two ways: best effort (`Promise.allSettled`), which gives index-aligned `results`, `durations` and `errors`, or fail fast (`Promise.all`). Before any measurement, the service lazily resolves its telemetry client from the configured connection string or the environment's.

How the source's moving parts are represented:

- A unit of work is the outcome it settles to: `Returned(value)` or `Threw(fault)`. For `executeAsync` (`#measureAsync`, src/metrics.js:78) this is the awaited outcome: a resolved value or a rejection reason. For `execute` (`#measure`, src/metrics.js:57) it is the synchronous return or throw, with nothing awaited. A unit that returns a promise to `execute` is therefore `Returned(Ref(_))`: it is tracked with `didError: false` and the promise itself is returned, even if it later rejects. With that reading, both pairs share one model.
- A thrown value or rejection reason is a `Fault`. It holds the three things the service observes: the value itself (for truthiness), its `message` property, and its `toString()`.
- The clock is a pair of `performance.now()` readings in milliseconds, as reals.
- The telemetry client is an append-only log of tracked metrics plus a flush watermark. The service state is the optionally held client.
- `process.env.APPLICATIONINSIGHTS_CONNECTION_STRING` is passed in as a parameter.
- A batch is a sequence of outcomes plus one clock per unit. It also takes a settlement order: a permutation of the unit indices, giving the order in which the units' promises settle. Metrics are tracked in that order. `Promise.all` rejects with the fault of the first unit, in that order, that rejects.

Modules: `Wrappers`, `Js` (values, truthiness, faults), `Timer`, `MetricBuilder` (`#createMetric`), `Telemetry` (client state, `#trackMetric`, `flushClient`), `ClientResolver` (`#configureTelemetryClient`), `SingleUnit` (`#measure`, `#measureAsync`, `execute`, `executeAsync`), `Batch` (`#measureAllAsync`, `executeAllAsync`, `executeAllFailFastAsync`).

Behaviour of the code that the model keeps as written:

- In a best-effort batch, a rejected unit's `durations[i]` and `results[i]` are `undefined`; only fulfilled units get a duration (src/metrics.js:118-124, checked by the Jest test at src/__tests__/metrics.test.js:232).
- Transport options are never applied to the client. src/metrics.js:169 copies them into a fresh object that is then discarded. The Jest test at src/__tests__/metrics.test.js:292 expects `samplingPercentage` to reach the client; the model does not promise that, because the code does not do it.
- A unit whose thrown value is falsy (`throw undefined`, `Promise.reject(0)`, `throw ""`) is still rethrown. But its metric has the no-error shape (`didError: false`, no `errorMessage`), and in a best-effort batch its `errors[i]` is `undefined`. This is what `if (error)` at src/metrics.js:136 and the truthiness test at src/metrics.js:112 do.

## Model

| member | source | states |
|---|---|---|
| Js.StringThrowMessage | src/metrics.js:138 | a thrown non-empty string has no message, so it is reported by its own text |
| Js.ErrorObjectMessage | src/metrics.js:138 | an `Error` object is reported by its message, or by "Error" when the message is empty |
| Timer.Elapsed | src/metrics.js:47 | elapsed seconds times 1000 is the difference of the millisecond readings; non-negative for a monotone clock, positive when time passed |
| MetricBuilder.CreateMetric | src/metrics.js:130-142 | name and value copied; every caller property kept except the injected keys; `didError` defaults to false, and the caller's `didError` survives a non-error; a truthy error forces `didError: true` and adds `errorMessage` (message, else string form); key set is exactly caller keys plus the injected ones |
| MetricBuilder.FalsyErrorIsNoError | src/metrics.js:136-139 | a falsy thrown value builds the same metric as no error at all |
| MetricBuilder.NoErrorShape | src/__tests__/metrics.test.js:33-41 | with no caller properties a success metric is exactly `{didError: false}` |
| MetricBuilder.StringErrorShape | src/__tests__/metrics.test.js:43-49 | with no caller properties a thrown string gives exactly `{didError: true, errorMessage: <string>}` |
| Telemetry.Track | src/metrics.js:42-45 | exactly one metric, the builder's, is appended to the held client's log; origin and flush watermark unchanged |
| Telemetry.Flush | src/metrics.js:40 | fails exactly when no client is held; otherwise the log is unchanged and fully flushed |
| Telemetry.FlushIdempotent | src/metrics.js:40 | a second flush changes nothing, and a metric tracked after a flush is the only unflushed one |
| ClientResolver.Credential | src/metrics.js:149-158 | a credential is found iff the config or the environment has a non-empty one; the config's wins; a found credential is non-empty |
| ClientResolver.Resolve | src/metrics.js:144-170 | a held client is returned untouched; otherwise it succeeds iff a credential exists, holding a fresh client built from it with an empty log, and otherwise fails with "No connection string found to create a new telemetry client." |
| ClientResolver.ResolveIdempotent | src/metrics.js:144-147 | resolving after a successful resolution changes nothing, whatever config and environment the second call sees |
| ClientResolver.ConfigWinsOverEnvironment | src/metrics.js:150-154 | with both credentials present the client is built from the configured one |
| SingleUnit.Measure | src/metrics.js:49-89 | on both exit paths exactly one metric is appended, named after the request and valued at the elapsed time, with `didError: true` for a truthy fault and no `errorMessage` unless the unit threw; a return yields the unit's value and the tracked duration, a throw settles with the identical fault, whatever the state of the log |
| SingleUnit.Execute | src/metrics.js:8-22 | failed resolution leaves the state unchanged and raises the configuration error; otherwise exactly one metric is added, the unit's value is returned with the tracked duration or its fault is rethrown; a held client is never replaced |
| SingleUnit.UnitNotRunWithoutCredential | src/__tests__/metrics.test.js:296-308 | without any credential the call's outcome does not depend on the unit or the clock, and no client is held afterwards |
| SingleUnit.ExecuteReturnScenario | src/__tests__/metrics.test.js:85-100 | a unit returning "A value" under an injected client keeps that client, returns the value with a positive duration, and tracks exactly `{name: "testMetric", value: duration, properties: {didError: false}}` |
| SingleUnit.ExecuteThrowScenario | src/__tests__/metrics.test.js:102-119 | a unit throwing a string under an injected client rethrows that string and tracks exactly one metric with `didError: true` and the string as `errorMessage` |
| Batch.Aggregate | src/metrics.js:105-127 | the three arrays have the joined array's length; slot i holds result and duration of a fulfilled or bare entry with no error, and `undefined` result and duration for a rejected one, whose error is its reason only if that reason is truthy |
| Batch.FirstRejection | src/metrics.js:99-100 | the position found is a rejecting unit and all units settled before it returned; no position means every unit returned |
| Batch.NoRejectionMeansAllReturned | src/metrics.js:100 | if no unit rejects in settlement order then every unit of the batch returned |
| Batch.SettleInOrder | src/metrics.js:92-96 | every unit is measured once, as a single unit, against the one held client, which keeps its origin and flush watermark; exactly the batch's metrics are appended, in settlement order; each unit's settled outcome, taken from its measurement, is its value with its elapsed time or its fault |
| Batch.LaunchOne | src/metrics.js:94-96 | wrapping one unit in the single-unit measurement appends exactly that unit's metric to the held client and settles as the unit did, with its elapsed time |
| Batch.TrackedForAt | src/metrics.js:94-96 | the j-th metric a batch tracks is the one built for the j-th unit to settle, from that unit's outcome and clock |
| Batch.MeasureAll | src/metrics.js:91-128 | N metrics appended in settlement order; best effort never raises and gives per-unit aligned results, durations and errors; fail fast raises the fault of the first unit to reject, otherwise gives every unit's value and duration |
| Batch.ExecuteAll | src/metrics.js:24-30 | resolution failure changes nothing and raises; a held client is kept, otherwise the client is created from the chosen credential; one metric per unit and the best-effort arrays |
| Batch.ExecuteAllFailFast | src/metrics.js:32-38 | resolution failure changes nothing and raises; a held client is kept, otherwise the client is created from the chosen credential; one metric per unit, and either the first rejecting unit's fault or every unit's value and duration in index order |
| Batch.BatchDurationsAreTrackedValues | src/metrics.js:118-124 | a best-effort duration is defined exactly for returning units and equals the value of that unit's tracked metric; every metric carries the batch's name |
| Batch.AbortFollowsItsMetric | src/__tests__/metrics.test.js:239-268 | when fail fast aborts, the rejecting unit's metric (flagged as error) is already tracked and every earlier-settled unit tracked a success metric |
| Batch.MixedBatchScenario | src/__tests__/metrics.test.js:204-236 | `[fail, succeed, fail]` gives results `[undefined, v, undefined]`, errors `[e, undefined, e]` and a duration only for the middle unit |

## Left out

- The `applicationinsights` client (src/metrics.js:1, 164): its construction, transport, sampling and `flush` internals are external. A constructed client is represented only by the connection string it was built from.
- The constructor (src/metrics.js:4-6) is just the initial state: `Service(None)`, or `Service(Some(Client(Injected(id), …)))` for an injected client.
- Transport options (src/metrics.js:160-169) are carried in `Config` but never applied, because the code discards them.
- Floating-point arithmetic of `performance.now()` is modelled with reals. NaN truthiness is not modelled.
- ClientResolver.Credential: a non-string `connectionString` is never chosen. In JavaScript, an array or object with a positive `length` property would pass the check.
- A caller `properties` value that is not a plain object (spreading a string, say) is not modelled. An absent one is the empty map.
- Promise concurrency is reduced to a settlement order. For fail fast, the model returns the state after every unit has settled, since nothing cancels the remaining units. It does not model which late metrics were already tracked at the instant the caller observes the rejection, beyond those of units that settled up to the rejecting one.
- Awaiting inside `execute`: the synchronous form never awaits a returned promise (src/metrics.js:57). A promise handed to `execute` is modelled as an ordinary returned value, and its later settlement is not modelled.
- SingleUnit.Measure: requires a held client. The source only calls it after resolution, and without a client `trackMetric` would fail.
- Timer.Elapsed: a duration is positive only when the clock advanced. A zero-cost unit may report zero.
