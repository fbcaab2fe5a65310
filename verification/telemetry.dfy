/**
 The telemetry client as the service sees it: an append-only log of tracked
 metrics with a flush watermark, held optionally by the service.
 */
module Telemetry {
  import opened Wrappers
  import opened Js
  import opened MetricBuilder

  /** Where the held client came from: injected through the constructor, or
      constructed by the resolver from a connection string. */
  datatype Origin = Injected(id: nat) | Created(connectionString: string)

  /** `tracked` is every metric handed to `trackMetric`, oldest first; the first
      `flushed` of them have been handed to `flush`. */
  datatype Client = Client(origin: Origin, tracked: seq<Metric>, flushed: nat)

  /** The service's only state: the optionally held client. */
  datatype Service = Service(client: Option<Client>)

  /** What a public call can raise. */
  datatype Raise =
    | ConfigurationError(message: string)  // no connection string anywhere
    | Raised(fault: Fault)                 // the unit of work's own error, rethrown
    | MissingClient                        // `flush` read from an absent client

  /** The metrics tracked through the held client (none when there is no client). */
  function Log(s: Service): seq<Metric> {
    if s.client.Some? then s.client.value.tracked else []
  }

  /** `s'` holds the same client as `s`, with only `added` appended to its log. */
  predicate Appended(s: Service, s': Service, added: seq<Metric>) {
    && s.client.Some? && s'.client.Some?
    && s'.client.value.origin == s.client.value.origin
    && s'.client.value.flushed == s.client.value.flushed
    && s'.client.value.tracked == s.client.value.tracked + added
  }

  /** Builds the metric for one measurement and hands it to the held client. */
  function Track(s: Service, error: Option<Fault>, duration: real, request: MetricRequest): (s': Service)
    requires s.client.Some?
    ensures Appended(s, s', [CreateMetric(request.name, duration, request.properties, error)])
    ensures |Log(s')| == |Log(s)| + 1 && Log(s')[..|Log(s)|] == Log(s)
  {
    var c := s.client.value;
    Service(Some(c.(tracked := c.tracked + [CreateMetric(request.name, duration, request.properties, error)])))
  }

  /** Flushes the held client; with no client the property read fails. */
  function Flush(s: Service): (r: Result<Service, Raise>)
    ensures s.client.None? <==> r.Failure?
    ensures r.Failure? ==> r.error == MissingClient
    ensures r.Success? ==> r.value.client.Some? && r.value.client.value.origin == s.client.value.origin
    ensures r.Success? ==> Log(r.value) == Log(s) && r.value.client.value.flushed == |Log(s)|
  {
    match s.client
    case None => Failure(MissingClient)
    case Some(c) => Success(Service(Some(c.(flushed := |c.tracked|))))
  }

  /** Flushing twice in a row is the same as flushing once, and tracking after a
      flush leaves exactly the new metric unflushed. */
  lemma FlushIdempotent(s: Service, error: Option<Fault>, duration: real, request: MetricRequest)
    requires s.client.Some?
    ensures Flush(Flush(s).value) == Flush(s)
    ensures var t := Track(Flush(s).value, error, duration, request);
      |t.client.value.tracked| - t.client.value.flushed == 1
  {
  }
}
