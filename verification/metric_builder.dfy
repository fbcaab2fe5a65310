/** The metric record and the pure builder that injects the error state. */
module MetricBuilder {
  import opened Wrappers
  import opened Js

  const DidErrorKey: string := "didError"
  const ErrorMessageKey: string := "errorMessage"

  /** A metric as handed to the telemetry client: `value` is elapsed seconds. */
  datatype Metric = Metric(name: string, value: real, properties: map<string, Value>)

  /** The caller's template: a name and the properties to attach (an absent
      `properties` object spreads nothing and is the empty map). */
  datatype MetricRequest = MetricRequest(name: string, properties: map<string, Value>)

  /** The builder's `if (error)`: there was a thrown value and it is truthy. */
  predicate Errored(error: Option<Fault>) {
    error.Some? && Truthy(error.value.thrown)
  }

  /** The properties every metric starts from, before caller properties are spread over them. */
  function Defaults(): map<string, Value> {
    map[DidErrorKey := Bool(false)]
  }

  /** Builds the metric for one measurement. Caller properties are spread over
      `{didError: false}`; a truthy error then overrides `didError` and sets
      `errorMessage`. */
  function CreateMetric(name: string, value: real, properties: map<string, Value>, error: Option<Fault>): (m: Metric)
    ensures m.name == name && m.value == value
    ensures forall k :: k in properties && k != DidErrorKey && !(Errored(error) && k == ErrorMessageKey) ==>
      k in m.properties && m.properties[k] == properties[k]
    ensures !Errored(error) ==> m.properties.Keys == properties.Keys + {DidErrorKey}
    ensures !Errored(error) && DidErrorKey in properties ==> m.properties[DidErrorKey] == properties[DidErrorKey]
    ensures !Errored(error) && DidErrorKey !in properties ==> m.properties[DidErrorKey] == Bool(false)
    ensures Errored(error) ==> m.properties.Keys == properties.Keys + {DidErrorKey, ErrorMessageKey}
    ensures Errored(error) ==> m.properties[DidErrorKey] == Bool(true)
    ensures Errored(error) ==> m.properties[ErrorMessageKey] == ErrorMessage(error.value)
  {
    var spread := Defaults() + properties;
    var props := if Errored(error) then spread[DidErrorKey := Bool(true)][ErrorMessageKey := ErrorMessage(error.value)] else spread;
    Metric(name, value, props)
  }

  /** A falsy thrown value produces exactly the metric of a run that did not throw. */
  lemma FalsyErrorIsNoError(name: string, value: real, properties: map<string, Value>, error: Option<Fault>)
    requires !Errored(error)
    ensures CreateMetric(name, value, properties, error) == CreateMetric(name, value, properties, None)
  {
  }

  /** Without caller properties, a successful run yields exactly `{didError: false}`. */
  lemma NoErrorShape(name: string, value: real)
    ensures CreateMetric(name, value, map[], None) == Metric(name, value, map[DidErrorKey := Bool(false)])
  {
  }

  /** Without caller properties, a run that threw the non-empty string `s` yields
      exactly `{didError: true, errorMessage: s}`. */
  lemma StringErrorShape(name: string, value: real, s: string)
    requires |s| > 0
    ensures CreateMetric(name, value, map[], Some(StringThrow(s)))
         == Metric(name, value, map[DidErrorKey := Bool(true), ErrorMessageKey := Str(s)])
  {
  }
}
