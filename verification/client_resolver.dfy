/**
 Lazy resolution of the telemetry client: keep a held client, otherwise build
 one from the configured connection string or the environment's.
 */
module ClientResolver {
  import opened Wrappers
  import opened Js
  import opened Telemetry

  const NoConnectionStringMessage: string := "No connection string found to create a new telemetry client."

  /** The caller's client configuration: `connectionString` (Undefined when the
      key is absent) and the remaining transport options. */
  datatype Config = Config(connectionString: Value, transportOptions: map<string, Value>)

  /** A connection string the resolver accepts: a string with positive length. */
  predicate Usable(v: Value) {
    v.Str? && |v.s| > 0
  }

  /** The configuration is present and carries a usable connection string. */
  predicate ConfigHasCredential(config: Option<Config>) {
    config.Some? && Usable(config.value.connectionString)
  }

  /** The environment's connection string is set and non-empty. */
  predicate EnvHasCredential(env: Option<string>) {
    env.Some? && |env.value| > 0
  }

  /** The connection string the resolver would construct a client with. */
  function Credential(config: Option<Config>, env: Option<string>): (c: Option<string>)
    ensures c.Some? <==> ConfigHasCredential(config) || EnvHasCredential(env)
    ensures c.Some? ==> |c.value| > 0
    ensures ConfigHasCredential(config) ==> c == Some(config.value.connectionString.s)
    ensures !ConfigHasCredential(config) ==> c == env || c.None?
  {
    if config.Some? && Truthy(config.value.connectionString) && config.value.connectionString.Str?
      && |config.value.connectionString.s| > 0
    then Some(config.value.connectionString.s)
    else if env.Some? && Truthy(Str(env.value)) && |env.value| > 0 then env
    else None
  }

  /** Ensures a client is held. A held client is kept untouched; otherwise a
      fresh client with an empty log is constructed from the credential, or the
      call fails and no client is held. Transport options are read but never
      applied to the client. */
  function Resolve(s: Service, config: Option<Config>, env: Option<string>): (r: Result<Service, Raise>)
    ensures s.client.Some? ==> r == Success(s)
    ensures s.client.None? ==> (r.Success? <==> Credential(config, env).Some?)
    ensures r.Failure? ==> r.error == ConfigurationError(NoConnectionStringMessage)
    ensures r.Success? ==> r.value.client.Some? && Log(r.value) == Log(s)
    ensures s.client.None? && r.Success? ==>
      r.value.client.value == Client(Created(Credential(config, env).value), [], 0)
  {
    if s.client.Some? then Success(s)
    else
      var connectionString := Credential(config, env);
      if connectionString.None? then Failure(ConfigurationError(NoConnectionStringMessage))
      else Success(Service(Some(Client(Created(connectionString.value), [], 0))))
  }

  /** Resolving again after a successful resolution changes nothing, whatever
      configuration and environment the second call sees. */
  lemma ResolveIdempotent(s: Service, config: Option<Config>, env: Option<string>,
                          config': Option<Config>, env': Option<string>)
    requires Resolve(s, config, env).Success?
    ensures Resolve(Resolve(s, config, env).value, config', env') == Resolve(s, config, env)
  {
  }

  /** A configured connection string takes precedence over the environment's. */
  lemma ConfigWinsOverEnvironment(config: Option<Config>, env: Option<string>)
    requires ConfigHasCredential(config) && EnvHasCredential(env)
    ensures Resolve(Service(None), config, env).Success?
    ensures Resolve(Service(None), config, env).value.client.value.origin
         == Created(config.value.connectionString.s)
  {
  }
}
