// The AWS configuration manager: a secret or parameter is read from the
// cache, else from Secrets Manager / Parameter Store, else from a fallback
// environment variable. Only values the store returned are cached.

module AwsConfig {
  import opened Common

  /** What one `get_secret_value` / `get_parameter` call answers: the value,
      a `ClientError` with its code, or any other exception, which nothing
      here catches. */
  datatype Remote = Value(value: string) | Failure(code: string) | Broken(exc: Exception)

  /** The two stores, by the words their error messages use. */
  datatype Store = Store(service: string, kind: string)

  const SecretsManager: Store := Store("AWS Secrets Manager", "secret")
  const ParameterStore: Store := Store("AWS Parameter Store", "parameter")

  /** The fallback value: the variable is named (a truthy name), set, and
      its value is non-empty. */
  function EnvFallback(env: map<string, string>, fallbackEnvVar: Option<string>): (r: Option<string>)
    ensures r.Some? <==> fallbackEnvVar.Some? && fallbackEnvVar.value != "" && fallbackEnvVar.value in env
                         && env[fallbackEnvVar.value] != ""
    ensures r.Some? ==> r.value == env[fallbackEnvVar.value] && r.value != ""
  {
    if fallbackEnvVar.Some? && fallbackEnvVar.value != "" && fallbackEnvVar.value in env
       && env[fallbackEnvVar.value] != ""
    then Some(env[fallbackEnvVar.value])
    else None
  }

  /** The `ValueError` raised when the store cannot be used and there is no
      fallback; `str(e)` of the `ClientError` is reduced to its code. */
  function NoValue(store: Store, name: string, hasClient: bool, answer: Remote): (e: Exception)
    requires hasClient ==> answer.Failure?
    ensures e.ValueError?
  {
    if !hasClient then ValueError(store.service + " not available and no fallback for " + name)
    else ValueError("Failed to retrieve " + store.kind + " " + name + ": " + answer.code)
  }

  /** One lookup: its result, the cache afterwards, and whether the store
      was called. */
  datatype Lookup = Lookup(result: Result<string>, cache: map<string, string>, contacted: bool)

  /** `get_secret` / `get_parameter` on a cache, with `answer` the reply the
      store would give to this call and `hasClient` whether the client was
      created. */
  function Fetch(store: Store, cache: map<string, string>, name: string, hasClient: bool, answer: Remote,
                 env: map<string, string>, fallbackEnvVar: Option<string>): (r: Lookup)
    // a cached value is returned without calling the store
    ensures name in cache ==> r == Lookup(Ok(cache[name]), cache, false)
    ensures name !in cache ==> r.contacted == hasClient
    // only the value the store returned is cached, and only under its name
    ensures r.cache == cache || (r.contacted && answer.Value? && r.cache == cache[name := answer.value]
                                 && r.result == Ok(answer.value))
    ensures r.contacted && answer.Value? ==> r.cache == cache[name := answer.value] && r.result == Ok(answer.value)
    // the fallback is used exactly when the store could not give a value
    ensures name !in cache && !(hasClient && !answer.Failure?) ==>
              r.cache == cache
              && r.result == (if EnvFallback(env, fallbackEnvVar).Some? then Ok(EnvFallback(env, fallbackEnvVar).value)
                              else Raised(NoValue(store, name, hasClient, answer)))
    // an exception other than a `ClientError` propagates as it is
    ensures name !in cache && hasClient && answer.Broken? ==> r == Lookup(Raised(answer.exc), cache, true)
    // nothing else raises but the `ValueError` of a missing value
    ensures r.result.Raised? && !answer.Broken? ==> r.result.exc.ValueError?
  {
    if name in cache then Lookup(Ok(cache[name]), cache, false)
    else if hasClient && answer.Value? then Lookup(Ok(answer.value), cache[name := answer.value], true)
    else if hasClient && answer.Broken? then Lookup(Raised(answer.exc), cache, true)
    else
      var fallback := EnvFallback(env, fallbackEnvVar);
      Lookup(if fallback.Some? then Ok(fallback.value) else Raised(NoValue(store, name, hasClient, answer)),
             cache, hasClient)
  }

  /** Once a value is cached, every later lookup of that name returns it,
      whatever the store would now answer and whatever the environment says. */
  lemma CachedValueSticks(store: Store, cache: map<string, string>, name: string, hasClient: bool, answer: Remote,
                          env: map<string, string>, fallbackEnvVar: Option<string>,
                          answer2: Remote, env2: map<string, string>, fallbackEnvVar2: Option<string>)
    requires Fetch(store, cache, name, hasClient, answer, env, fallbackEnvVar).contacted
    requires Fetch(store, cache, name, hasClient, answer, env, fallbackEnvVar).result.Ok?
    ensures var first := Fetch(store, cache, name, hasClient, answer, env, fallbackEnvVar);
            (answer.Value? ==>
               Fetch(store, first.cache, name, hasClient, answer2, env2, fallbackEnvVar2)
               == Lookup(first.result, first.cache, false))
            && (!answer.Value? ==> first.cache == cache && Fetch(store, first.cache, name, hasClient, answer2, env2, fallbackEnvVar2)
                                   == Fetch(store, cache, name, hasClient, answer2, env2, fallbackEnvVar2))
  {
    var first := Fetch(store, cache, name, hasClient, answer, env, fallbackEnvVar);
    assert name !in cache;
    if answer.Value? {
      assert first.cache == cache[name := answer.value];
    }
  }

  /** An empty fallback variable is the same as an unset one: only the store
      can then supply a value. */
  lemma EmptyEnvIsUnset(store: Store, cache: map<string, string>, name: string, hasClient: bool, answer: Remote,
                        env: map<string, string>, v: string)
    requires name !in cache && v in env && env[v] == ""
    ensures Fetch(store, cache, name, hasClient, answer, env, Some(v))
            == Fetch(store, cache, name, hasClient, answer, env - {v}, Some(v))
    ensures Fetch(store, cache, name, hasClient, answer, env, Some(v)).result.Ok? ==> hasClient && answer.Value?
  {
  }

  /** Every cache entry is a value the store gave under that name. */
  ghost predicate Mirrors(cache: map<string, string>, given: set<(string, string)>)
  {
    forall n :: n in cache ==> (n, cache[n]) in given
  }

  /** A lookup keeps the cache a mirror of what the store answered. */
  lemma FetchKeepsMirror(store: Store, cache: map<string, string>, name: string, hasClient: bool, answer: Remote,
                         env: map<string, string>, fallbackEnvVar: Option<string>, given: set<(string, string)>)
    requires Mirrors(cache, given)
    ensures var r := Fetch(store, cache, name, hasClient, answer, env, fallbackEnvVar);
            Mirrors(r.cache, if r.contacted && answer.Value? then given + {(name, answer.value)} else given)
  {
  }

  /** `AWSConfigManager`. Creating the session either gives both clients or,
      when it raises `NoCredentialsError`, neither: `hasClients` says which.
      Clients are normally created even without credentials; such a client
      fails only when called, which is the store's `answer`. The process
      environment is `env`. */
  class AwsConfigManager {
    const hasClients: bool
    const env: map<string, string>
    var secretsCache: map<string, string>
    var parametersCache: map<string, string>

    constructor(hasClients: bool, env: map<string, string>)
      ensures this.hasClients == hasClients && this.env == env
      ensures secretsCache == map[] && parametersCache == map[]
    {
      this.hasClients := hasClients;
      this.env := env;
      secretsCache := map[];
      parametersCache := map[];
    }

    /** `get_secret`; `answer` is what Secrets Manager replies to this call. */
    method GetSecret(secretName: string, fallbackEnvVar: Option<string>, answer: Remote) returns (r: Result<string>)
      modifies this
      ensures var l := Fetch(SecretsManager, old(secretsCache), secretName, hasClients, answer, env, fallbackEnvVar);
              r == l.result && secretsCache == l.cache
      ensures parametersCache == old(parametersCache)
    {
      if secretName in secretsCache {
        return Ok(secretsCache[secretName]);
      }
      if !hasClients {
        r := FromFallback(SecretsManager, secretName, fallbackEnvVar, answer);
        return;
      }
      match answer
      case Value(v) =>
        secretsCache := secretsCache[secretName := v];
        r := Ok(v);
      case Broken(e) =>
        r := Raised(e);
      case Failure(_) =>
        r := FromFallback(SecretsManager, secretName, fallbackEnvVar, answer);
    }

    /** `get_parameter`; `answer` is what Parameter Store replies to this call. */
    method GetParameter(parameterName: string, fallbackEnvVar: Option<string>, answer: Remote) returns (r: Result<string>)
      modifies this
      ensures var l := Fetch(ParameterStore, old(parametersCache), parameterName, hasClients, answer, env, fallbackEnvVar);
              r == l.result && parametersCache == l.cache
      ensures secretsCache == old(secretsCache)
    {
      if parameterName in parametersCache {
        return Ok(parametersCache[parameterName]);
      }
      if !hasClients {
        r := FromFallback(ParameterStore, parameterName, fallbackEnvVar, answer);
        return;
      }
      match answer
      case Value(v) =>
        parametersCache := parametersCache[parameterName := v];
        r := Ok(v);
      case Broken(e) =>
        r := Raised(e);
      case Failure(_) =>
        r := FromFallback(ParameterStore, parameterName, fallbackEnvVar, answer);
    }

    /** The fallback branch both lookups share. */
    method FromFallback(store: Store, name: string, fallbackEnvVar: Option<string>, answer: Remote) returns (r: Result<string>)
      requires !hasClients || answer.Failure?
      ensures r == (if EnvFallback(env, fallbackEnvVar).Some? then Ok(EnvFallback(env, fallbackEnvVar).value)
                    else Raised(NoValue(store, name, hasClients, answer)))
    {
      if fallbackEnvVar.Some? && fallbackEnvVar.value != "" {
        var v := fallbackEnvVar.value;
        if v in env && env[v] != "" {
          return Ok(env[v]);
        }
      }
      r := Raised(NoValue(store, name, hasClients, answer));
    }
  }
}
