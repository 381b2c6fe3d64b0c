// Application settings: the values pydantic reads from the environment and
// the `.env` file, then `_load_aws_config`, which fills some of them from
// Secrets Manager or Parameter Store in a fixed order and stops at the first
// exception it does not expect.

module Settings {
  import opened Common
  import opened AwsConfig

  /** `AppConstants.ALLOWED_VIDEO_EXTENSIONS` */
  const AllowedVideoExtensions: seq<string> :=
    ["mp4", "avi", "mov", "wmv", "flv", "webm", "mp3", "wav", "aac", "ogg", "flac", "m4a", "wma"]

  /** `AppConstants.ELASTICACHE_MEMCACHED_TTL`, in seconds. */
  const ElasticacheMemcachedTtl: int := 3600

  /** The string settings `_load_aws_config` may set. */
  datatype Field =
    | OpenAiApiKey | OpenAiModel | AwsRegion | S3Bucket | DdbVideosTable | ElasticacheMemcachedEndpoint
    | SqsVideoProcessingQueue | SqsVideoProcessingDlq | CognitoUserPoolId | CognitoAppClientId
    | AppUrl | ApiBaseUrl | QutUsername | AllowedOrigins

  const AllFields: seq<Field> :=
    [OpenAiApiKey, OpenAiModel, AwsRegion, S3Bucket, DdbVideosTable, ElasticacheMemcachedEndpoint,
     SqsVideoProcessingQueue, SqsVideoProcessingDlq, CognitoUserPoolId, CognitoAppClientId,
     AppUrl, ApiBaseUrl, QutUsername, AllowedOrigins]

  /** Every attribute the settings class declares, the fourteen looked-up
      settings among them; nothing else can be read from a settings object. */
  const DeclaredAttributes: set<string> :=
    {"APP_NAME", "APP_VERSION", "DEBUG", "UPLOAD_DIR", "ALLOWED_VIDEO_EXTENSIONS",
     "OPENAI_API_KEY", "OPENAI_MODEL", "LOG_LEVEL", "LOG_FORMAT", "ALLOWED_ORIGINS",
     "AWS_REGION", "S3_BUCKET", "DDB_VIDEOS_TABLE", "ELASTICACHE_MEMCACHED_ENDPOINT",
     "ELASTICACHE_MEMCACHED_TTL", "SQS_VIDEO_PROCESSING_QUEUE", "SQS_VIDEO_PROCESSING_DLQ",
     "COGNITO_USER_POOL_ID", "COGNITO_APP_CLIENT_ID", "APP_URL", "API_BASE_URL",
     "QUT_USERNAME", "MAX_FILE_SIZE"}

  /** The setting's name: its (case-sensitive) environment variable and the
      fallback variable its lookup names. */
  function FieldName(f: Field): string
  {
    match f
    case OpenAiApiKey => "OPENAI_API_KEY"
    case OpenAiModel => "OPENAI_MODEL"
    case AwsRegion => "AWS_REGION"
    case S3Bucket => "S3_BUCKET"
    case DdbVideosTable => "DDB_VIDEOS_TABLE"
    case ElasticacheMemcachedEndpoint => "ELASTICACHE_MEMCACHED_ENDPOINT"
    case SqsVideoProcessingQueue => "SQS_VIDEO_PROCESSING_QUEUE"
    case SqsVideoProcessingDlq => "SQS_VIDEO_PROCESSING_DLQ"
    case CognitoUserPoolId => "COGNITO_USER_POOL_ID"
    case CognitoAppClientId => "COGNITO_APP_CLIENT_ID"
    case AppUrl => "APP_URL"
    case ApiBaseUrl => "API_BASE_URL"
    case QutUsername => "QUT_USERNAME"
    case AllowedOrigins => "ALLOWED_ORIGINS"
  }

  /** The class-level default of each setting. */
  function Default(f: Field): string
  {
    match f
    case OpenAiModel => "gpt-4o-mini"
    case AwsRegion => "ap-southeast-2"
    case AppUrl => "http://localhost:5173"
    case ApiBaseUrl => "http://localhost:8000/api/v1"
    case AllowedOrigins => "http://localhost:3000,http://localhost:5173,http://localhost:8080"
    case _ => ""
  }

  /** The settings that differ from their class default; a setting not in
      the map holds its default. */
  type Config = map<Field, string>

  /** The value of a setting. */
  function At(c: Config, f: Field): string
  {
    if f in c then c[f] else Default(f)
  }

  /** The values before loading: the process environment wins over the
      `.env` file, which wins over the default. */
  function Initial(environ: map<string, string>, dotenv: map<string, string>): (c: Config)
    ensures forall f :: At(c, f) == if FieldName(f) in environ then environ[FieldName(f)]
                                    else if FieldName(f) in dotenv then dotenv[FieldName(f)] else Default(f)
  {
    var c := map f | f in AllFields && (FieldName(f) in environ || FieldName(f) in dotenv) ::
               if FieldName(f) in environ then environ[FieldName(f)] else dotenv[FieldName(f)];
    assert forall f :: At(c, f) == if FieldName(f) in environ then environ[FieldName(f)]
                                   else if FieldName(f) in dotenv then dotenv[FieldName(f)] else Default(f) by {
      forall f ensures f in AllFields {
        AllFieldsListed(f);
      }
    }
    c
  }

  // ---------------------------------------------------------------------------
  // The loading steps

  datatype Source = Secret | Parameter

  /** When a step calls the store and what it does with the answer:
      - `WhenEmpty`: only for an empty setting; the answer replaces it and
        any exception ends loading;
      - `WhenEmptyOrDefault`: the same, also when the setting holds its default;
      - `Guarded`: always; a non-empty answer replaces the setting, and a
        `ValueError` is caught and leaves it;
      - `WhenChanged`: always; a non-empty answer that differs replaces it. */
  datatype Rule = WhenEmpty | WhenEmptyOrDefault | Guarded | WhenChanged

  function RuleOf(f: Field): Rule
  {
    match f
    case OpenAiModel | AwsRegion => WhenEmptyOrDefault
    case CognitoUserPoolId | CognitoAppClientId | AppUrl | ApiBaseUrl => Guarded
    case AllowedOrigins => WhenChanged
    case _ => WhenEmpty
  }

  function SourceOf(f: Field): Source
  {
    if f == OpenAiApiKey || f == QutUsername then Secret else Parameter
  }

  /** The secret or parameter each setting is loaded from. */
  function NameOf(f: Field): string
  {
    match f
    case OpenAiApiKey => "video-transcriber-ai/dev/openai-api-key"
    case OpenAiModel => "/video-transcriber-ai/dev/ai/openai-model"
    case AwsRegion => "/video-transcriber-ai/dev/aws/region"
    case S3Bucket => "/video-transcriber-ai/dev/aws/s3-bucket"
    case DdbVideosTable => "/video-transcriber-ai/dev/aws/ddb-videos-table"
    case ElasticacheMemcachedEndpoint => "/video-transcriber-ai/dev/aws/elasticache-memcached-endpoint"
    case SqsVideoProcessingQueue => "/video-transcriber-ai/dev/aws/sqs-video-processing-queue"
    case SqsVideoProcessingDlq => "/video-transcriber-ai/dev/aws/sqs-video-processing-dlq"
    case CognitoUserPoolId => "/video-transcriber-ai/dev/cognito/user-pool-id"
    case CognitoAppClientId => "/video-transcriber-ai/dev/cognito/app-client-id"
    case AppUrl => "/video-transcriber-ai/dev/app/url"
    case ApiBaseUrl => "/video-transcriber-ai/dev/api/base-url"
    case QutUsername => "video-transcriber-ai/dev/qut-username"
    case AllowedOrigins => "/video-transcriber-ai/dev/cors/allowed-origins"
  }

  /** `_load_aws_config` visits the settings in the order of `AllFields`. */
  lemma StepsInOrder()
    ensures Distinct(AllFields)
  {
  }

  /** Whether a setting's step calls the store, given its current value. */
  predicate Consults(f: Field, current: string)
  {
    match RuleOf(f)
    case WhenEmpty => current == ""
    case WhenEmptyOrDefault => current == "" || current == Default(f)
    case _ => true
  }

  /** The setting after its lookup returned `v`. */
  function Updated(f: Field, current: string, v: string): (r: string)
    ensures r == v || r == current
    ensures v != "" ==> r == v
    ensures v == "" && (RuleOf(f) == Guarded || RuleOf(f) == WhenChanged) ==> r == current
    ensures RuleOf(f) != Guarded && RuleOf(f) != WhenChanged ==> r == v
  {
    match RuleOf(f)
    case Guarded => if v != "" then v else current
    case WhenChanged => if v != "" && v != current then v else current
    case _ => v
  }

  /** The settings, the manager's two caches, and whether an exception has
      left the `try` block. */
  datatype LoadState = LoadState(config: Config, secrets: map<string, string>, parameters: map<string, string>,
                                 abandoned: bool)

  function StoreOf(source: Source): Store
  {
    if source == Secret then SecretsManager else ParameterStore
  }

  /** The lookup a consulting step makes. */
  function StepLookup(f: Field, s: LoadState, hasClients: bool, environ: map<string, string>, answer: Remote): Lookup
  {
    Fetch(StoreOf(SourceOf(f)), if SourceOf(f) == Secret then s.secrets else s.parameters, NameOf(f),
          hasClients, answer, environ, Some(FieldName(f)))
  }

  /** The step for setting `f`; `answer` is the store's reply to its call. */
  function Apply(f: Field, s: LoadState, hasClients: bool, environ: map<string, string>, answer: Remote): (r: LoadState)
    ensures forall g :: g != f ==> At(r.config, g) == At(s.config, g)
    ensures s.abandoned ==> r == s
    ensures r.abandoned && !s.abandoned ==> StepLookup(f, s, hasClients, environ, answer).result.Raised?
  {
    if s.abandoned || !Consults(f, At(s.config, f)) then s
    else
      var l := StepLookup(f, s, hasClients, environ, answer);
      var s' := if SourceOf(f) == Secret then s.(secrets := l.cache) else s.(parameters := l.cache);
      match l.result
      case Raised(e) => if RuleOf(f) == Guarded && e.ValueError? then s' else s'.(abandoned := true)
      case Ok(v) =>
        SetKeepsOthers(s.config, f, Updated(f, At(s.config, f), v));
        s'.(config := s.config[f := Updated(f, At(s.config, f), v)])
  }

  /** Setting one field leaves every other field as it was. */
  lemma SetKeepsOthers(c: Config, f: Field, v: string)
    ensures forall g :: g != f ==> At(c[f := v], g) == At(c, g)
  {
  }

  /** The steps in order, each with the reply `answers` gives for its name. */
  function Run(steps: seq<Field>, s: LoadState, hasClients: bool, environ: map<string, string>,
               answers: string -> Remote): (r: LoadState)
    ensures s.abandoned ==> r == s
  {
    if steps == [] then s
    else Run(steps[1..], Apply(steps[0], s, hasClients, environ, answers(NameOf(steps[0]))), hasClients, environ, answers)
  }

  /** One step of `Run`; a raising step ends it. */
  lemma RunStep(steps: seq<Field>, s: LoadState, hasClients: bool, environ: map<string, string>, answers: string -> Remote)
    requires steps != []
    ensures var next := Apply(steps[0], s, hasClients, environ, answers(NameOf(steps[0])));
            Run(steps, s, hasClients, environ, answers) == (if next.abandoned then next else Run(steps[1..], next, hasClients, environ, answers))
  {
  }

  /** `_load_aws_config` from state `s`: nothing once abandoned, and a
      setting whose value needs no lookup keeps it. */
  function LoadFrom(s: LoadState, hasClients: bool, environ: map<string, string>, answers: string -> Remote): (r: LoadState)
    ensures s.abandoned ==> r == s
    ensures forall f :: !Consults(f, At(s.config, f)) ==> At(r.config, f) == At(s.config, f)
  {
    forall f | !Consults(f, At(s.config, f))
      ensures At(Run(AllFields, s, hasClients, environ, answers).config, f) == At(s.config, f)
    {
      RunKeeps(AllFields, s, hasClients, environ, answers, f);
    }
    Run(AllFields, s, hasClients, environ, answers)
  }

  /** `Settings()`: the initial values, then `_load_aws_config` with a fresh
      manager, whose caches start empty. */
  function Load(environ: map<string, string>, dotenv: map<string, string>, hasClients: bool,
                answers: string -> Remote): (r: LoadState)
    ensures forall f :: !Consults(f, At(Initial(environ, dotenv), f)) ==> At(r.config, f) == At(Initial(environ, dotenv), f)
  {
    LoadFrom(LoadState(Initial(environ, dotenv), map[], map[], false), hasClients, environ, answers)
  }

  // ---------------------------------------------------------------------------
  // What loading guarantees

  /** A setting is only changed by its own step, which leaves it alone when
      it does not consult the store. */
  lemma {:induction false} RunKeeps(steps: seq<Field>, s: LoadState, hasClients: bool, environ: map<string, string>,
                                    answers: string -> Remote, f: Field)
    requires f in steps ==> !Consults(f, At(s.config, f))
    ensures At(Run(steps, s, hasClients, environ, answers).config, f) == At(s.config, f)
    decreases |steps|
  {
    if steps != [] {
      var next := Apply(steps[0], s, hasClients, environ, answers(NameOf(steps[0])));
      assert At(next.config, f) == At(s.config, f);
      assert f in steps[1..] ==> f in steps;
      RunKeeps(steps[1..], next, hasClients, environ, answers, f);
    }
  }

  /** A value given through the environment or `.env` (non-empty, and for the
      model and the region not the default) is never looked up and survives
      loading; the Cognito ids, the URLs and the allowed origins are always
      looked up. */
  lemma GivenSettingsWin(environ: map<string, string>, dotenv: map<string, string>, hasClients: bool,
                         answers: string -> Remote, f: Field)
    requires RuleOf(f) == WhenEmpty || RuleOf(f) == WhenEmptyOrDefault
    requires At(Initial(environ, dotenv), f) != "" && At(Initial(environ, dotenv), f) != Default(f)
    ensures At(Load(environ, dotenv, hasClients, answers).config, f) == At(Initial(environ, dotenv), f)
  {
    RunKeeps(AllFields, LoadState(Initial(environ, dotenv), map[], map[], false), hasClients, environ, answers, f);
  }

  /** Running two lists of steps is running the first, then the second. */
  lemma {:induction false} RunConcat(a: seq<Field>, b: seq<Field>, s: LoadState, hasClients: bool,
                                     environ: map<string, string>, answers: string -> Remote)
    ensures Run(a + b, s, hasClients, environ, answers) == Run(b, Run(a, s, hasClients, environ, answers), hasClients, environ, answers)
    decreases |a|
  {
    if a == [] {
      assert a + b == b;
    } else {
      assert (a + b)[0] == a[0] && (a + b)[1..] == a[1..] + b;
      RunConcat(a[1..], b, Apply(a[0], s, hasClients, environ, answers(NameOf(a[0]))), hasClients, environ, answers);
    }
  }

  /** Once the step at `i` has raised, loading is over: the result is the
      state at that point and every setting whose step was not reached keeps
      the value it had. */
  lemma AbandonedRestKept(steps: seq<Field>, s: LoadState, hasClients: bool, environ: map<string, string>,
                          answers: string -> Remote, i: nat)
    requires i < |steps|
    requires Run(steps[..i + 1], s, hasClients, environ, answers).abandoned
    ensures var r := Run(steps, s, hasClients, environ, answers);
            r == Run(steps[..i + 1], s, hasClients, environ, answers)
            && forall f :: f !in steps[..i + 1] ==> At(r.config, f) == At(s.config, f)
  {
    TakeDrop(steps, i + 1);
    RunConcat(steps[..i + 1], steps[i + 1..], s, hasClients, environ, answers);
    forall f | f !in steps[..i + 1]
      ensures At(Run(steps[..i + 1], s, hasClients, environ, answers).config, f) == At(s.config, f)
    {
      RunKeeps(steps[..i + 1], s, hasClients, environ, answers, f);
    }
  }

  /** When the block for `AllFields[i]` raises, every setting after it keeps
      its initial value. */
  lemma LoadStopsAtRaise(environ: map<string, string>, dotenv: map<string, string>, hasClients: bool,
                         answers: string -> Remote, i: nat)
    requires i < |AllFields|
    requires Run(AllFields[..i + 1], LoadState(Initial(environ, dotenv), map[], map[], false), hasClients, environ, answers).abandoned
    ensures forall j :: i < j < |AllFields| ==>
              At(Load(environ, dotenv, hasClients, answers).config, AllFields[j]) == At(Initial(environ, dotenv), AllFields[j])
  {
    var s := LoadState(Initial(environ, dotenv), map[], map[], false);
    StepsInOrder();
    LaterStepsKept(AllFields, s, hasClients, environ, answers, i);
  }

  /** The same for any duplicate-free list of steps. */
  lemma LaterStepsKept(steps: seq<Field>, s: LoadState, hasClients: bool, environ: map<string, string>,
                       answers: string -> Remote, i: nat)
    requires i < |steps| && Distinct(steps)
    requires Run(steps[..i + 1], s, hasClients, environ, answers).abandoned
    ensures forall j :: i < j < |steps| ==> At(Run(steps, s, hasClients, environ, answers).config, steps[j]) == At(s.config, steps[j])
  {
    AbandonedRestKept(steps, s, hasClients, environ, answers, i);
    forall j | i < j < |steps|
      ensures At(Run(steps, s, hasClients, environ, answers).config, steps[j]) == At(s.config, steps[j])
    {
      LaterNotInPrefix(steps, i + 1, j);
    }
  }

  /** A guarded step never ends loading unless the store raises something
      other than a `ClientError`. */
  lemma GuardedStepContinues(f: Field, s: LoadState, hasClients: bool, environ: map<string, string>, answer: Remote)
    requires RuleOf(f) == Guarded && !answer.Broken?
    ensures Apply(f, s, hasClients, environ, answer).abandoned == s.abandoned
  {
    if !s.abandoned && Consults(f, At(s.config, f)) {
      var l := StepLookup(f, s, hasClients, environ, answer);
      assert l.result.Raised? ==> l.result.exc.ValueError?;
    }
  }

  /** A step that does not consult the store changes nothing. */
  lemma SkippedStep(f: Field, s: LoadState, hasClients: bool, environ: map<string, string>, answer: Remote)
    requires !Consults(f, At(s.config, f))
    ensures Apply(f, s, hasClients, environ, answer) == s
  {
  }

  /** Without clients, a consulting unguarded step with nothing cached and
      no fallback value ends loading and changes nothing else. */
  lemma StrandedStep(f: Field, s: LoadState, environ: map<string, string>, answer: Remote)
    requires !s.abandoned && Consults(f, At(s.config, f)) && RuleOf(f) != Guarded
    requires NameOf(f) !in (if SourceOf(f) == Secret then s.secrets else s.parameters)
    requires EnvFallback(environ, Some(FieldName(f))).None?
    ensures Apply(f, s, false, environ, answer) == s.(abandoned := true)
  {
  }

  /** Without clients (session creation raised `NoCredentialsError`) and
      without an OpenAI key in the process environment or `.env`, the first
      lookup raises and no other setting
      is looked up: every setting keeps its initial value. */
  lemma NoClientsNoKey(environ: map<string, string>, dotenv: map<string, string>, answers: string -> Remote)
    requires At(Initial(environ, dotenv), OpenAiApiKey) == ""
    ensures Load(environ, dotenv, false, answers) == LoadState(Initial(environ, dotenv), map[], map[], true)
  {
    var s := LoadState(Initial(environ, dotenv), map[], map[], false);
    assert EnvFallback(environ, Some(FieldName(OpenAiApiKey))).None?;
    StrandedStep(OpenAiApiKey, s, environ, answers(NameOf(OpenAiApiKey)));
    RunStep(AllFields, s, false, environ, answers);
  }

  /** `OPENAI_MODEL="gpt-4o-mini"` in `.env` alone is enough to stop loading
      without clients: the lookup's fallback reads the process
      environment, which `.env` does not reach, so the second step raises
      and every later setting keeps its initial value. */
  lemma DotenvModelStopsLoading(environ: map<string, string>, dotenv: map<string, string>, answers: string -> Remote)
    requires "OPENAI_API_KEY" in environ && environ["OPENAI_API_KEY"] != ""
    requires "OPENAI_MODEL" !in environ && "OPENAI_MODEL" in dotenv && dotenv["OPENAI_MODEL"] == "gpt-4o-mini"
    ensures Load(environ, dotenv, false, answers) == LoadState(Initial(environ, dotenv), map[], map[], true)
  {
    var s := LoadState(Initial(environ, dotenv), map[], map[], false);
    assert At(s.config, OpenAiApiKey) == environ["OPENAI_API_KEY"];
    SkippedStep(OpenAiApiKey, s, false, environ, answers(NameOf(OpenAiApiKey)));
    assert At(s.config, OpenAiModel) == Default(OpenAiModel);
    StrandedStep(OpenAiModel, s, environ, answers(NameOf(OpenAiModel)));
    assert AllFields[0] == OpenAiApiKey && AllFields[1..][0] == OpenAiModel;
    RunStep(AllFields, s, false, environ, answers);
    RunStep(AllFields[1..], s, false, environ, answers);
  }

  /** Every cached value is the store's answer for its name. */
  ghost predicate CachesAgree(s: LoadState, answers: string -> Remote)
  {
    (forall n :: n in s.secrets ==> answers(n) == Value(s.secrets[n]))
    && (forall n :: n in s.parameters ==> answers(n) == Value(s.parameters[n]))
  }

  /** A consulting step whose name the store answers with a non-empty value
      sets the setting to it and keeps the caches in agreement. */
  lemma ApplyFills(f: Field, s: LoadState, environ: map<string, string>, answers: string -> Remote)
    requires !s.abandoned && CachesAgree(s, answers) && Consults(f, At(s.config, f))
    requires answers(NameOf(f)).Value? && answers(NameOf(f)).value != ""
    ensures var next := Apply(f, s, true, environ, answers(NameOf(f)));
            !next.abandoned && At(next.config, f) == answers(NameOf(f)).value && CachesAgree(next, answers)
  {
    var v := answers(NameOf(f)).value;
    var l := StepLookup(f, s, true, environ, answers(NameOf(f)));
    LookupAgrees(f, s, environ, answers, v);
    ApplyOfOk(f, s, true, environ, answers(NameOf(f)), v);
    AtSet(s.config, f, Updated(f, At(s.config, f), v));
    var s' := if SourceOf(f) == Secret then s.(secrets := l.cache) else s.(parameters := l.cache);
    assert CachesAgree(s', answers);
  }

  /** With caches in agreement and a store value for the name, the lookup
      returns that value and its cache stays in agreement. */
  lemma LookupAgrees(f: Field, s: LoadState, environ: map<string, string>, answers: string -> Remote, v: string)
    requires CachesAgree(s, answers) && answers(NameOf(f)) == Value(v)
    ensures var l := StepLookup(f, s, true, environ, answers(NameOf(f)));
            l.result == Ok(v) && forall k :: k in l.cache ==> answers(k) == Value(l.cache[k])
  {
    var cache := if SourceOf(f) == Secret then s.secrets else s.parameters;
    assert NameOf(f) in cache ==> cache[NameOf(f)] == v;
    var l := StepLookup(f, s, true, environ, answers(NameOf(f)));
    assert l.result == Ok(v) && (l.cache == cache || l.cache == cache[NameOf(f) := v]);
    CacheSetAgrees(cache, answers, NameOf(f), v);
  }

  /** A consulting step whose lookup returned `v`. */
  lemma ApplyOfOk(f: Field, s: LoadState, hasClients: bool, environ: map<string, string>, answer: Remote, v: string)
    requires !s.abandoned && Consults(f, At(s.config, f))
    requires StepLookup(f, s, hasClients, environ, answer).result == Ok(v)
    ensures var l := StepLookup(f, s, hasClients, environ, answer);
            var s' := if SourceOf(f) == Secret then s.(secrets := l.cache) else s.(parameters := l.cache);
            Apply(f, s, hasClients, environ, answer) == s'.(config := s.config[f := Updated(f, At(s.config, f), v)])
  {
  }

  /** A consulting step whose lookup raised `e`. */
  lemma ApplyOfRaised(f: Field, s: LoadState, hasClients: bool, environ: map<string, string>, answer: Remote,
                      e: Exception)
    requires !s.abandoned && Consults(f, At(s.config, f))
    requires StepLookup(f, s, hasClients, environ, answer).result == Raised(e)
    ensures var l := StepLookup(f, s, hasClients, environ, answer);
            var s' := if SourceOf(f) == Secret then s.(secrets := l.cache) else s.(parameters := l.cache);
            Apply(f, s, hasClients, environ, answer) == s'.(abandoned := !(RuleOf(f) == Guarded && e.ValueError?))
  {
  }

  lemma AtSet(c: Config, f: Field, v: string)
    ensures At(c[f := v], f) == v
  {
  }

  /** Caching the store's own answer keeps a cache in agreement. */
  lemma CacheSetAgrees(cache: map<string, string>, answers: string -> Remote, n: string, v: string)
    requires forall k :: k in cache ==> answers(k) == Value(cache[k])
    requires answers(n) == Value(v)
    ensures forall k :: k in cache[n := v] ==> answers(k) == Value(cache[n := v][k])
  {
  }

  /** With a store that answers every name with a non-empty value and no
      step skipped for a given value, every setting ends as the store's value. */
  lemma {:induction false} StoreFills(steps: seq<Field>, s: LoadState, environ: map<string, string>,
                                      answers: string -> Remote)
    requires !s.abandoned && CachesAgree(s, answers) && Distinct(steps)
    requires forall i :: 0 <= i < |steps| ==> answers(NameOf(steps[i])).Value? && answers(NameOf(steps[i])).value != ""
    requires forall i :: 0 <= i < |steps| ==> Consults(steps[i], At(s.config, steps[i]))
    ensures var r := Run(steps, s, true, environ, answers);
            !r.abandoned && forall i :: 0 <= i < |steps| ==> At(r.config, steps[i]) == answers(NameOf(steps[i])).value
    decreases |steps|
  {
    if steps != [] {
      var f := steps[0];
      var rest := steps[1..];
      var next := Apply(f, s, true, environ, answers(NameOf(f)));
      ApplyFills(f, s, environ, answers);
      DistinctTail(steps);
      forall i | 0 <= i < |rest|
        ensures answers(NameOf(rest[i])).Value? && answers(NameOf(rest[i])).value != ""
        ensures Consults(rest[i], At(next.config, rest[i]))
      {
        assert rest[i] == steps[i + 1] && rest[i] != f;
      }
      StoreFills(rest, next, environ, answers);
      RunKeeps(rest, next, true, environ, answers, f);
      var r := Run(steps, s, true, environ, answers);
      assert r == Run(rest, next, true, environ, answers);
      forall i | 0 <= i < |steps| ensures At(r.config, steps[i]) == answers(NameOf(steps[i])).value {
        if i > 0 {
          assert steps[i] == rest[i - 1];
        }
      }
    }
  }

  /** Loading from an empty environment with a complete store sets every
      setting to the store's value. */
  lemma CompleteStoreFillsAll(answers: string -> Remote)
    requires forall f :: answers(NameOf(f)).Value? && answers(NameOf(f)).value != ""
    ensures var r := Load(map[], map[], true, answers);
            !r.abandoned && forall f :: At(r.config, f) == answers(NameOf(f)).value
  {
    var s := LoadState(Initial(map[], map[]), map[], map[], false);
    StepsInOrder();
    EmptyEnvironmentConsults();
    StoreFills(AllFields, s, map[], answers);
    EveryFieldListed(Load(map[], map[], true, answers).config, answers);
  }

  /** From empty surroundings, every step consults the store. */
  lemma EmptyEnvironmentConsults()
    ensures forall i :: 0 <= i < |AllFields| ==> Consults(AllFields[i], At(Initial(map[], map[]), AllFields[i]))
  {
    forall i | 0 <= i < |AllFields| ensures Consults(AllFields[i], At(Initial(map[], map[]), AllFields[i])) {
      ConsultsDefault(AllFields[i]);
    }
  }

  /** What holds of every listed setting holds of every setting. */
  lemma EveryFieldListed(c: Config, answers: string -> Remote)
    requires forall f :: answers(NameOf(f)).Value?
    requires forall i :: 0 <= i < |AllFields| ==> At(c, AllFields[i]) == answers(NameOf(AllFields[i])).value
    ensures forall f :: At(c, f) == answers(NameOf(f)).value
  {
    forall f ensures At(c, f) == answers(NameOf(f)).value {
      AllFieldsListed(f);
      var i :| 0 <= i < |AllFields| && AllFields[i] == f;
    }
  }

  /** Every step consults the store while its setting holds the default. */
  lemma ConsultsDefault(f: Field)
    ensures Consults(f, Default(f))
  {
  }

  lemma AllFieldsListed(f: Field)
    ensures f in AllFields
  {
  }

  // ---------------------------------------------------------------------------
  // allowed_origins_list

  /** `[origin.strip() for origin in ALLOWED_ORIGINS.split(",")]` */
  function AllowedOriginsList(origins: string): (r: seq<string>)
    ensures var pieces := SplitOn(origins, ',');
            |r| == |pieces| && forall i :: 0 <= i < |r| ==> r[i] == Strip(pieces[i])
  {
    StripEach(SplitOn(origins, ','))
  }

  /** Each piece stripped. */
  function StripEach(pieces: seq<string>): (r: seq<string>)
    ensures |r| == |pieces|
    ensures forall i :: 0 <= i < |r| ==> r[i] == Strip(pieces[i])
  {
    if pieces == [] then []
    else
      var rest := StripEach(pieces[1..]);
      assert forall i :: 0 < i < |pieces| ==> ([Strip(pieces[0])] + rest)[i] == rest[i - 1] && pieces[1..][i - 1] == pieces[i];
      [Strip(pieces[0])] + rest
  }

  /** Pieces that are their own strip are left as they are. */
  lemma {:induction false} StripEachStripped(pieces: seq<string>)
    requires forall i :: 0 <= i < |pieces| ==> Strip(pieces[i]) == pieces[i]
    ensures StripEach(pieces) == pieces
  {
    if pieces != [] {
      StripEachStripped(pieces[1..]);
      assert [pieces[0]] + pieces[1..] == pieces;
    }
  }

  /** Origins without commas and without surrounding white space, joined by
      commas, read back as the same list. */
  lemma OriginsRoundTrip(origins: seq<string>)
    requires origins != []
    requires forall i :: 0 <= i < |origins| ==> ',' !in origins[i] && Strip(origins[i]) == origins[i]
    ensures AllowedOriginsList(Join(",", origins)) == origins
  {
    SplitOnJoin(origins, ',');
    StripEachStripped(origins);
  }

  /** Origins without commas, joined by commas, read back as the same list
      with each origin stripped; an empty origin stays in the list. */
  lemma OriginsStripped(origins: seq<string>)
    requires origins != []
    requires forall i :: 0 <= i < |origins| ==> ',' !in origins[i]
    ensures var r := AllowedOriginsList(Join(",", origins));
            |r| == |origins| && forall i :: 0 <= i < |r| ==> r[i] == Strip(origins[i])
  {
    SplitOnJoin(origins, ',');
  }

  // ---------------------------------------------------------------------------
  // The settings object

  /** `Settings`: the string settings that differ from their defaults, and
      the manager created with them. */
  class AppSettings {
    var config: Config
    const manager: AwsConfigManager

    /** `Settings()`; `hasClients` is whether creating the session gave the
        manager its clients (it does not depend on credentials being found)
        and `answers` what the stores reply. */
    constructor(environ: map<string, string>, dotenv: map<string, string>, hasClients: bool, answers: string -> Remote)
      ensures config == Load(environ, dotenv, hasClients, answers).config
      ensures manager.secretsCache == Load(environ, dotenv, hasClients, answers).secrets
      ensures manager.parametersCache == Load(environ, dotenv, hasClients, answers).parameters
    {
      config := Initial(environ, dotenv);
      manager := new AwsConfigManager(hasClients, environ);
      new;
      LoadAwsConfig(answers);
    }

    function State(abandoned: bool): LoadState
      reads this, manager
    {
      LoadState(config, manager.secretsCache, manager.parametersCache, abandoned)
    }

    /** `_load_aws_config`: the blocks for the settings, in order, until an
        exception leaves the outer `try`. */
    method LoadAwsConfig(answers: string -> Remote)
      modifies this, manager
      ensures var r := LoadFrom(old(State(false)), manager.hasClients, manager.env, answers);
              config == r.config && manager.secretsCache == r.secrets && manager.parametersCache == r.parameters
    {
      var i := 0;
      while i < |AllFields|
        invariant 0 <= i <= |AllFields|
        invariant Run(AllFields[i..], State(false), manager.hasClients, manager.env, answers)
                  == LoadFrom(old(State(false)), manager.hasClients, manager.env, answers)
        decreases |AllFields| - i
      {
        ghost var before := State(false);
        ghost var next := Apply(AllFields[i], before, manager.hasClients, manager.env, answers(NameOf(AllFields[i])));
        RunStep(AllFields[i..], before, manager.hasClients, manager.env, answers);
        assert AllFields[i..][0] == AllFields[i] && AllFields[i..][1..] == AllFields[i + 1..];
        var ok := ApplyStep(AllFields[i], answers);
        assert State(next.abandoned) == next && ok == !next.abandoned;
        if !ok {
          assert config == next.config && Run(AllFields[i..], before, manager.hasClients, manager.env, answers) == next;
          return;
        }
        assert Run(AllFields[i + 1..], State(false), manager.hasClients, manager.env, answers)
               == LoadFrom(old(State(false)), manager.hasClients, manager.env, answers);
        i := i + 1;
      }
    }

    /** The `if`/`try` block of `_load_aws_config` for setting `f`; `ok` is
        false when an exception leaves the outer `try`. */
    method ApplyStep(f: Field, answers: string -> Remote) returns (ok: bool)
      modifies this, manager
      ensures var r := Apply(f, old(State(false)), manager.hasClients, manager.env, answers(NameOf(f)));
              State(r.abandoned) == r && ok == !r.abandoned
    {
      ghost var before := State(false);
      var current := At(config, f);
      if !Consults(f, current) {
        SkippedStep(f, before, manager.hasClients, manager.env, answers(NameOf(f)));
        return true;
      }
      ghost var l := StepLookup(f, before, manager.hasClients, manager.env, answers(NameOf(f)));
      var v := Lookup(f, answers(NameOf(f)));
      ghost var looked := if SourceOf(f) == Secret then before.(secrets := l.cache) else before.(parameters := l.cache);
      assert State(false) == looked;
      match v
      case Raised(e) =>
        ok := RuleOf(f) == Guarded && e.ValueError?;
        ApplyOfRaised(f, before, manager.hasClients, manager.env, answers(NameOf(f)), e);
      case Ok(value) =>
        ApplyOfOk(f, before, manager.hasClients, manager.env, answers(NameOf(f)), value);
        config := config[f := Updated(f, current, value)];
        ok := true;
    }

    /** The `get_secret` or `get_parameter` call of setting `f`. */
    method Lookup(f: Field, answer: Remote) returns (v: Result<string>)
      modifies manager
      ensures var l := StepLookup(f, old(State(false)), manager.hasClients, manager.env, answer);
              v == l.result
              && manager.secretsCache == (if SourceOf(f) == Secret then l.cache else old(manager.secretsCache))
              && manager.parametersCache == (if SourceOf(f) == Secret then old(manager.parametersCache) else l.cache)
    {
      if SourceOf(f) == Secret {
        v := manager.GetSecret(NameOf(f), Some(FieldName(f)), answer);
      } else {
        v := manager.GetParameter(NameOf(f), Some(FieldName(f)), answer);
      }
    }
  }

  /** The configuration module: one `Settings()` built at import time, which
      `get_settings` hands out on every call. */
  class ConfigModule {
    const settings: AppSettings

    constructor(environ: map<string, string>, dotenv: map<string, string>, hasClients: bool, answers: string -> Remote)
      ensures fresh(settings)
      ensures settings.config == Load(environ, dotenv, hasClients, answers).config
    {
      settings := new AppSettings(environ, dotenv, hasClients, answers);
    }

    /** `get_settings`: always the same instance, loaded once. */
    method GetSettings() returns (s: AppSettings)
      ensures s == settings
    {
      s := settings;
    }
  }
}
