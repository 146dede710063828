/**
 The configuration object of the nightly trigger: twelve settings with
 compiled-in defaults, overlaid by the keys of a decoded JSON file.

 A setting keeps whatever JSON value the file gave it, since the PHP
 properties are untyped. Each datatype destructor is the getter of the same
 name and returns the stored value unchanged.
 */
module Config {
  import opened Base
  import opened Json

  /** The twelve declared properties of the configuration class. */
  datatype Field =
    | ProjectsToNotify
    | ProjectsToNotifyTravis
    | RedisHost
    | RedisPort
    | RedisPassword
    | GithubToken
    | GithubUser
    | GithubMainProject
    | CircleToken
    | TravisToken
    | AcceptanceTestsProjects
    | AcceptanceTestsRepository

  datatype Config = Config(
    projectsToNotify: Value,
    projectsToNotifyTravis: Value,
    redisHost: Value,
    redisPort: Value,
    redisPassword: Value,
    githubAuthToken: Value,
    githubUser: Value,
    githubMainProject: Value,
    circleToken: Value,
    travisToken: Value,
    acceptanceTestsProjects: Value,
    acceptanceTestsRepository: Value)

  datatype ConfigError =
    | InvalidArgument(message: string)  // the options file is not readable
    | Logic(message: string)            // the file does not decode to a non-null value

  /** The property name a JSON key must equal to set the field. */
  function Name(f: Field): string {
    match f
    case ProjectsToNotify => "projects_to_notify"
    case ProjectsToNotifyTravis => "projects_to_notify_travis"
    case RedisHost => "redis_host"
    case RedisPort => "redis_port"
    case RedisPassword => "redis_password"
    case GithubToken => "github_token"
    case GithubUser => "github_user"
    case GithubMainProject => "github_main_project"
    case CircleToken => "circle_token"
    case TravisToken => "travis_token"
    case AcceptanceTestsProjects => "acceptance_tests_projects"
    case AcceptanceTestsRepository => "acceptance_tests_repository"
  }

  /** `property_exists` on the configuration class: the field a key names, if any. */
  function FieldNamed(key: string): (r: Option<Field>)
    ensures r.Some? ==> Name(r.value) == key
    ensures r.None? ==> forall f :: Name(f) != key
  {
    if key == "projects_to_notify" then Some(ProjectsToNotify)
    else if key == "projects_to_notify_travis" then Some(ProjectsToNotifyTravis)
    else if key == "redis_host" then Some(RedisHost)
    else if key == "redis_port" then Some(RedisPort)
    else if key == "redis_password" then Some(RedisPassword)
    else if key == "github_token" then Some(GithubToken)
    else if key == "github_user" then Some(GithubUser)
    else if key == "github_main_project" then Some(GithubMainProject)
    else if key == "circle_token" then Some(CircleToken)
    else if key == "travis_token" then Some(TravisToken)
    else if key == "acceptance_tests_projects" then Some(AcceptanceTestsProjects)
    else if key == "acceptance_tests_repository" then Some(AcceptanceTestsRepository)
    else None
  }

  /** Names and fields are in one-to-one correspondence. */
  lemma NameRoundTrip(f: Field)
    ensures FieldNamed(Name(f)) == Some(f)
  {
  }

  function Get(c: Config, f: Field): Value {
    match f
    case ProjectsToNotify => c.projectsToNotify
    case ProjectsToNotifyTravis => c.projectsToNotifyTravis
    case RedisHost => c.redisHost
    case RedisPort => c.redisPort
    case RedisPassword => c.redisPassword
    case GithubToken => c.githubAuthToken
    case GithubUser => c.githubUser
    case GithubMainProject => c.githubMainProject
    case CircleToken => c.circleToken
    case TravisToken => c.travisToken
    case AcceptanceTestsProjects => c.acceptanceTestsProjects
    case AcceptanceTestsRepository => c.acceptanceTestsRepository
  }

  /** `$this->$key = $value`: the named field takes the value, no other changes. */
  function Set(c: Config, f: Field, v: Value): (r: Config)
    ensures forall g :: Get(r, g) == if g == f then v else Get(c, g)
  {
    match f
    case ProjectsToNotify => c.(projectsToNotify := v)
    case ProjectsToNotifyTravis => c.(projectsToNotifyTravis := v)
    case RedisHost => c.(redisHost := v)
    case RedisPort => c.(redisPort := v)
    case RedisPassword => c.(redisPassword := v)
    case GithubToken => c.(githubAuthToken := v)
    case GithubUser => c.(githubUser := v)
    case GithubMainProject => c.(githubMainProject := v)
    case CircleToken => c.(circleToken := v)
    case TravisToken => c.(travisToken := v)
    case AcceptanceTestsProjects => c.(acceptanceTestsProjects := v)
    case AcceptanceTestsRepository => c.(acceptanceTestsRepository := v)
  }

  /** Two configurations that agree on every field are equal. */
  lemma FieldsDetermineConfig(a: Config, b: Config)
    requires forall f :: Get(a, f) == Get(b, f)
    ensures a == b
  {
    assert Get(a, ProjectsToNotify) == Get(b, ProjectsToNotify);
    assert Get(a, ProjectsToNotifyTravis) == Get(b, ProjectsToNotifyTravis);
    assert Get(a, RedisHost) == Get(b, RedisHost);
    assert Get(a, RedisPort) == Get(b, RedisPort);
    assert Get(a, RedisPassword) == Get(b, RedisPassword);
    assert Get(a, GithubToken) == Get(b, GithubToken);
    assert Get(a, GithubUser) == Get(b, GithubUser);
    assert Get(a, GithubMainProject) == Get(b, GithubMainProject);
    assert Get(a, CircleToken) == Get(b, CircleToken);
    assert Get(a, TravisToken) == Get(b, TravisToken);
    assert Get(a, AcceptanceTestsProjects) == Get(b, AcceptanceTestsProjects);
    assert Get(a, AcceptanceTestsRepository) == Get(b, AcceptanceTestsRepository);
  }

  /** The compiled-in initial value of a field. */
  function Default(f: Field): (v: Value)
    ensures IsEmpty(v) <==> f != RedisHost && f != RedisPort
    ensures f != RedisHost && f != RedisPort ==> v == Str("") || v == Arr([])
  {
    match f
    case ProjectsToNotify => Arr([])
    case ProjectsToNotifyTravis => Arr([])
    case RedisHost => Str("127.0.0.1")
    case RedisPort => Int(6379)
    case RedisPassword => Str("")
    case GithubToken => Str("")
    case GithubUser => Str("")
    case GithubMainProject => Str("")
    case CircleToken => Str("")
    case TravisToken => Str("")
    case AcceptanceTestsProjects => Arr([])
    case AcceptanceTestsRepository => Str("")
  }

  function Defaults(): (c: Config)
    ensures forall f :: Get(c, f) == Default(f)
  {
    Config(
      Default(ProjectsToNotify), Default(ProjectsToNotifyTravis),
      Default(RedisHost), Default(RedisPort), Default(RedisPassword),
      Default(GithubToken), Default(GithubUser), Default(GithubMainProject),
      Default(CircleToken), Default(TravisToken),
      Default(AcceptanceTestsProjects), Default(AcceptanceTestsRepository))
  }

  /** One iteration of the decode loop: a key that names a field and carries a
      non-empty value overwrites that field; any other entry changes nothing. */
  function Apply(c: Config, key: string, v: Value): (r: Config)
    ensures forall f :: Get(r, f) == if Name(f) == key && !IsEmpty(v) then v else Get(c, f)
  {
    match FieldNamed(key)
    case None => c
    case Some(f) => if IsEmpty(v) then c else Set(c, f, v)
  }

  /** What a field holds once a whole decoded object has been laid over `base`. */
  function Overlaid(base: Config, m: map<string, Value>, f: Field): Value {
    var key := Name(f);
    if key in m && !IsEmpty(m[key]) then m[key] else Get(base, f)
  }

  /** The field-by-field reference for a whole decoded object laid over `base`,
      independent of the order in which the keys are visited. */
  function OverlayOnto(base: Config, m: map<string, Value>): (r: Config)
    ensures forall f :: Get(r, f) == Overlaid(base, m, f)
  {
    Config(
      Overlaid(base, m, ProjectsToNotify), Overlaid(base, m, ProjectsToNotifyTravis),
      Overlaid(base, m, RedisHost), Overlaid(base, m, RedisPort),
      Overlaid(base, m, RedisPassword), Overlaid(base, m, GithubToken),
      Overlaid(base, m, GithubUser), Overlaid(base, m, GithubMainProject),
      Overlaid(base, m, CircleToken), Overlaid(base, m, TravisToken),
      Overlaid(base, m, AcceptanceTestsProjects), Overlaid(base, m, AcceptanceTestsRepository))
  }

  /** Visiting one more key extends the overlay by that entry. */
  lemma ApplyExtendsOverlay(base: Config, m: map<string, Value>, key: string, v: Value)
    requires key !in m
    ensures Apply(OverlayOnto(base, m), key, v) == OverlayOnto(base, m[key := v])
  {
    forall f ensures Get(Apply(OverlayOnto(base, m), key, v), f) == Get(OverlayOnto(base, m[key := v]), f) {
      ApplyExtendsOverlayAt(base, m, key, v, f);
    }
    FieldsDetermineConfig(Apply(OverlayOnto(base, m), key, v), OverlayOnto(base, m[key := v]));
  }

  lemma ApplyExtendsOverlayAt(base: Config, m: map<string, Value>, key: string, v: Value, f: Field)
    requires key !in m
    ensures Get(Apply(OverlayOnto(base, m), key, v), f) == Overlaid(base, m[key := v], f)
  {
  }

  function UnreadableMessage(optionsFile: string): string {
    "Unable to read the given file " + optionsFile + "."
  }

  function InvalidJsonMessage(optionsFile: string): string {
    "The contents of the file (" + optionsFile + ") is not valid json."
  }

  /** The entries of `m` whose keys are not in `pending`. */
  function Visited(m: map<string, Value>, pending: set<string>): map<string, Value> {
    map k | k in m && k !in pending :: m[k]
  }

  lemma VisitOneMore(m: map<string, Value>, pending: set<string>, key: string)
    requires key in pending && pending <= m.Keys
    ensures key !in Visited(m, pending)
    ensures Visited(m, pending - {key}) == Visited(m, pending)[key := m[key]]
  {
  }

  /**
   The `foreach` over a decoded object, visiting its keys in an arbitrary
   order: whichever order is taken, the result is the defaults overlaid with
   the object.
   */
  method ApplyObject(m: map<string, Value>) returns (c: Config)
    ensures c == OverlayOnto(Defaults(), m)
  {
    c := Defaults();
    var pending := m.Keys;
    assert Visited(m, pending) == map[];
    FieldsDetermineConfig(c, OverlayOnto(Defaults(), map[]));
    while pending != {}
      invariant pending <= m.Keys
      invariant c == OverlayOnto(Defaults(), Visited(m, pending))
      decreases pending
    {
      var key :| key in pending;
      VisitOneMore(m, pending, key);
      ApplyExtendsOverlay(Defaults(), Visited(m, pending), key, m[key]);
      c := Apply(c, key, m[key]);
      pending := pending - {key};
    }
    assert Visited(m, pending) == m;
  }

  /**
   Reads the options file into a configuration. Reading and decoding are
   outside the model: `readable` is the outcome of the readability test and
   `decoded` what `json_decode` returned (`Null` both for malformed text and
   for the literal `null`). An array or a scalar at top level is not an
   object: an array's integer keys name no property, and `foreach` over a
   scalar visits nothing, so the defaults stand.
   */
  method SetUp(optionsFile: string, readable: bool, decoded: Value)
    returns (r: Result<Config, ConfigError>)
    ensures !readable ==> r == Failure(InvalidArgument(UnreadableMessage(optionsFile)))
    ensures readable && decoded.Null? ==> r == Failure(Logic(InvalidJsonMessage(optionsFile)))
    ensures readable && decoded.Obj? ==> r == Success(OverlayOnto(Defaults(), decoded.members))
    ensures readable && !decoded.Null? && !decoded.Obj? ==> r == Success(Defaults())
  {
    if !readable {
      return Failure(InvalidArgument(UnreadableMessage(optionsFile)));
    }
    if decoded.Null? {
      return Failure(Logic(InvalidJsonMessage(optionsFile)));
    }
    if !decoded.Obj? {
      return Success(Defaults());
    }
    var c := ApplyObject(decoded.members);
    return Success(c);
  }

  /** A key that names no field is ignored: the object without it gives the same configuration. */
  lemma UnknownKeyIgnored(base: Config, m: map<string, Value>, key: string)
    requires FieldNamed(key).None?
    ensures OverlayOnto(base, m) == OverlayOnto(base, m - {key})
  {
  }

  /** A known key with an empty value is as good as absent: the field keeps its earlier value. */
  lemma EmptyValueIgnored(base: Config, m: map<string, Value>, key: string)
    requires key in m && IsEmpty(m[key])
    ensures OverlayOnto(base, m) == OverlayOnto(base, m - {key})
  {
  }

  /** An object whose every value is empty leaves all defaults in place. */
  lemma AllEmptyKeepsDefaults(m: map<string, Value>)
    requires forall key :: key in m ==> IsEmpty(m[key])
    ensures OverlayOnto(Defaults(), m) == Defaults()
  {
  }

  /** What each getter returns after the overlay: the decoded value when the
      object has a non-empty value under the property's name, otherwise the
      compiled-in default. */
  lemma GettersAfterOverlay(m: map<string, Value>)
    ensures var c := OverlayOnto(Defaults(), m);
      && c.projectsToNotify == Pick(m, "projects_to_notify", Arr([]))
      && c.projectsToNotifyTravis == Pick(m, "projects_to_notify_travis", Arr([]))
      && c.redisHost == Pick(m, "redis_host", Str("127.0.0.1"))
      && c.redisPort == Pick(m, "redis_port", Int(6379))
      && c.redisPassword == Pick(m, "redis_password", Str(""))
      && c.githubAuthToken == Pick(m, "github_token", Str(""))
      && c.githubUser == Pick(m, "github_user", Str(""))
      && c.githubMainProject == Pick(m, "github_main_project", Str(""))
      && c.circleToken == Pick(m, "circle_token", Str(""))
      && c.travisToken == Pick(m, "travis_token", Str(""))
      && c.acceptanceTestsProjects == Pick(m, "acceptance_tests_projects", Arr([]))
      && c.acceptanceTestsRepository == Pick(m, "acceptance_tests_repository", Str(""))
  {
  }

  /** The value under `key` when present and non-empty, else `fallback`.
      `Overlaid` says the same per field; this form takes the property name
      and default as literals, so the getter lemma reads as the declarations do. */
  function Pick(m: map<string, Value>, key: string, fallback: Value): Value {
    if key in m && !IsEmpty(m[key]) then m[key] else fallback
  }
}
