/**
 * The database package's configuration: connection settings and pool
 * sizes read from the environment with their defaults, the environment
 * name normalised to one of three, the photos directory chosen from an
 * explicit setting or the environment, and the two connection URLs. The
 * environment is a map from variable names to values; the project root the
 * source derives from its own file location is a parameter.
 */
module DbConfig {
  import opened Wrappers
  import opened PyText
  import opened PyPath

  type Env = map<string, string>

  /** `os.getenv(key, default)` */
  function GetEnv(env: Env, key: string, default: string): (r: string)
    ensures key in env ==> r == env[key]
    ensures key !in env ==> r == default
  {
    if key in env then env[key] else default
  }

  /** `int(...)` raising `ValueError` on a setting that is not a base-10 integer. */
  datatype ConfigError = InvalidInteger(variable: string, value: string)

  /** `int(os.getenv(key, default))` */
  function IntSetting(env: Env, key: string, default: string): (r: Result<int, ConfigError>)
    ensures r.Ok? <==> ParseInt(GetEnv(env, key, default)).Some?
    ensures r.Ok? ==> r.value == ParseInt(GetEnv(env, key, default)).value
    ensures r.Err? ==> r.error == InvalidInteger(key, GetEnv(env, key, default))
  {
    var v := GetEnv(env, key, default);
    match ParseInt(v)
    case Some(n) => Ok(n)
    case None => Err(InvalidInteger(key, v))
  }

  const Environments: set<string> := {"development", "production", "test"}

  /** The `ENVIRONMENT` setting: anything but the three known names becomes "development". */
  function NormalizeEnvironment(v: string): (r: string)
    ensures r in Environments
    ensures v in Environments ==> r == v
    ensures v !in Environments ==> r == "development"
  {
    if v in Environments then v else "development"
  }

  /** `_get_photos_path` */
  function PhotosPath(env: Env, environment: string, projectRoot: PurePath): (r: PurePath)
  {
    var explicit := GetEnv(env, "PHOTOS_BASE_PATH", "");
    if explicit != "" then Parse(explicit)
    else if environment == "production" then Parse("/photoserver/photos")
    else Child(projectRoot, "photos")
  }

  datatype DatabaseConfig = DatabaseConfig(
    dbHost: string,
    dbPort: int,
    dbName: string,
    dbUser: string,
    dbPassword: string,
    poolSize: int,
    maxOverflow: int,
    poolTimeout: int,
    poolRecycle: int,
    echoSql: bool,
    environment: string,
    photosBasePath: PurePath)

  /** The configuration once the five integer settings have parsed. */
  function Assemble(env: Env, projectRoot: PurePath, port: int, poolSize: int, maxOverflow: int,
                    poolTimeout: int, poolRecycle: int): DatabaseConfig
  {
    var environment := NormalizeEnvironment(GetEnv(env, "ENVIRONMENT", "development"));
    DatabaseConfig(
      GetEnv(env, "DB_HOST", "localhost"), port,
      GetEnv(env, "DB_NAME", "photography_server"),
      GetEnv(env, "DB_USER", "postgres"),
      GetEnv(env, "DB_PASSWORD", "postgres"),
      poolSize, maxOverflow, poolTimeout, poolRecycle,
      Lower(GetEnv(env, "DB_ECHO_SQL", "false")) == "true",
      environment,
      PhotosPath(env, environment, projectRoot))
  }

  /** `DatabaseConfig.__init__`: the integer settings in the order it reads them; the first that does not parse raises. */
  function Load(env: Env, projectRoot: PurePath): (r: Result<DatabaseConfig, ConfigError>)
  {
    match IntSetting(env, "DB_PORT", "5432")
    case Err(e) => Err(e)
    case Ok(port) =>
      match IntSetting(env, "DB_POOL_SIZE", "10")
      case Err(e) => Err(e)
      case Ok(poolSize) =>
        match IntSetting(env, "DB_MAX_OVERFLOW", "20")
        case Err(e) => Err(e)
        case Ok(maxOverflow) =>
          match IntSetting(env, "DB_POOL_TIMEOUT", "30")
          case Err(e) => Err(e)
          case Ok(poolTimeout) =>
            match IntSetting(env, "DB_POOL_RECYCLE", "3600")
            case Err(e) => Err(e)
            case Ok(poolRecycle) => Ok(Assemble(env, projectRoot, port, poolSize, maxOverflow, poolTimeout, poolRecycle))
  }

  /** The part of both URLs after the scheme: `user:password@host:port/name`. */
  function Location(c: DatabaseConfig): string
  {
    c.dbUser + ":" + c.dbPassword + "@" + c.dbHost + ":" + IntToString(c.dbPort) + "/" + c.dbName
  }

  const AsyncScheme := "postgresql+asyncpg"
  const SyncScheme := "postgresql"

  /** `database_url` */
  function DatabaseUrl(c: DatabaseConfig): string
  {
    AsyncScheme + "://" + Location(c)
  }

  /** `sync_database_url` */
  function SyncDatabaseUrl(c: DatabaseConfig): string
  {
    SyncScheme + "://" + Location(c)
  }

  /**
   * A loaded configuration always names one of the three environments,
   * and its echo flag and photos directory follow the rules of the
   * constructor.
   */
  lemma LoadedSettings(env: Env, projectRoot: PurePath)
    requires Load(env, projectRoot).Ok?
    ensures var c := Load(env, projectRoot).value;
      && c.dbPort == ParseInt(GetEnv(env, "DB_PORT", "5432")).value
      && c.poolSize == ParseInt(GetEnv(env, "DB_POOL_SIZE", "10")).value
      && c.dbHost == GetEnv(env, "DB_HOST", "localhost")
      && c.environment in Environments
      && (c.echoSql <==> Lower(GetEnv(env, "DB_ECHO_SQL", "false")) == "true")
      && ("ENVIRONMENT" !in env ==> c.environment == "development")
      && c.photosBasePath == PhotosPath(env, c.environment, projectRoot)
  {
    var port := ParseInt(GetEnv(env, "DB_PORT", "5432")).value;
    var poolSize := ParseInt(GetEnv(env, "DB_POOL_SIZE", "10")).value;
    var maxOverflow := ParseInt(GetEnv(env, "DB_MAX_OVERFLOW", "20")).value;
    var poolTimeout := ParseInt(GetEnv(env, "DB_POOL_TIMEOUT", "30")).value;
    var poolRecycle := ParseInt(GetEnv(env, "DB_POOL_RECYCLE", "3600")).value;
    assert Load(env, projectRoot).value == Assemble(env, projectRoot, port, poolSize, maxOverflow, poolTimeout, poolRecycle);
  }

  /** Which setting makes the constructor raise: the first of the five integer settings that does not parse. */
  lemma LoadFailsOnFirstBadInteger(env: Env, projectRoot: PurePath)
    ensures Load(env, projectRoot).Err? <==>
      || ParseInt(GetEnv(env, "DB_PORT", "5432")).None?
      || ParseInt(GetEnv(env, "DB_POOL_SIZE", "10")).None?
      || ParseInt(GetEnv(env, "DB_MAX_OVERFLOW", "20")).None?
      || ParseInt(GetEnv(env, "DB_POOL_TIMEOUT", "30")).None?
      || ParseInt(GetEnv(env, "DB_POOL_RECYCLE", "3600")).None?
    ensures ParseInt(GetEnv(env, "DB_PORT", "5432")).None? ==>
      Load(env, projectRoot) == Err(InvalidInteger("DB_PORT", GetEnv(env, "DB_PORT", "5432")))
  {
  }

  /**
   * A non-empty `PHOTOS_BASE_PATH` wins; without it production uses
   * /photoserver/photos and the other environments the photos directory
   * of the project root.
   */
  lemma PhotosPathRule(env: Env, environment: string, projectRoot: PurePath)
    ensures "PHOTOS_BASE_PATH" in env && env["PHOTOS_BASE_PATH"] != "" ==>
      PhotosPath(env, environment, projectRoot) == Parse(env["PHOTOS_BASE_PATH"])
    ensures ("PHOTOS_BASE_PATH" !in env || env["PHOTOS_BASE_PATH"] == "") && environment == "production" ==>
      PhotosPath(env, environment, projectRoot) == PurePath("/", ["photoserver", "photos"])
    ensures ("PHOTOS_BASE_PATH" !in env || env["PHOTOS_BASE_PATH"] == "") && environment != "production" ==>
      PhotosPath(env, environment, projectRoot) == PurePath(projectRoot.anchor, projectRoot.parts + ["photos"])
  {
    ProductionPath(PurePath("/", ["photoserver", "photos"]), "/photoserver/photos");
  }

  /** "/photoserver/photos" parses to the root and two components. */
  lemma ProductionPath(p: PurePath, s: string)
    requires p == PurePath("/", ["photoserver", "photos"]) && s == "/photoserver/photos"
    ensures Parse(s) == p
  {
    assert Valid(p);
    assert Join(p.parts) == "photoserver" + "/" + "photos";
    assert Str(p) == s;
    ParseStr(p);
  }

  /** The integer defaults parse to the documented values. */
  lemma IntDefaults(port: string, poolSize: string, maxOverflow: string, poolTimeout: string, poolRecycle: string)
    requires port == "5432" && poolSize == "10" && maxOverflow == "20" && poolTimeout == "30" && poolRecycle == "3600"
    ensures ParseInt(port) == Some(5432) && ParseInt(poolSize) == Some(10) && ParseInt(maxOverflow) == Some(20)
    ensures ParseInt(poolTimeout) == Some(30) && ParseInt(poolRecycle) == Some(3600)
  {
    DefaultSpellings();
    IntDefault(5432, port);
    IntDefault(10, poolSize);
    IntDefault(20, maxOverflow);
    IntDefault(30, poolTimeout);
    IntDefault(3600, poolRecycle);
  }

  lemma DefaultSpellings()
    ensures NatToString(5432) == "5432" && NatToString(3600) == "3600"
    ensures NatToString(10) == "10" && NatToString(20) == "20" && NatToString(30) == "30"
  {
  }

  lemma IntDefault(n: nat, s: string)
    requires s == NatToString(n)
    ensures ParseInt(s) == Some(n)
  {
    ParseIntOfIntToString(n);
  }

  /** With nothing set, every setting takes its default and the photos live below the project root. */
  lemma EmptyEnvironmentDefaults(projectRoot: PurePath)
    ensures Load(map[], projectRoot) == Ok(DatabaseConfig(
      "localhost", 5432, "photography_server", "postgres", "postgres", 10, 20, 30, 3600,
      false, "development", Child(projectRoot, "photos")))
  {
    IntDefaults("5432", "10", "20", "30", "3600");
    assert Lower("false") != "true";
  }

  /** The two URLs differ only in their scheme: the async driver's URL is the other with its scheme replaced. */
  lemma UrlsDifferOnlyInScheme(c: DatabaseConfig)
    ensures SyncDatabaseUrl(c)[..|SyncScheme|] == SyncScheme
    ensures DatabaseUrl(c) == AsyncScheme + SyncDatabaseUrl(c)[|SyncScheme|..]
  {
    var tail := "://" + Location(c);
    assert SyncDatabaseUrl(c) == SyncScheme + tail;
    assert DatabaseUrl(c) == AsyncScheme + tail;
    assert (SyncScheme + tail)[|SyncScheme|..] == tail;
  }
}
