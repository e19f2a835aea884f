/**
 * The server configuration record shared by go-api/config.go (package goapi)
 * and go-api/main.go (package main): its fields, the built-in defaults, how a
 * decoded YAML file overlays them, and how the environment is consulted.
 *
 * YAML decoding itself is not modelled: a configuration file arrives as the
 * set of keys it gives a value to, and `ioutil.ReadFile`/`yaml.Unmarshal`
 * failures arrive as a `FileLoad` outcome.
 */
module ConfigRecord {
  import opened Results

  /** One entry of the `auths` list: an identity allowed to use the API. */
  datatype Auth = Auth(id: string, keyDigest: string, roles: seq<string>)

  /** Go's `Config` struct. */
  datatype Config = Config(
    secret: string,
    databaseURL: string,
    serverNet: string,
    serverPort: int,
    serveTLS: bool,
    tlsCrt: string,
    tlsKey: string,
    prefix: string,
    staticPrefix: string,
    staticDir: string,
    auths: seq<Auth>,
    verbose: bool)

  /**
   * The built-in defaults; every field not named here is Go's zero value.
   * Every required setting but the secret has a default, and TLS is off.
   */
  function Defaults(): (r: Config)
    ensures r.secret == "" && r.databaseURL != ""
    ensures !r.serveTLS && r.auths == [] && !r.verbose
  {
    Config(
      secret := "",
      databaseURL := "postgres://localhost",
      serverNet := "127.0.0.1",
      serverPort := 8080,
      serveTLS := false,
      tlsCrt := "server.crt",
      tlsKey := "server.key",
      prefix := "/api",
      staticPrefix := "/static",
      staticDir := "static",
      auths := [],
      verbose := false)
  }

  /** The keys a YAML document gives a value to (`secret`, `database`, `net`, `port`, ...). */
  datatype ConfigFile = ConfigFile(
    secret: Option<string>,
    database: Option<string>,
    net: Option<string>,
    port: Option<int>,
    tls: Option<bool>,
    tlsCrt: Option<string>,
    tlsKey: Option<string>,
    apiPathPrefix: Option<string>,
    staticPathPrefix: Option<string>,
    staticDir: Option<string>,
    auths: Option<seq<Auth>>,
    verbose: Option<bool>)

  /** Reading and decoding the configuration file. */
  datatype FileLoad =
    | ReadFailed(readError: string)         // ioutil.ReadFile failed
    | Malformed(syntaxError: string)         // yaml.Unmarshal rejected the document
    | Decoded(file: ConfigFile, typeErrors: seq<string>)
      // yaml.Unmarshal decoded the document; values of the wrong type were
      // skipped and reported, the others were stored

  /** `"a" + sep + "b" + sep + ...`: Go's `strings.Join`. */
  function Join(parts: seq<string>, sep: string): string {
    if parts == [] then ""
    else if |parts| == 1 then parts[0]
    else parts[0] + sep + Join(parts[1..], sep)
  }

  /** The text of yaml.v2's `*yaml.TypeError`: one indented line per skipped value. */
  function TypeErrorText(errs: seq<string>): string {
    "yaml: unmarshal errors:\n  " + Join(errs, "\n  ")
  }

  /** A load that reaches the environment checks: the document was read and every value decoded. */
  predicate CleanDecode(load: FileLoad) {
    load.Decoded? && load.typeErrors == []
  }

  function Pick<T>(given: Option<T>, current: T): T {
    if given.Some? then given.value else current
  }

  /**
   * `yaml.Unmarshal(raw, &config)`: every key the file sets replaces the
   * field, every other field keeps its value.
   */
  function Overlay(base: Config, f: ConfigFile): Config
  {
    Config(
      secret := Pick(f.secret, base.secret),
      databaseURL := Pick(f.database, base.databaseURL),
      serverNet := Pick(f.net, base.serverNet),
      serverPort := Pick(f.port, base.serverPort),
      serveTLS := Pick(f.tls, base.serveTLS),
      tlsCrt := Pick(f.tlsCrt, base.tlsCrt),
      tlsKey := Pick(f.tlsKey, base.tlsKey),
      prefix := Pick(f.apiPathPrefix, base.prefix),
      staticPrefix := Pick(f.staticPathPrefix, base.staticPrefix),
      staticDir := Pick(f.staticDir, base.staticDir),
      auths := Pick(f.auths, base.auths),
      verbose := Pick(f.verbose, base.verbose))
  }

  /** A document that sets no key. */
  function EmptyFile(): ConfigFile {
    ConfigFile(None, None, None, None, None, None, None, None, None, None, None, None)
  }

  /** Overlaying a document that sets nothing changes nothing. */
  lemma OverlayEmpty(base: Config)
    ensures Overlay(base, EmptyFile()) == base
  {
  }

  /**
   * Decoding the same document twice is decoding it once: the second pass
   * finds every key it sets already holding its value.
   */
  lemma OverlayIdempotent(base: Config, f: ConfigFile)
    ensures Overlay(Overlay(base, f), f) == Overlay(base, f)
  {
  }

  /** `os.Getenv`: the variable's value, or "" when it is not set. */
  function Getenv(env: map<string, string>, name: string): string
  {
    if name in env then env[name] else ""
  }

  /** An environment variable replaces the current value only when it is set to a non-empty string. */
  function EnvOverride(current: string, env: map<string, string>, name: string): string
  {
    var ev := Getenv(env, name);
    if ev != "" then ev else current
  }

  /** The environment variables a program consults and the errors it reports for missing settings. */
  datatype Checks = Checks(secretVar: string, databaseVar: string, secretMissing: string, databaseMissing: string)

  /**
   * `ioutil.ReadFile` then `yaml.Unmarshal(raw, &config)` starting from `c`:
   * the configuration after the attempt and the error, if any. A document
   * with values of the wrong type has its other values stored all the same.
   */
  function Decode(c: Config, load: FileLoad): (r: (Config, Option<string>))
    ensures r.1.None? <==> CleanDecode(load)
    ensures r.0 == if load.Decoded? then Overlay(c, load.file) else c
  {
    match load
    case ReadFailed(e) => (c, Some(e))
    case Malformed(e) => (c, Some(e))
    case Decoded(f, errs) => (Overlay(c, f), if errs == [] then None else Some(TypeErrorText(errs)))
  }

  /** The two environment overrides, secret first. */
  function ApplyEnv(c: Config, env: map<string, string>, names: Checks): (r: Config)
    ensures r.(secret := c.secret, databaseURL := c.databaseURL) == c
    ensures r.secret != "" <==> c.secret != "" || Getenv(env, names.secretVar) != ""
    ensures r.databaseURL != "" <==> c.databaseURL != "" || Getenv(env, names.databaseVar) != ""
  {
    c.(secret := EnvOverride(c.secret, env, names.secretVar),
       databaseURL := EnvOverride(c.databaseURL, env, names.databaseVar))
  }

  /** The required-settings checks, secret first, and the TLS port. */
  function Validate(c: Config, names: Checks): (r: (Config, Option<string>))
    ensures r.1.None? <==> c.secret != "" && c.databaseURL != ""
    ensures r.1.Some? ==> r.0 == c
    ensures r.0.(serverPort := c.serverPort) == c
    ensures r.1.None? ==> r.0.serverPort == if c.serveTLS then 443 else c.serverPort
  {
    if c.secret == "" then (c, Some(names.secretMissing))
    else if c.databaseURL == "" then (c, Some(names.databaseMissing))
    else if c.serveTLS then (c.(serverPort := 443), None)
    else (c, None)
  }

  /**
   * Finalising a configuration from `c`: decode the file over it, then, if
   * that succeeded, apply the environment and check the result. The
   * configuration reached and the error returned.
   */
  function Finalize(c: Config, load: FileLoad, env: map<string, string>, names: Checks): (r: (Config, Option<string>))
    ensures r.1.None? ==> CleanDecode(load)
    ensures r.1.None? ==> r.0.secret != "" && r.0.databaseURL != "" && (r.0.serveTLS ==> r.0.serverPort == 443)
  {
    var (d, err) := Decode(c, load);
    if err.Some? then (d, err) else Validate(ApplyEnv(d, env, names), names)
  }

  /**
   * A file that cannot be read or fully decoded ends the load with that
   * error, before the environment is looked at: the outcome is the same
   * under every environment, and no setting is checked.
   */
  lemma LoadErrorComesFirst(c: Config, load: FileLoad, env: map<string, string>, names: Checks)
    requires !CleanDecode(load)
    ensures Finalize(c, load, env, names) == Finalize(c, load, map[], names)
    ensures Finalize(c, load, env, names).1 ==
      match load
      case ReadFailed(e) => Some(e)
      case Malformed(e) => Some(e)
      case Decoded(_, errs) => Some(TypeErrorText(errs))
    ensures load.Decoded? ==> Finalize(c, load, env, names).0 == Overlay(c, load.file)
    ensures !load.Decoded? ==> Finalize(c, load, env, names).0 == c
  {
  }

  /**
   * After a clean decode, each environment variable replaces the file's
   * value exactly when it is set to a non-empty string, whatever the
   * outcome of the checks.
   */
  lemma EnvOverridesWhenNonEmpty(c: Config, f: ConfigFile, env: map<string, string>, names: Checks)
    ensures var r := Finalize(c, Decoded(f, []), env, names).0;
      && (names.secretVar in env && env[names.secretVar] != "" ==> r.secret == env[names.secretVar])
      && (names.secretVar !in env || env[names.secretVar] == "" ==> r.secret == Overlay(c, f).secret)
      && (names.databaseVar in env && env[names.databaseVar] != "" ==> r.databaseURL == env[names.databaseVar])
      && (names.databaseVar !in env || env[names.databaseVar] == "" ==> r.databaseURL == Overlay(c, f).databaseURL)
  {
  }

  /**
   * After a clean decode the load succeeds exactly when both the secret and
   * the database URL are non-empty; a missing secret is reported whatever
   * the database URL, and the database URL only once the secret is set.
   */
  lemma SecretCheckedFirst(c: Config, f: ConfigFile, env: map<string, string>, names: Checks)
    ensures var e := ApplyEnv(Overlay(c, f), env, names);
      var r := Finalize(c, Decoded(f, []), env, names);
      && (r.1.None? <==> e.secret != "" && e.databaseURL != "")
      && (e.secret == "" ==> r.1 == Some(names.secretMissing))
      && (e.secret != "" && e.databaseURL == "" ==> r.1 == Some(names.databaseMissing))
      && (r.1.Some? ==> r.0 == e)
  {
  }

  /**
   * A successful load serves on port 443 when TLS is on, whatever port the
   * file gave, and keeps the port otherwise; a failed load never changes the
   * port the file left.
   */
  lemma TlsForcesPort443(c: Config, load: FileLoad, env: map<string, string>, names: Checks)
    ensures var r := Finalize(c, load, env, names);
      && (r.1.None? && r.0.serveTLS ==> r.0.serverPort == 443)
      && (r.1.None? && !r.0.serveTLS ==> r.0.serverPort == Overlay(c, load.file).serverPort)
      && (r.1.Some? ==> r.0.serverPort == Decode(c, load).0.serverPort)
      && (r.1.None? ==> load.Decoded? && r.0.serveTLS == Overlay(c, load.file).serveTLS)
  {
  }

  /**
   * Whatever the outcome, a setting the file does not give keeps the value
   * it had before the load; only the secret, the database URL (from the
   * environment) and the port (from TLS) can change otherwise.
   */
  lemma UnsetFieldsKept(c: Config, load: FileLoad, env: map<string, string>, names: Checks)
    ensures var r := Finalize(c, load, env, names).0;
      var f := if load.Decoded? then load.file else EmptyFile();
      && (f.net.None? ==> r.serverNet == c.serverNet)
      && (f.port.None? && !r.serveTLS ==> r.serverPort == c.serverPort)
      && (f.tls.None? ==> r.serveTLS == c.serveTLS)
      && (f.tlsCrt.None? ==> r.tlsCrt == c.tlsCrt)
      && (f.tlsKey.None? ==> r.tlsKey == c.tlsKey)
      && (f.apiPathPrefix.None? ==> r.prefix == c.prefix)
      && (f.staticPathPrefix.None? ==> r.staticPrefix == c.staticPrefix)
      && (f.staticDir.None? ==> r.staticDir == c.staticDir)
      && (f.auths.None? ==> r.auths == c.auths)
      && (f.verbose.None? ==> r.verbose == c.verbose)
  {
  }
}
