/**
 * `loadConfig` of go-api/main.go (package main): start from the `defaults`
 * record, take the command-line flags, read and decode the file the `-c`
 * flag names, apply the `API_SECRET` and `API_DB_URL` environment
 * variables, check the required settings and force port 443 under TLS.
 * The command line, the file system and the environment are parameters.
 */
module MainConfig {
  import opened Results
  import opened ConfigRecord

  const EnvVarSecret := "API_SECRET"
  const EnvVarDatabaseURL := "API_DB_URL"

  const SecretMissing := "secret not set"
  const DatabaseMissing := "database URL not set"

  function Names(): Checks {
    Checks(EnvVarSecret, EnvVarDatabaseURL, SecretMissing, DatabaseMissing)
  }

  /** What `flag.Parse` found on the command line: `-c <path>` and `-v`, when given. */
  datatype CommandLine = CommandLine(configFlag: Option<string>, verboseFlag: Option<bool>)

  const DefaultConfigPath := "api.yml"

  /** The file `-c` names, `api.yml` by default. */
  function ConfigPath(cl: CommandLine): (p: string)
    ensures cl.configFlag.None? ==> p == DefaultConfigPath
    ensures cl.configFlag.Some? ==> p == cl.configFlag.value
  {
    Pick(cl.configFlag, DefaultConfigPath)
  }

  /** The defaults with `-v` applied: `flag.Parse` writes the flag into `config.Verbose`. */
  function Start(cl: CommandLine): (c: Config)
    ensures c == Defaults().(verbose := c.verbose)
    ensures c.verbose <==> cl.verboseFlag == Some(true)
  {
    Defaults().(verbose := Pick(cl.verboseFlag, false))
  }

  /** The program's global state: the configuration `loadConfig` fills in. */
  class Program {
    var config: Config

    /**
     * Before `loadConfig`: Go's zero configuration, its `Verbose` flag
     * already bound to `-v` with default false.
     */
    constructor ()
      ensures config == Config("", "", "", 0, false, "", "", "", "", "", [], false)
    {
      config := Config("", "", "", 0, false, "", "", "", "", "", [], false);
    }

    /**
     * `loadConfig`: reset to the defaults, parse the flags, then finalise
     * from the file `files(path)` and the environment. Only the error is
     * returned; the configuration is the new global state, on every path.
     */
    method LoadConfig(cl: CommandLine, files: string -> FileLoad, env: map<string, string>) returns (err: Option<string>)
      modifies this
      ensures (config, err) == Finalize(Start(cl), files(ConfigPath(cl)), env, Names())
    {
      config := Defaults();
      // flag.Parse: `-v`, when given, is written into the configuration
      config := config.(verbose := Pick(cl.verboseFlag, config.verbose));
      assert config == Start(cl);
      var load := files(ConfigPath(cl));
      match load {
        case ReadFailed(e) =>
          return Some(e);
        case Malformed(e) =>
          return Some(e);
        case Decoded(f, errs) =>
          config := Overlay(config, f);
          if errs != [] {
            return Some(TypeErrorText(errs));
          }
      }
      var ev := Getenv(env, EnvVarSecret);
      if ev != "" {
        config := config.(secret := ev);
      }
      ev := Getenv(env, EnvVarDatabaseURL);
      if ev != "" {
        config := config.(databaseURL := ev);
      }
      assert config == ApplyEnv(Overlay(Start(cl), load.file), env, Names());
      if config.secret == "" {
        return Some(SecretMissing);
      }
      if config.databaseURL == "" {
        return Some(DatabaseMissing);
      }
      if config.serveTLS {
        config := config.(serverPort := 443);
      }
      return None;
    }
  }

  /**
   * A file that cannot be read or decoded ends the load with that error
   * before the environment is consulted; when it cannot even be read, the
   * configuration is exactly the defaults and the `-v` flag, whatever an
   * earlier load left behind.
   */
  lemma LoadErrorBeforeEnvironment(cl: CommandLine, files: string -> FileLoad, env: map<string, string>)
    requires !CleanDecode(files(ConfigPath(cl)))
    ensures Finalize(Start(cl), files(ConfigPath(cl)), env, Names()).1.Some?
    ensures Finalize(Start(cl), files(ConfigPath(cl)), env, Names())
            == Finalize(Start(cl), files(ConfigPath(cl)), map[], Names())
    ensures files(ConfigPath(cl)).ReadFailed? ==>
      Finalize(Start(cl), files(ConfigPath(cl)), env, Names()) == (Start(cl), Some(files(ConfigPath(cl)).readError))
  {
    LoadErrorComesFirst(Start(cl), files(ConfigPath(cl)), env, Names());
  }

  /**
   * The checks of `loadConfig` in order, for a cleanly decoded file `f`: a
   * missing secret, then a missing database URL; otherwise the load
   * succeeds, with port 443 under TLS.
   */
  lemma MainChecks(cl: CommandLine, f: ConfigFile, env: map<string, string>)
    ensures var e := ApplyEnv(Overlay(Start(cl), f), env, Names());
      var r := Finalize(Start(cl), Decoded(f, []), env, Names());
      && (e.secret == "" ==> r.1 == Some("secret not set"))
      && (e.secret != "" && e.databaseURL == "" ==> r.1 == Some("database URL not set"))
      && (e.secret != "" && e.databaseURL != "" ==>
            r == (if e.serveTLS then e.(serverPort := 443) else e, None))
  {
    SecretCheckedFirst(Start(cl), f, env, Names());
  }

  /**
   * With no flags and a file giving nothing, the secret
   * and database URL from the environment produce the defaults with just
   * those two settings replaced.
   */
  lemma EnvironmentOnly(files: string -> FileLoad, env: map<string, string>, secret: string, url: string)
    requires files(DefaultConfigPath) == Decoded(EmptyFile(), [])
    requires secret != "" && url != ""
    requires env == map[EnvVarSecret := secret, EnvVarDatabaseURL := url]
    ensures Finalize(Start(CommandLine(None, None)), files(ConfigPath(CommandLine(None, None))), env, Names())
            == (Defaults().(secret := secret, databaseURL := url), None)
  {
    OverlayEmpty(Defaults());
  }
}
