/**
 * go-api/config.go (package goapi): the package-global configuration, which
 * starts at the built-in defaults, `GetConfig`, and `LoadConfig`, which
 * decodes the configuration file over the current configuration, applies
 * the `API_SECRET` and `API_DB` environment variables, checks the required
 * settings and forces port 443 under TLS. The file's bytes and the
 * environment arrive as parameters.
 */
module GoapiConfig {
  import opened Results
  import opened GoStrings
  import opened ConfigRecord

  const EnvVarSecret := "API_SECRET"
  const EnvVarDatabaseURL := "API_DB"

  /** The environment variables and the `"%s not set"` errors naming them. */
  function Names(): Checks {
    Checks(EnvVarSecret, EnvVarDatabaseURL, FormatOne("%s not set", EnvVarSecret), FormatOne("%s not set", EnvVarDatabaseURL))
  }

  /** The errors for a missing setting name its environment variable. */
  lemma {:induction false} MissingSettingMessages()
    ensures Names().secretMissing == "API_SECRET not set"
    ensures Names().databaseMissing == "API_DB not set"
  {
    FormatOneSplice("", " not set", EnvVarSecret);
    FormatOneSplice("", " not set", EnvVarDatabaseURL);
    assert "" + "%s" + " not set" == "%s not set";
  }

  /** The package's global state: the current configuration. */
  class Package {
    var config: Config

    /** Package initialisation: the configuration holds the defaults. */
    constructor ()
      ensures config == Defaults()
    {
      config := Defaults();
    }

    /** `GetConfig`: the current configuration, by value. */
    function GetConfig(): (c: Config)
      reads this
      ensures c == config
    {
      config
    }

    /**
     * `LoadConfig`: decode the file over the current configuration (which
     * is not reset first), then override from the environment, check the
     * settings and apply TLS. The configuration is returned on every path,
     * errors included, and is also the new package state.
     */
    method LoadConfig(load: FileLoad, env: map<string, string>) returns (c: Config, err: Option<string>)
      modifies this
      ensures c == config
      ensures (config, err) == Finalize(old(config), load, env, Names())
    {
      match load {
        case ReadFailed(e) =>
          return config, Some(e);
        case Malformed(e) =>
          return config, Some(e);
        case Decoded(f, errs) =>
          config := Overlay(config, f);
          if errs != [] {
            return config, Some(TypeErrorText(errs));
          }
      }
      var ev := Getenv(env, EnvVarSecret);
      if ev != "" {
        config := config.(secret := ev);
      }
      ev := Getenv(env, EnvVarDatabaseURL);
      if ev != "" {
        config := config.(databaseURL := ev);
      }
      if config.secret == "" {
        return config, Some(FormatOne("%s not set", EnvVarSecret));
      }
      if config.databaseURL == "" {
        return config, Some(FormatOne("%s not set", EnvVarDatabaseURL));
      }
      if config.serveTLS {
        config := config.(serverPort := 443);
      }
      return config, None;
    }
  }

  /**
   * The first load after initialisation: settings the file does not give
   * keep their defaults, and without the secret (file or `API_SECRET`) the
   * load fails naming `API_SECRET`, even when the database URL is missing too.
   */
  lemma FirstLoadFromDefaults(f: ConfigFile, env: map<string, string>)
    ensures var r := Finalize(Defaults(), Decoded(f, []), env, Names());
      && (f.net.None? ==> r.0.serverNet == "127.0.0.1")
      && (f.port.None? && f.tls.None? ==> r.0.serverPort == 8080)
      && (f.tlsCrt.None? ==> r.0.tlsCrt == "server.crt")
      && (f.tlsKey.None? ==> r.0.tlsKey == "server.key")
      && (f.apiPathPrefix.None? ==> r.0.prefix == "/api")
      && (f.staticPathPrefix.None? ==> r.0.staticPrefix == "/static")
      && (f.staticDir.None? ==> r.0.staticDir == "static")
      && (f.database.None? && EnvVarDatabaseURL !in env ==> r.0.databaseURL == "postgres://localhost")
      && (f.secret.None? && EnvVarSecret !in env ==> r.1 == Some("API_SECRET not set"))
  {
    MissingSettingMessages();
    UnsetFieldsKept(Defaults(), Decoded(f, []), env, Names());
  }

  /**
   * The state is not reset between loads: a second load starts from what the
   * first left, so the port forced to 443 by an earlier TLS load survives a
   * file that turns TLS off without giving a port.
   */
  lemma LoadsAccumulate(c: Config, f: ConfigFile, env: map<string, string>)
    requires c.serverPort == 443
    requires f.port.None? && f.tls == Some(false)
    ensures Finalize(c, Decoded(f, []), env, Names()).0.serverPort == 443
  {
  }
}
