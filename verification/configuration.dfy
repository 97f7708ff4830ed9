/**
 The proxy's configuration, resolved once at start-up from the process
 environment. Every setting taken from the environment uses the first
 non-empty variable in a fixed order and falls back to a built-in default;
 the remaining settings are constants.
 */
module Configuration {
  import opened JsValues

  /** The process environment: variable names to their (string) values. */
  type Environment = map<string, string>

  /** `process.env[name]`: undefined when the variable is not set. */
  function Variable(env: Environment, name: string): Field<string> {
    if name in env then Defined(env[name]) else Undefined
  }

  /** The variable is set to a non-empty value, so `||` takes it. */
  predicate IsSet(env: Environment, name: string) {
    name in env && env[name] != ""
  }

  /** The listen port: the text of an environment variable, or the built-in
      number when neither variable is set. */
  datatype Port = PortText(text: string) | PortNumber(number: int)

  datatype Config = Config(
    port: Port,
    host: string,
    nodeEnv: string,
    clientId: string,
    apiBaseUrl: string,
    defaultLimit: int,
    maxLimit: int,
    corsEnabled: bool,
    serverName: string,
    serverVersion: string)

  const DefaultPort := 8080
  const ListenHost := "0.0.0.0"
  const DefaultNodeEnv := "production"
  const ApiBaseUrl := "https://api-v2.soundcloud.com"
  const DefaultLimit := 10
  const MaxLimit := 50
  const ServerName := "SoundCloud Proxy Server"
  const ServerVersion := "1.0.0"

  /** The client id literal written into config.js. */
  const BuiltInClientId := "KKzJxmw11tYpCs6T24P4uUYhqmjalG6M"

  /** The configuration config.js builds from `env`, with `literal` in the
      slot where config.js hard-codes a client id. */
  function ResolveWith(env: Environment, literal: string): (c: Config)
    ensures IsSet(env, "PORT") ==> c.port == PortText(env["PORT"])
    ensures !IsSet(env, "PORT") && IsSet(env, "PROXY_PORT") ==> c.port == PortText(env["PROXY_PORT"])
    ensures !IsSet(env, "PORT") && !IsSet(env, "PROXY_PORT") ==> c.port == PortNumber(DefaultPort)
    ensures IsSet(env, "NODE_ENV") ==> c.nodeEnv == env["NODE_ENV"]
    ensures !IsSet(env, "NODE_ENV") ==> c.nodeEnv == DefaultNodeEnv
    ensures IsSet(env, "SOUNDCLOUD_CLIENT_ID") ==> c.clientId == env["SOUNDCLOUD_CLIENT_ID"]
    ensures !IsSet(env, "SOUNDCLOUD_CLIENT_ID") && IsSet(env, "VITE_SOUNDCLOUD_CLIENT_ID") ==>
              c.clientId == env["VITE_SOUNDCLOUD_CLIENT_ID"]
    ensures !IsSet(env, "SOUNDCLOUD_CLIENT_ID") && !IsSet(env, "VITE_SOUNDCLOUD_CLIENT_ID") ==>
              c.clientId == literal
    ensures c.nodeEnv != ""
    ensures c.port.PortText? ==> c.port.text != ""
  {
    FirstTruthyOfTwo(Variable(env, "PORT"), Variable(env, "PROXY_PORT"));
    FirstTruthyOfTwo(Variable(env, "SOUNDCLOUD_CLIENT_ID"), Variable(env, "VITE_SOUNDCLOUD_CLIENT_ID"));
    var port := FirstTruthy([Variable(env, "PORT"), Variable(env, "PROXY_PORT")]);
    Config(
      port := if port.Some? then PortText(port.value) else PortNumber(DefaultPort),
      host := ListenHost,
      nodeEnv := FirstTruthy([Variable(env, "NODE_ENV")]).GetOr(DefaultNodeEnv),
      clientId := FirstTruthy([Variable(env, "SOUNDCLOUD_CLIENT_ID"),
                               Variable(env, "VITE_SOUNDCLOUD_CLIENT_ID")]).GetOr(literal),
      apiBaseUrl := ApiBaseUrl,
      defaultLimit := DefaultLimit,
      maxLimit := MaxLimit,
      corsEnabled := true,
      serverName := ServerName,
      serverVersion := ServerVersion)
  }

  /** The configuration config.js exports for the environment `env`. */
  function Resolve(env: Environment): (c: Config)
    ensures c.clientId != ""
    ensures c.host == ListenHost && c.apiBaseUrl == ApiBaseUrl
    ensures c.defaultLimit == DefaultLimit <= c.maxLimit == MaxLimit
  {
    ResolveWith(env, BuiltInClientId)
  }

  /** The condition under which config.js prints its start-up warning. */
  predicate WarnsAtStartup(c: Config) {
    c.clientId == "" && c.nodeEnv == "production"
  }

  /** The warning fires exactly when no client id comes from the environment,
      the hard-coded slot is empty, and NODE_ENV is unset or "production". */
  lemma WarningCondition(env: Environment, literal: string)
    ensures WarnsAtStartup(ResolveWith(env, literal)) <==>
              && literal == ""
              && !IsSet(env, "SOUNDCLOUD_CLIENT_ID")
              && !IsSet(env, "VITE_SOUNDCLOUD_CLIENT_ID")
              && (!IsSet(env, "NODE_ENV") || env["NODE_ENV"] == "production")
  {
  }

  /** With the literal config.js ships, no environment triggers the warning. */
  lemma NeverWarns(env: Environment)
    ensures !WarnsAtStartup(Resolve(env))
  {
    WarningCondition(env, BuiltInClientId);
  }

  /** Only the port, NODE_ENV and the client id vary. Every other setting,
      CORS and the server's name and version included, is the same for
      every environment and literal. The literal affects nothing but the
      client id. */
  lemma FixedSettings(env1: Environment, literal1: string, env2: Environment, literal2: string)
    ensures var c1, c2 := ResolveWith(env1, literal1), ResolveWith(env2, literal2);
            && c1.host == c2.host
            && c1.apiBaseUrl == c2.apiBaseUrl
            && c1.defaultLimit == c2.defaultLimit
            && c1.maxLimit == c2.maxLimit
            && c1.corsEnabled == c2.corsEnabled
            && c1.serverName == c2.serverName
            && c1.serverVersion == c2.serverVersion
    ensures var c := ResolveWith(env1, literal1);
            c.corsEnabled && c.serverName == ServerName && c.serverVersion == ServerVersion
    ensures env1 == env2 ==>
              ResolveWith(env1, literal1).port == ResolveWith(env2, literal2).port
              && ResolveWith(env1, literal1).nodeEnv == ResolveWith(env2, literal2).nodeEnv
  {
  }
}
