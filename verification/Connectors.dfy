/** The registry of Postgres connectors and the connection strings it reads and prints. */
module Connectors {
  import opened Common
  import opened Text

  datatype DsnError = BadUrl | NoDatabaseInUrl | BadPair | NoDatabase

  datatype ConfigError = BadPort | PortMismatch | BadEndpoint

  datatype ConnectorError =
    | BadString(why: DsnError)
    | BadName
    | NoCredentials
    | BadCredentials(why: DsnError)
    | NotDsnOrJson
    | BadJson
    | BadConfig(what: ConfigError)
    | DuplicateConfig

  datatype Connector = Direct(name: string, dsn: string) | Aurora(name: string)

  /** The JSON credentials of an Aurora cluster. */
  datatype AuroraFields = AuroraFields(endpoint: string, port: int, dbName: string, dbUser: string)

  /** The process environment and the library functions applied to it. */
  datatype Environment = Environment(
    vars: map<string, string>,
    urlPath: string -> Option<string>,
    screamingSnake: string -> string,
    snake: string -> string,
    auroraJson: string -> Option<AuroraFields>
  )

  const DEFAULT_PORT := 5432

  /** The database named by the key=value parts of a connection string. */
  function DatabaseOf(parts: seq<string>): Result<string, DsnError> {
    if parts == [] then Err(NoDatabase)
    else if parts[0] == "" then DatabaseOf(parts[1..])
    else
      var kv := Split(parts[0], '=');
      if |kv| != 2 then Err(BadPair)
      else if kv[0] == "dbname" then Ok(kv[1])
      else DatabaseOf(parts[1..])
  }

  /** The database a connection string names; nothing when it is not a connection string. */
  function ParsedPgString(urlPath: string -> Option<string>, s: string): Result<Option<string>, DsnError> {
    if HasPrefix(s, "postgres://") then
      match urlPath(s)
      case None => Err(BadUrl)
      case Some(path) =>
        var name := if HasPrefix(path, "/") then path[1..] else path;
        if name == "" || '/' in name then Err(NoDatabaseInUrl) else Ok(Some(name))
    else if '=' in s then
      match DatabaseOf(Split(s, ' '))
      case Ok(name) => Ok(Some(name))
      case Err(e) => Err(e)
    else Ok(None)
  }

  method TryParsePgString(urlPath: string -> Option<string>, s: string) returns (r: Result<Option<string>, DsnError>)
    ensures r == ParsedPgString(urlPath, s)
  {
    if HasPrefix(s, "postgres://") {
      var path := urlPath(s);
      if path == None {
        return Err(BadUrl);
      }
      var name := if HasPrefix(path.value, "/") then path.value[1..] else path.value;
      if name == "" || '/' in name {
        return Err(NoDatabaseInUrl);
      }
      return Ok(Some(name));
    }
    if '=' !in s {
      return Ok(None);
    }
    var parts := Split(s, ' ');
    for i := 0 to |parts|
      invariant DatabaseOf(parts) == DatabaseOf(parts[i..])
    {
      assert parts[i..][1..] == parts[i + 1..];
      if parts[i] == "" {
        continue;
      }
      var kv := Split(parts[i], '=');
      if |kv| != 2 {
        return Err(BadPair);
      }
      if kv[0] == "dbname" {
        return Ok(Some(kv[1]));
      }
    }
    r := Err(NoDatabase);
  }

  /** An endpoint may carry the port; a port given twice must agree, and none means the Postgres port. */
  function FixedConfig(endpoint: string, port: int): Result<(string, int), ConfigError> {
    var parts := Split(endpoint, ':');
    if |parts| == 1 then Ok((endpoint, if port == 0 then DEFAULT_PORT else port))
    else if |parts| == 2 then
      match Atoi(parts[1])
      case None => Err(BadPort)
      case Some(n) => if port == 0 || port == n then Ok((parts[0], n)) else Err(PortMismatch)
    else Err(BadEndpoint)
  }

  /** A host and a port written as one endpoint are taken apart again, whether or not the port is repeated. */
  lemma EndpointRoundTrip(host: string, port: int, given: int)
    requires ':' !in host && -0x8000_0000_0000_0000 <= port < 0x8000_0000_0000_0000
    ensures FixedConfig(host + [':'] + Itoa(port), given) ==
      if given == 0 || given == port then Ok((host, port)) else Err(PortMismatch)
  {
    hide Split, Atoi, Itoa;
    SplitFirst(host, Itoa(port), ':');
    SplitWhole(Itoa(port), ':');
    AtoiItoa(port);
  }

  /** The result never holds a colon, and fixing it again changes nothing unless its port is zero. */
  lemma FixingAgain(endpoint: string, port: int)
    requires FixedConfig(endpoint, port).Ok?
    ensures var (e, p) := FixedConfig(endpoint, port).value;
      && ':' !in e
      && (FixedConfig(e, p) == Ok((e, p)) <==> p != 0)
  {
    OnePartIff(endpoint, ':');
    var (e, p) := FixedConfig(endpoint, port).value;
    SplitWhole(e, ':');
  }

  class AuroraConfig {
    var endpoint: string
    var port: int
    const dbName: string
    const dbUser: string

    constructor (fields: AuroraFields)
      ensures endpoint == fields.endpoint && port == fields.port && dbName == fields.dbName && dbUser == fields.dbUser
    {
      endpoint, port, dbName, dbUser := fields.endpoint, fields.port, fields.dbName, fields.dbUser;
    }

    method FixConfig() returns (err: Option<ConfigError>)
      modifies this
      ensures match FixedConfig(old(endpoint), old(port))
              case Ok(fixed) => err == None && endpoint == fixed.0 && port == fixed.1
              case Err(e) => err == Some(e) && endpoint == old(endpoint) && port == old(port)
    {
      var parts := Split(endpoint, ':');
      err := None;
      if |parts| == 1 {
        if port == 0 {
          port := DEFAULT_PORT;
        }
      } else if |parts| == 2 {
        var n := Atoi(parts[1]);
        if n == None {
          return Some(BadPort);
        }
        if port == 0 {
          port := n.value;
        } else if port != n.value {
          return Some(PortMismatch);
        }
        endpoint := parts[0];
      } else {
        err := Some(BadEndpoint);
      }
    }
  }

  /** What a reference asks for, before the registry is looked at. */
  datatype Wanted = WantDirect(name: string, dsn: string) | WantAurora(name: string, fields: AuroraFields)

  predicate ValidEnvName(s: string) {
    s != "" && forall c :: c in s ==> 'A' <= c <= 'Z' || '0' <= c <= '9' || c == '_'
  }

  predicate LooksLikeJsonString(s: string) {
    s != "" && s[0] == '{' && s[|s| - 1] == '}'
  }

  function CredentialsFor(env: Environment, raw: string): string {
    var key := "DB_CREDS_" + env.screamingSnake(raw);
    if key in env.vars then env.vars[key] else ""
  }

  function Resolve(env: Environment, raw: string): Result<Wanted, ConnectorError> {
    match ParsedPgString(env.urlPath, raw)
    case Err(e) => Err(BadString(e))
    case Ok(Some(name)) => Ok(WantDirect(name, raw))
    case Ok(None) =>
      var creds := CredentialsFor(env, raw);
      if !ValidEnvName(raw) then Err(BadName)
      else if creds == "" then Err(NoCredentials)
      else
        match ParsedPgString(env.urlPath, creds)
        case Err(e) => Err(BadCredentials(e))
        case Ok(Some(_)) => Ok(WantDirect(env.snake(raw), creds))
        case Ok(None) =>
          if !LooksLikeJsonString(creds) then Err(NotDsnOrJson)
          else
            match env.auroraJson(creds)
            case None => Err(BadJson)
            case Some(fields) => Ok(WantAurora(env.snake(raw), fields))
  }

  class ConnectorSet {
    const env: Environment
    var connectors: map<string, Connector>
    /** CredBuilder.configs. */
    var configs: map<string, AuroraConfig>

    constructor (env: Environment)
      ensures this.env == env && Valid() && connectors == map[]
    {
      this.env, connectors, configs := env, map[], map[];
    }

    /** Connectors are filed under their own names, and exactly the Aurora ones have a configuration. */
    ghost predicate Valid()
      reads this
    {
      && (forall name :: name in connectors ==> connectors[name].name == name)
      && (forall name :: name in configs <==> name in connectors && connectors[name].Aurora?)
    }

    /** First registration wins: a name in use keeps its connector, whatever is asked for under it. */
    method DirectConnector(name: string, raw: string) returns (conn: Connector)
      requires Valid()
      modifies this`connectors
      ensures Valid()
      ensures conn == if name in old(connectors) then old(connectors)[name] else Direct(name, raw)
      ensures connectors == old(connectors)[name := conn]
    {
      if name in connectors {
        return connectors[name];
      }
      conn := Direct(name, raw);
      connectors := connectors[name := conn];
    }

    method AddConfig(name: string, config: AuroraConfig) returns (err: Option<ConnectorError>)
      modifies this`configs, config
      ensures err == Some(DuplicateConfig) <==> name in old(configs)
      ensures err == None ==> configs == old(configs)[name := config] && FixedConfig(old(config.endpoint), old(config.port)) == Ok((config.endpoint, config.port))
      ensures err.Some? ==> configs == old(configs)
      ensures name !in old(configs) && err.Some? ==>
                err.value.BadConfig? && FixedConfig(old(config.endpoint), old(config.port)) == Err(err.value.what)
    {
      if name in configs {
        return Some(DuplicateConfig);
      }
      var bad := config.FixConfig();
      if bad.Some? {
        return Some(BadConfig(bad.value));
      }
      configs := configs[name := config];
      err := None;
    }

    method AuroraConnector(name: string, config: AuroraConfig) returns (r: Result<Connector, ConnectorError>)
      requires Valid() && config !in configs.Values
      modifies this`connectors, this`configs, config
      ensures Valid()
      ensures name in old(connectors) ==>
                r == Ok(old(connectors)[name]) && connectors == old(connectors) && configs == old(configs)
      ensures name !in old(connectors) ==>
                match FixedConfig(old(config.endpoint), old(config.port))
                case Err(e) => r == Err(BadConfig(e)) && connectors == old(connectors) && configs == old(configs)
                case Ok(fixed) =>
                  && r == Ok(Aurora(name)) && connectors == old(connectors)[name := Aurora(name)]
                  && configs == old(configs)[name := config]
                  && config.endpoint == fixed.0 && config.port == fixed.1
    {
      if name in connectors {
        return Ok(connectors[name]);
      }
      var err := AddConfig(name, config);
      if err.Some? {
        return Err(err.value);
      }
      connectors := connectors[name := Aurora(name)];
      r := Ok(Aurora(name));
    }

    /** The connector a reference leads to; the registry never learns from a failure and never forgets. */
    method GetConnector(raw: string) returns (r: Result<Connector, ConnectorError>)
      requires Valid()
      modifies this`connectors, this`configs
      ensures Valid()
      ensures r.Err? ==> connectors == old(connectors) && configs == old(configs)
      ensures r.Ok? ==> connectors == old(connectors)[r.value.name := r.value]
      ensures r != Err(DuplicateConfig)
      ensures match Resolve(env, raw)
              case Err(e) => r == Err(e)
              case Ok(wanted) =>
                if wanted.name in old(connectors) then r == Ok(old(connectors)[wanted.name])
                else if wanted.WantDirect? then r == Ok(Direct(wanted.name, wanted.dsn))
                else
                  match FixedConfig(wanted.fields.endpoint, wanted.fields.port)
                  case Err(e) => r == Err(BadConfig(e))
                  case Ok(fixed) =>
                    && r == Ok(Aurora(wanted.name)) && wanted.name in configs
                    && fresh(configs[wanted.name])
                    && configs[wanted.name].endpoint == fixed.0 && configs[wanted.name].port == fixed.1
                    && configs[wanted.name].dbName == wanted.fields.dbName
                    && configs[wanted.name].dbUser == wanted.fields.dbUser
    {
      var name := TryParsePgString(env.urlPath, raw);
      if name.Err? {
        return Err(BadString(name.error));
      }
      if name.value.Some? {
        var conn := DirectConnector(name.value.value, raw);
        return Ok(conn);
      }
      if !ValidEnvName(raw) {
        return Err(BadName);
      }
      var creds := CredentialsFor(env, raw);
      if creds == "" {
        return Err(NoCredentials);
      }
      var parsed := TryParsePgString(env.urlPath, creds);
      if parsed.Err? {
        return Err(BadCredentials(parsed.error));
      }
      if parsed.value.Some? {
        var conn := DirectConnector(env.snake(raw), creds);
        return Ok(conn);
      }
      if !LooksLikeJsonString(creds) {
        return Err(NotDsnOrJson);
      }
      var fields := env.auroraJson(creds);
      if fields == None {
        return Err(BadJson);
      }
      var config := new AuroraConfig(fields.value);
      r := AuroraConnector(env.snake(raw), config);
    }

    /** `token` is the authentication token AWS issues, if it does; a registered Aurora connector always has its configuration. */
    method ConnectionString(name: string, token: Option<string>) returns (dsn: Option<string>)
      requires Valid()
      ensures name in connectors && connectors[name].Aurora? ==> name in configs && (dsn.Some? <==> token.Some?)
      ensures name in configs && token.Some? ==>
                dsn == Some(PrintedDsn(configs[name].dbUser, token.value, configs[name].endpoint, configs[name].port, configs[name].dbName))
    {
      if name !in configs || token == None {
        return None;
      }
      var c := configs[name];
      dsn := Some(PrintedDsn(c.dbUser, token.value, c.endpoint, c.port, c.dbName));
    }
  }

  function Pair(key: string, value: string): string {
    key + ['='] + value
  }

  /** The key=value pairs of a printed connection string. */
  function DsnPairs(user: string, token: string, host: string, port: int, dbName: string): seq<string> {
    [Pair("user", user), Pair("password", token), Pair("host", host), Pair("port", Itoa(port)), Pair("dbname", dbName)]
  }

  function PrintedDsn(user: string, token: string, host: string, port: int, dbName: string): string {
    Join(DsnPairs(user, token, host, port, dbName), ' ')
  }

  /** One more part of a key=value list. */
  lemma PairStep(key: string, value: string, rest: seq<string>)
    requires key != "" && '=' !in key
    ensures DatabaseOf([Pair(key, value)] + rest) ==
      if '=' in value then Err(BadPair) else if key == "dbname" then Ok(value) else DatabaseOf(rest)
  {
    SplitFirst(key, value, '=');
    OnePartIff(value, '=');
    if '=' !in value {
      SplitWhole(value, '=');
    }
    assert ([Pair(key, value)] + rest)[1..] == rest;
  }

  /**
   A printed connection string whose values hold no spaces is read back, with its
   own database name, exactly when no value holds an equals sign.
   */
  lemma PrintedDsnIsReadBackIff(urlPath: string -> Option<string>, user: string, token: string, host: string, port: int, dbName: string)
    requires ' ' !in user && ' ' !in token && ' ' !in host && ' ' !in dbName
    ensures ParsedPgString(urlPath, PrintedDsn(user, token, host, port, dbName)) ==
      if '=' in user || '=' in token || '=' in host || '=' in dbName then Err(BadPair) else Ok(Some(dbName))
  {
    var pairs, dsn := DsnPairs(user, token, host, port, dbName), PrintedDsn(user, token, host, port, dbName);
    assert pairs[0][0] == 'u' && pairs[0][4] == '=';
    assert dsn[0] == pairs[0][0] && dsn[4] == pairs[0][4];
    SplitJoin(pairs, ' ');
    PairsAreRead(user, token, host, port, dbName);
  }

  lemma PairsAreRead(user: string, token: string, host: string, port: int, dbName: string)
    ensures DatabaseOf(DsnPairs(user, token, host, port, dbName)) ==
      if '=' in user || '=' in token || '=' in host || '=' in dbName then Err(BadPair) else Ok(dbName)
  {
    hide DatabaseOf, Itoa;
    var pairs := DsnPairs(user, token, host, port, dbName);
    PairStep("user", user, pairs[1..]);
    PairStep("password", token, pairs[2..]);
    PairStep("host", host, pairs[3..]);
    PairStep("port", Itoa(port), pairs[4..]);
    PairStep("dbname", dbName, []);
    assert pairs == [Pair("user", user)] + pairs[1..];
    assert pairs[1..] == [Pair("password", token)] + pairs[2..];
    assert pairs[2..] == [Pair("host", host)] + pairs[3..];
    assert pairs[3..] == [Pair("port", Itoa(port))] + pairs[4..];
    assert pairs[4..] == [Pair("dbname", dbName)] + [];
  }

  /** The tokens AWS issues are query strings, so an Aurora connection string is never read back. */
  lemma AuroraDsnIsNotReadBack(urlPath: string -> Option<string>, user: string, before: string, after: string, host: string, port: int, dbName: string)
    requires ' ' !in user && ' ' !in before && ' ' !in after && ' ' !in host && ' ' !in dbName
    ensures ParsedPgString(urlPath, PrintedDsn(user, before + "?Action=connect" + after, host, port, dbName)) == Err(BadPair)
  {
    var token := before + "?Action=connect" + after;
    assert token[|before| + 7] == '=';
    PrintedDsnIsReadBackIff(urlPath, user, token, host, port, dbName);
  }

  /** The text of a printed connection string: each value under its own key, in this order, separated by blanks. */
  lemma PrintedDsnText(user: string, token: string, host: string, port: int, dbName: string)
    ensures PrintedDsn(user, token, host, port, dbName)
            == Join(["user=" + user, "password=" + token, "host=" + host, "port=" + Itoa(port), "dbname=" + dbName], ' ')
  {
    hide Itoa, Join;
    var pairs := DsnPairs(user, token, host, port, dbName);
    assert pairs[0] == "user=" + user && pairs[1] == "password=" + token && pairs[2] == "host=" + host;
    assert pairs[3] == "port=" + Itoa(port) && pairs[4] == "dbname=" + dbName;
    assert pairs == ["user=" + user, "password=" + token, "host=" + host, "port=" + Itoa(port), "dbname=" + dbName];
  }

  /** A URL names a database exactly when its path is that one name, with or without the leading slash. */
  lemma UrlNamesDatabaseIff(urlPath: string -> Option<string>, s: string, name: string)
    requires "postgres://" <= s
    ensures ParsedPgString(urlPath, s) == Ok(Some(name)) <==>
              name != "" && '/' !in name && (urlPath(s) == Some("/" + name) || urlPath(s) == Some(name))
    ensures ParsedPgString(urlPath, s) != Ok(None)
  {
    assert ("/" + name)[1..] == name;
    if urlPath(s).Some? && HasPrefix(urlPath(s).value, "/") {
      assert urlPath(s).value == "/" + urlPath(s).value[1..];
    }
  }

  /** A text without the URL scheme and without an equals sign is no connection string, and nothing else is. */
  lemma NoConnectionStringIff(urlPath: string -> Option<string>, s: string)
    ensures ParsedPgString(urlPath, s) == Ok(None) <==> !("postgres://" <= s) && '=' !in s
  {
  }

  /** Blank parts of a connection string are skipped wherever they stand. */
  lemma {:induction false} BlanksAreSkipped(parts: seq<string>, k: nat)
    requires k <= |parts|
    ensures DatabaseOf(parts[..k] + [""] + parts[k..]) == DatabaseOf(parts)
  {
    var longer := parts[..k] + [""] + parts[k..];
    if k == 0 {
      assert longer[1..] == parts;
    } else {
      BlanksAreSkipped(parts[1..], k - 1);
      assert longer[1..] == parts[1..][..k - 1] + [""] + parts[1..][k - 1..];
    }
  }

  /**
   A reference that is no connection string is looked up in the environment under
   DB_CREDS_ and its screaming name, and connects under its snake-case name, as what
   the credentials are: a connection string, or the JSON of an Aurora cluster.
   */
  lemma NameIsLookedUp(env: Environment, raw: string, creds: string)
    requires raw != "" && forall c :: c in raw ==> 'A' <= c <= 'Z' || '0' <= c <= '9' || c == '_'
    requires var key := "DB_CREDS_" + env.screamingSnake(raw); key in env.vars && env.vars[key] == creds != ""
    ensures "postgres://" <= creds || '=' in creds ==>
              match ParsedPgString(env.urlPath, creds)
              case Ok(_) => Resolve(env, raw) == Ok(WantDirect(env.snake(raw), creds))
              case Err(e) => Resolve(env, raw) == Err(BadCredentials(e))
    ensures !("postgres://" <= creds) && '=' !in creds && creds[0] == '{' && creds[|creds| - 1] == '}' ==>
              match env.auroraJson(creds)
              case Some(fields) => Resolve(env, raw) == Ok(WantAurora(env.snake(raw), fields))
              case None => Resolve(env, raw) == Err(BadJson)
  {
    NoConnectionStringIff(env.urlPath, raw);
    NoConnectionStringIff(env.urlPath, creds);
    assert raw[0] in raw && raw[0] != "postgres://"[0];
  }

  /** A reference that is a connection string connects as it stands, under the database it names. */
  lemma StringIsUsedAsIs(env: Environment, raw: string, name: string)
    requires ParsedPgString(env.urlPath, raw) == Ok(Some(name))
    ensures Resolve(env, raw) == Ok(WantDirect(name, raw))
  {
  }

  /** An endpoint without a port keeps it apart and defaults to 5432. */
  lemma PlainEndpoint(host: string, given: int)
    requires ':' !in host
    ensures FixedConfig(host, given) == Ok((host, if given == 0 then 5432 else given))
  {
    SplitWhole(host, ':');
  }

  /** Which names lead nowhere: malformed ones, those without credentials, and those whose credentials are neither DSN nor JSON object. */
  lemma NameLeadsNowhere(env: Environment, raw: string)
    requires !("postgres://" <= raw) && '=' !in raw
    ensures raw == "" || (exists c :: c in raw && !('A' <= c <= 'Z' || '0' <= c <= '9' || c == '_')) ==> Resolve(env, raw) == Err(BadName)
    ensures raw != "" && (forall c :: c in raw ==> 'A' <= c <= 'Z' || '0' <= c <= '9' || c == '_') ==>
              var creds := CredentialsFor(env, raw);
              && (creds == "" ==> Resolve(env, raw) == Err(NoCredentials))
              && (creds != "" && !("postgres://" <= creds) && '=' !in creds && !(creds[0] == '{' && creds[|creds| - 1] == '}') ==>
                    Resolve(env, raw) == Err(NotDsnOrJson))
    ensures var key := "DB_CREDS_" + env.screamingSnake(raw);
            CredentialsFor(env, raw) == if key in env.vars then env.vars[key] else ""
  {
    NoConnectionStringIff(env.urlPath, raw);
    NoConnectionStringIff(env.urlPath, CredentialsFor(env, raw));
  }

  /** More than one colon, or a port that is no number, is refused. */
  lemma EndpointRefused(host: string, port: string, more: string, given: int)
    requires ':' !in host && ':' !in port
    ensures Atoi(port) == None ==> FixedConfig(host + [':'] + port, given) == Err(BadPort)
    ensures FixedConfig(host + [':'] + (port + [':'] + more), given) == Err(BadEndpoint)
  {
    SplitFirst(host, port, ':');
    SplitWhole(port, ':');
    SplitFirst(host, port + [':'] + more, ':');
    SplitFirst(port, more, ':');
  }
}
