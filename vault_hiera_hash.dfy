/**
 The hiera back-end function `vault_hiera_hash(options, context)`: it checks
 its options, builds a TLS client, obtains a Vault token, fetches one KV path,
 parses the answer and hands the result to the lookup context.

 The filesystem and Ruby's URI parser are given as an environment (`Env`);
 the transport, login, fetch and parse helpers of lib/shared/vault_common.rb
 are given as opaque functions (`Vault`), about which nothing is assumed.
 */
module VaultHieraHash {
  import opened Wrappers
  import opened RubyCore

  // ---------------------------------------------------------------------
  // The environment

  /**
   What `URI(...)` yields: the components of a generic URI. The function
   inspects only `hostname` and `path`; the transport receives all of them.
   */
  datatype Uri = Uri(scheme: Option<string>, userinfo: Option<string>, hostname: Option<string>,
                     port: Option<int>, path: string, query: Option<string>, fragment: Option<string>)

  /**
   What `File.read` returns: text in the default external encoding, or bytes
   that are invalid in it, on which `String#strip` raises ArgumentError.
   */
  datatype FileData = Text(chars: string) | InvalidBytes

  /**
   The machine the function runs on:
   `files` are the values `File.file?` answers true for;
   `contents` gives what `File.read` returns (a path absent here makes it raise);
   `uris` gives what `URI(...)` returns (a value absent here makes it raise).
   */
  datatype Env = Env(files: set<Value>, contents: map<Value, FileData>, uris: map<Value, Uri>)

  /**
   An environment as Ruby provides it: `File.file?` and `URI(...)` accept only
   strings, so only strings can name files or parse as URIs.
   */
  ghost predicate StringsOnly(env: Env)
  {
    && (forall v :: v in env.files ==> v.Str?)
    && (forall v :: v in env.uris ==> v.Str?)
  }

  // ---------------------------------------------------------------------
  // Validation

  /** The checks made before anything is contacted, each named after what it demands. */
  datatype Check =
    | UriGiven          // the 'uri' key is present
    | CaTrustGiven      // the 'ca_trust' key is present
    | CaTrustIsFile     // options['ca_trust'] is an existing file
    | TokenFileIsFile   // if 'token_file' is present, it names an existing file
    | TokenSourceGiven  // 'token_file' or 'auth_path' is present
    | UriParses         // URI(options['uri']) does not raise
    | HostnameGiven     // the parsed URI has a hostname

  /** The order in which the checks are made. */
  const CheckOrder: seq<Check> :=
    [UriGiven, CaTrustGiven, CaTrustIsFile, TokenFileIsFile, TokenSourceGiven, UriParses, HostnameGiven]

  /** Whether one check, taken on its own, passes. */
  predicate Passes(c: Check, options: Options, env: Env)
  {
    match c
    case UriGiven => Str("uri") in options
    case CaTrustGiven => Str("ca_trust") in options
    case CaTrustIsFile => Get(options, Str("ca_trust")) in env.files
    case TokenFileIsFile => Str("token_file") in options ==> Get(options, Str("token_file")) in env.files
    case TokenSourceGiven => Str("token_file") in options || Str("auth_path") in options
    case UriParses => Get(options, Str("uri")) in env.uris
    case HostnameGiven =>
      Get(options, Str("uri")) in env.uris && env.uris[Get(options, Str("uri"))].hostname.Some?
  }

  /** The first check of `checks` that fails, if any. */
  function FirstFailure(checks: seq<Check>, options: Options, env: Env): (r: Option<Check>)
    ensures r.Some? ==> r.value in checks && !Passes(r.value, options, env)
    ensures r.None? <==> forall k :: 0 <= k < |checks| ==> Passes(checks[k], options, env)
  {
    if checks == [] then None
    else if !Passes(checks[0], options, env) then Some(checks[0])
    else FirstFailure(checks[1..], options, env)
  }

  /** How the token is obtained. */
  datatype AuthMethod =
    | TokenFile(path: Value)      // read from the file options['token_file']
    | CertLogin(authPath: Value)  // certificate login at the mount options['auth_path']

  /** The key/value secrets engine version the answer is parsed for. */
  datatype KvVersion = V1 | V2

  /** Everything the function has decided once its options are accepted. */
  datatype Plan = Plan(uri: Uri, caTrust: Value, timeout: Value, auth: AuthMethod, version: KvVersion)

  datatype Validation = Rejected(failed: Check) | Accepted(plan: Plan)

  /**
   The timeout handed to the transport. The presence test uses the string key
   'timeout' but the value is read from the symbol key :timeout, which is nil
   when the hash has only the string key.
   */
  function SelectTimeout(options: Options): (t: Value)
    ensures Str("timeout") !in options ==> t == Int(5)
    ensures Str("timeout") in options && Sym("timeout") !in options ==> t == Nil
    ensures Str("timeout") in options && Sym("timeout") in options ==> t == options[Sym("timeout")]
  {
    if Str("timeout") in options then Get(options, Sym("timeout")) else Int(5)
  }

  /** A token file, when given, wins over certificate login. */
  function SelectAuth(options: Options): (a: AuthMethod)
    ensures a.TokenFile? <==> Str("token_file") in options
    ensures a.TokenFile? ==> a.path == options[Str("token_file")]
    ensures a.CertLogin? && Str("auth_path") in options ==> a.authPath == options[Str("auth_path")]
  {
    if Str("token_file") in options then TokenFile(Get(options, Str("token_file")))
    else CertLogin(Get(options, Str("auth_path")))
  }

  /** Exactly the string 'v2' selects v2; anything else, or no value, selects v1. */
  function SelectVersion(options: Options): (v: KvVersion)
    ensures v == V2 <==> Str("version") in options && options[Str("version")] == Str("v2")
  {
    if Get(options, Str("version")) == Str("v2") then V2 else V1
  }

  /** The guard chain, then the selections. */
  function Validate(options: Options, env: Env): (v: Validation)
    ensures v.Accepted? ==> v.plan.uri.hostname.Some?
  {
    if Str("uri") !in options then Rejected(UriGiven)
    else if Str("ca_trust") !in options then Rejected(CaTrustGiven)
    else if Get(options, Str("ca_trust")) !in env.files then Rejected(CaTrustIsFile)
    else if Str("token_file") in options && Get(options, Str("token_file")) !in env.files then
      Rejected(TokenFileIsFile)
    else if !(Str("token_file") in options || Str("auth_path") in options) then Rejected(TokenSourceGiven)
    else if Get(options, Str("uri")) !in env.uris then Rejected(UriParses)
    else
      var uri := env.uris[Get(options, Str("uri"))];
      if uri.hostname.None? then Rejected(HostnameGiven)
      else Accepted(Plan(uri, Get(options, Str("ca_trust")), SelectTimeout(options),
                         SelectAuth(options), SelectVersion(options)))
  }

  /** The first failing check in `checks` is the one at index `i`. */
  lemma {:induction false} FirstFailureAt(checks: seq<Check>, options: Options, env: Env, i: nat)
    requires i < |checks| && !Passes(checks[i], options, env)
    requires forall k :: 0 <= k < i ==> Passes(checks[k], options, env)
    ensures FirstFailure(checks, options, env) == Some(checks[i])
    decreases i
  {
    if i > 0 {
      FirstFailureAt(checks[1..], options, env, i - 1);
    }
  }

  /** Where a check stands in `CheckOrder`. */
  function Position(c: Check): (i: nat)
    ensures i < |CheckOrder| && CheckOrder[i] == c
  {
    match c
    case UriGiven => 0
    case CaTrustGiven => 1
    case CaTrustIsFile => 2
    case TokenFileIsFile => 3
    case TokenSourceGiven => 4
    case UriParses => 5
    case HostnameGiven => 6
  }

  /**
   The guard chain makes the checks in `CheckOrder`: it rejects exactly when
   some check fails, and then names the first failing one.
   */
  lemma ValidateIsFirstFailure(options: Options, env: Env)
    ensures Validate(options, env).Rejected? <==> FirstFailure(CheckOrder, options, env).Some?
    ensures Validate(options, env).Rejected? ==>
      Some(Validate(options, env).failed) == FirstFailure(CheckOrder, options, env)
  {
    var v := Validate(options, env);
    if v.Rejected? {
      var i := Position(v.failed);
      forall k | 0 <= k < i ensures Passes(CheckOrder[k], options, env) {
      }
      FirstFailureAt(CheckOrder, options, env, i);
    } else {
      forall k | 0 <= k < |CheckOrder| ensures Passes(CheckOrder[k], options, env) {
      }
    }
  }

  /** The options are accepted exactly when every check passes. */
  lemma AcceptedIffAllPass(options: Options, env: Env)
    ensures Validate(options, env).Accepted? <==> forall c: Check :: Passes(c, options, env)
  {
    ValidateIsFirstFailure(options, env);
    if Validate(options, env).Rejected? {
      assert !Passes(Validate(options, env).failed, options, env);
    } else {
      forall c: Check ensures Passes(c, options, env) {
        assert CheckOrder[Position(c)] == c;
      }
    }
  }

  /**
   In an environment as Ruby provides it, a non-string 'ca_trust', 'token_file'
   or 'uri' fails the check that passes it to `File.file?` or `URI(...)`.
   */
  lemma NonStringArguments(options: Options, env: Env)
    requires StringsOnly(env)
    ensures Str("uri") in options && Str("ca_trust") in options && !options[Str("ca_trust")].Str? ==>
      Validate(options, env) == Rejected(CaTrustIsFile)
    ensures Passes(UriGiven, options, env) && Passes(CaTrustGiven, options, env) && Passes(CaTrustIsFile, options, env)
            && Str("token_file") in options && !options[Str("token_file")].Str? ==>
      Validate(options, env) == Rejected(TokenFileIsFile)
    ensures && Passes(UriGiven, options, env) && Passes(CaTrustGiven, options, env)
            && Passes(CaTrustIsFile, options, env) && Passes(TokenFileIsFile, options, env)
            && Passes(TokenSourceGiven, options, env) && !options[Str("uri")].Str? ==>
      Validate(options, env) == Rejected(UriParses)
  {
  }

  /** Without 'uri', the uri check fails, whatever else the options hold. */
  lemma MissingUri(options: Options, env: Env)
    requires Str("uri") !in options
    ensures Validate(options, env) == Rejected(UriGiven)
  {
  }

  /** A 'token_file' that is not a file is rejected even when 'auth_path' is given. */
  lemma TokenFileCheckedBeforeAuthPath(options: Options, env: Env)
    requires Passes(UriGiven, options, env) && Passes(CaTrustGiven, options, env)
    requires Passes(CaTrustIsFile, options, env)
    requires Str("token_file") in options && options[Str("token_file")] !in env.files
    ensures Validate(options, env) == Rejected(TokenFileIsFile)
  {
  }

  /** With neither 'token_file' nor 'auth_path', and the earlier checks passing, the result is that error. */
  lemma NoTokenSource(options: Options, env: Env)
    requires Passes(UriGiven, options, env) && Passes(CaTrustGiven, options, env)
    requires Passes(CaTrustIsFile, options, env)
    requires Str("token_file") !in options && Str("auth_path") !in options
    ensures Validate(options, env) == Rejected(TokenSourceGiven)
  {
  }

  /** What an accepted plan holds, option by option. */
  lemma AcceptedPlan(options: Options, env: Env)
    requires Validate(options, env).Accepted?
    ensures var p := Validate(options, env).plan;
      && p.uri == env.uris[options[Str("uri")]]
      && p.caTrust == options[Str("ca_trust")]
      && (Str("timeout") !in options ==> p.timeout == Int(5))
      && (Str("timeout") in options ==> p.timeout == Get(options, Sym("timeout")))
      && (Str("token_file") in options ==> p.auth == TokenFile(options[Str("token_file")]))
      && (Str("token_file") !in options ==> p.auth == CertLogin(options[Str("auth_path")]))
      && (p.version == V2 <==> Str("version") in options && options[Str("version")] == Str("v2"))
  {
  }

  /** A 'timeout' given under the string key alone reaches the transport as nil. */
  lemma TimeoutKeyMismatch(options: Options, env: Env)
    requires Validate(options, env).Accepted?
    requires Str("timeout") in options && Sym("timeout") !in options
    ensures Validate(options, env).plan.timeout == Nil
  {
  }

  // ---------------------------------------------------------------------
  // The helpers of lib/shared/vault_common.rb and the lookup context

  /**
   `http_create_secure`, `vault_get_token`, `vault_http_get` and
   `vault_parse_data`, each either returning a value or raising an `E`.
   */
  datatype Vault<!Http, !Secrets, E> = Vault(
    createSecure: (Uri, Value, Value) -> Result<Http, E>,
    getToken: (Http, string) -> Result<string, E>,
    httpGet: (Http, string, string) -> Result<Secrets, E>,
    parseData: (Secrets, KvVersion) -> Result<Value, E>)

  /** The lookup context; whether `not_found` returns or unwinds belongs to Puppet. */
  datatype Context = Context(notFoundThrows: bool)

  /** One call the function makes, with its arguments. */
  datatype Call<Http, Secrets> =
    | CreateSecure(uri: Uri, caTrust: Value, timeout: Value)
    | ReadTokenFile(file: Value)
    | GetToken(http: Http, mount: string)
    | HttpGet(http: Http, path: string, token: string)
    | ParseData(secrets: Secrets, version: KvVersion)
    | NotFound
    | CacheAll(data: Value)

  /** The position of each kind of call in the pipeline. */
  function Stage<Http, Secrets>(c: Call<Http, Secrets>): nat
  {
    match c
    case CreateSecure(_, _, _) => 0
    case ReadTokenFile(_) => 1
    case GetToken(_, _) => 1
    case HttpGet(_, _, _) => 2
    case ParseData(_, _) => 3
    case NotFound => 4
    case CacheAll(_) => 5
  }

  /**
   The calls follow the pipeline: transport, token, fetch, parse, with no step
   skipped, then at most one `not_found` and at most one `cache_all`.
   */
  predicate InPipelineOrder<Http, Secrets>(calls: seq<Call<Http, Secrets>>)
  {
    && |calls| <= 6
    && (|calls| > 0 ==> Stage(calls[0]) == 0)
    && (|calls| > 1 ==> Stage(calls[1]) == 1)
    && (|calls| > 2 ==> Stage(calls[2]) == 2)
    && (|calls| > 3 ==> Stage(calls[3]) == 3)
    && (|calls| > 4 ==> Stage(calls[4]) >= 4)
    && (|calls| > 5 ==> Stage(calls[4]) == 4 && Stage(calls[5]) == 5)
  }

  /** The helpers of lib/shared/vault_common.rb, in the order they are called. */
  datatype Helper =
    | Transport  // http_create_secure
    | Login      // vault_get_token
    | Fetch      // vault_http_get
    | Parse      // vault_parse_data

  /** How the function can fail. */
  datatype LookupFailure<E> =
    | Config(check: Check)                // a check of the guard chain failed
    | TokenUnreadable(file: Value)        // File.read raised on the token file
    | TokenInvalidBytes(file: Value)      // String#strip raised on the token file's contents
    | AuthPathNotString(authPath: Value)  // auth_path has no String#delete
    | Collaborator(helper: Helper, error: E)  // a helper raised
    | NoEmptyMethod(data: Value)          // the parsed data has no empty? method

  datatype LookupResult<E> = Found(data: Value) | NotFoundSignalled | Failed(failure: LookupFailure<E>)

  // ---------------------------------------------------------------------
  // The function

  /**
   `token` is what the choice `token = if options.key?('token_file') ... end`
   yields through the call `acquire`: the stripped text of the token file when
   there is one, else the login token that `vault_get_token` returned on the
   client `http` for the slash-free `auth_path`.
   */
  ghost predicate TokenFrom<Http, Secrets, E>(p: Plan, env: Env, vault: Vault<Http, Secrets, E>, http: Http,
                                              acquire: Call<Http, Secrets>, token: string)
  {
    match p.auth
    case TokenFile(file) =>
      && acquire == ReadTokenFile(file)
      && file in env.contents && env.contents[file].Text?
      && token == Strip(env.contents[file].chars)
    case CertLogin(authPath) =>
      && authPath.Str? && acquire == GetToken(http, Delete(authPath.s, '/'))
      && vault.getToken(http, acquire.mount) == Success(token)
  }

  /**
   What the steps after validation promise, for an accepted plan `p`:
   the calls with their arguments, and which result each behaviour of the
   environment and the helpers leads to.
   */
  ghost predicate RunContract<Http, Secrets, E>(p: Plan, env: Env, vault: Vault<Http, Secrets, E>, ctx: Context,
                                          r: LookupResult<E>, calls: seq<Call<Http, Secrets>>)
  {
    var http := vault.createSecure(p.uri, p.caTrust, p.timeout);
    && InPipelineOrder(calls)
    // the transport comes first; when it raises, nothing else happens
    && calls != [] && calls[0] == CreateSecure(p.uri, p.caTrust, p.timeout)
    && (http.Failure? ==> r == Failed(Collaborator(Transport, http.error)))
    // the token: read from the token file when there is one, else by login on the new client
    && (|calls| > 1 ==>
          && (calls[1].ReadTokenFile? <==> p.auth.TokenFile?)
          && (calls[1].ReadTokenFile? ==> calls[1].file == p.auth.path)
          && (calls[1].GetToken? ==>
                && p.auth.authPath.Str? && calls[1].mount == Delete(p.auth.authPath.s, '/')
                && http == Success(calls[1].http)))
    // the fetch: the URI's path on the same client, with the stripped file contents or the login token
    && (|calls| > 2 ==>
          && calls[2].HttpGet? && calls[2].path == p.uri.path
          && http == Success(calls[2].http)
          && TokenFrom(p, env, vault, calls[2].http, calls[1], calls[2].token))
    // the parse: the fetched envelope, for the plan's version
    && (|calls| > 3 ==>
          && calls[2].HttpGet? && calls[3].ParseData? && calls[3].version == p.version
          && vault.httpGet(calls[2].http, calls[2].path, calls[2].token) == Success(calls[3].secrets))
    // each outcome, and the calls it leaves behind
    && match r
       // finalisation: not_found for empty or non-hash data, then cache_all with the data returned
       case Found(data) =>
         && |calls| >= 5 && calls[3].ParseData? && calls[|calls| - 1] == CacheAll(data)
         && vault.parseData(calls[3].secrets, calls[3].version) == Success(data)
         && IsEmpty(data).Some?
         && (calls[4] == NotFound <==> IsEmpty(data).value || !data.Hash?)
         && (ctx.notFoundThrows ==> !IsEmpty(data).value && data.Hash?)
       case NotFoundSignalled =>
         && ctx.notFoundThrows && |calls| == 5 && calls[3].ParseData? && calls[4] == NotFound
         && vault.parseData(calls[3].secrets, calls[3].version).Success?
         && var d := vault.parseData(calls[3].secrets, calls[3].version).value;
            IsEmpty(d).Some? && (IsEmpty(d).value || !d.Hash?)
       // the checks come before, and are not part of, these steps
       case Failed(Config(_)) => false
       // the failures raised by Ruby itself
       case Failed(TokenUnreadable(file)) =>
         |calls| == 2 && calls[1] == ReadTokenFile(file) && file !in env.contents
       case Failed(TokenInvalidBytes(file)) =>
         && |calls| == 2 && calls[1] == ReadTokenFile(file)
         && file in env.contents && env.contents[file].InvalidBytes?
       case Failed(AuthPathNotString(authPath)) =>
         |calls| == 1 && p.auth == CertLogin(authPath) && !authPath.Str?
       case Failed(NoEmptyMethod(data)) =>
         && |calls| == 4 && calls[3].ParseData?
         && vault.parseData(calls[3].secrets, calls[3].version) == Success(data)
         && IsEmpty(data).None?
       // a helper that raised made the last call, and its error is the result
       case Failed(Collaborator(Transport, e)) =>
         |calls| == 1 && http == Failure(e)
       case Failed(Collaborator(Login, e)) =>
         |calls| == 2 && calls[1].GetToken? && vault.getToken(calls[1].http, calls[1].mount) == Failure(e)
       case Failed(Collaborator(Fetch, e)) =>
         && |calls| == 3 && calls[2].HttpGet?
         && vault.httpGet(calls[2].http, calls[2].path, calls[2].token) == Failure(e)
       case Failed(Collaborator(Parse, e)) =>
         && |calls| == 4 && calls[3].ParseData?
         && vault.parseData(calls[3].secrets, calls[3].version) == Failure(e)
  }

  /** The steps after validation: transport, token, fetch, parse, finalisation. */
  method Run<Http, Secrets, E>(p: Plan, env: Env, vault: Vault<Http, Secrets, E>, ctx: Context)
    returns (r: LookupResult<E>, calls: seq<Call<Http, Secrets>>)
    ensures RunContract(p, env, vault, ctx, r, calls)
  {
    var transport := CreateSecure(p.uri, p.caTrust, p.timeout);
    var http := vault.createSecure(p.uri, p.caTrust, p.timeout);
    if http.Failure? {
      return Failed(Collaborator(Transport, http.error)), [transport];
    }

    var acquire: Call<Http, Secrets>;
    var token: string;
    match p.auth {
      case TokenFile(file) =>
        acquire := ReadTokenFile(file);
        if file !in env.contents {
          return Failed(TokenUnreadable(file)), [transport, acquire];
        }
        if env.contents[file].InvalidBytes? {
          return Failed(TokenInvalidBytes(file)), [transport, acquire];
        }
        token := Strip(env.contents[file].chars);
      case CertLogin(authPath) =>
        if !authPath.Str? {
          return Failed(AuthPathNotString(authPath)), [transport];
        }
        var mount := Delete(authPath.s, '/');
        acquire := GetToken(http.value, mount);
        var login := vault.getToken(http.value, mount);
        if login.Failure? {
          return Failed(Collaborator(Login, login.error)), [transport, acquire];
        }
        token := login.value;
    }

    r, calls := FetchAndParse(p, env, vault, ctx, http.value, acquire, token);
  }

  /** The steps after the token is obtained: fetch and parse, then finalisation. */
  method FetchAndParse<Http, Secrets, E>(p: Plan, env: Env, vault: Vault<Http, Secrets, E>, ctx: Context,
                                         http: Http, acquire: Call<Http, Secrets>, token: string)
    returns (r: LookupResult<E>, calls: seq<Call<Http, Secrets>>)
    requires vault.createSecure(p.uri, p.caTrust, p.timeout) == Success(http)
    requires TokenFrom(p, env, vault, http, acquire, token)
    ensures RunContract(p, env, vault, ctx, r, calls)
  {
    var transport := CreateSecure(p.uri, p.caTrust, p.timeout);
    var fetch := HttpGet(http, p.uri.path, token);
    var secrets := vault.httpGet(http, p.uri.path, token);
    if secrets.Failure? {
      return Failed(Collaborator(Fetch, secrets.error)), [transport, acquire, fetch];
    }

    var parse := ParseData(secrets.value, p.version);
    var data := vault.parseData(secrets.value, p.version);
    if data.Failure? {
      return Failed(Collaborator(Parse, data.error)), [transport, acquire, fetch, parse];
    }

    r, calls := Report(p, env, vault, ctx, http, acquire, token, secrets.value, data.value);
  }

  /** Finalisation: `not_found` for empty or non-hash data, then `cache_all`, and the data returned. */
  method Report<Http, Secrets, E>(p: Plan, env: Env, vault: Vault<Http, Secrets, E>, ctx: Context,
                                  http: Http, acquire: Call<Http, Secrets>, token: string,
                                  secrets: Secrets, data: Value)
    returns (r: LookupResult<E>, calls: seq<Call<Http, Secrets>>)
    requires vault.createSecure(p.uri, p.caTrust, p.timeout) == Success(http)
    requires TokenFrom(p, env, vault, http, acquire, token)
    requires vault.httpGet(http, p.uri.path, token) == Success(secrets)
    requires vault.parseData(secrets, p.version) == Success(data)
    ensures RunContract(p, env, vault, ctx, r, calls)
  {
    var steps := [CreateSecure(p.uri, p.caTrust, p.timeout), acquire, HttpGet(http, p.uri.path, token),
                  ParseData(secrets, p.version)];
    var empty := IsEmpty(data);
    if empty.None? {
      return Failed(NoEmptyMethod(data)), steps;
    }
    if empty.value || !data.Hash? {
      if ctx.notFoundThrows {
        return NotFoundSignalled, steps + [NotFound];
      }
      return Found(data), steps + [NotFound, CacheAll(data)];
    }
    return Found(data), steps + [CacheAll(data)];
  }

  /**
   `RunContract` leaves nothing open: for a given plan, environment, set of
   helpers and context there is only one result and one sequence of calls
   that meet it, and `Run` produces them.
   */
  lemma RunContractDetermines<Http, Secrets, E>(p: Plan, env: Env, vault: Vault<Http, Secrets, E>, ctx: Context,
                                                r1: LookupResult<E>, calls1: seq<Call<Http, Secrets>>,
                                                r2: LookupResult<E>, calls2: seq<Call<Http, Secrets>>)
    requires RunContract(p, env, vault, ctx, r1, calls1)
    requires RunContract(p, env, vault, ctx, r2, calls2)
    ensures r1 == r2 && calls1 == calls2
  {
  }

  /**
   `vault_hiera_hash(options, context)`: returns its result and the calls it
   made, in the order made.
   */
  method Lookup<Http, Secrets, E>(options: Options, env: Env, vault: Vault<Http, Secrets, E>, ctx: Context)
    returns (r: LookupResult<E>, calls: seq<Call<Http, Secrets>>)
    // every check comes before any call
    ensures Validate(options, env).Rejected? <==> r.Failed? && r.failure.Config?
    ensures Validate(options, env).Rejected? ==>
      r == Failed(Config(Validate(options, env).failed)) && calls == []
    ensures Validate(options, env).Accepted? ==>
      RunContract(Validate(options, env).plan, env, vault, ctx, r, calls)
    // vault_get_token is called only without 'token_file', with the slash-free 'auth_path'
    ensures |calls| > 1 ==> (calls[1].GetToken? <==> Str("token_file") !in options)
    ensures |calls| > 1 && calls[1].GetToken? ==>
      Get(options, Str("auth_path")).Str? && calls[1].mount == Delete(Get(options, Str("auth_path")).s, '/')
    // the envelope is parsed as v2 exactly when options['version'] == 'v2'
    ensures |calls| > 3 ==>
      calls[3].ParseData? && (calls[3].version == V2 <==> Get(options, Str("version")) == Str("v2"))
  {
    var v := Validate(options, env);
    if v.Rejected? {
      return Failed(Config(v.failed)), [];
    }
    AcceptedPlan(options, env);
    r, calls := Run(v.plan, env, vault, ctx);
  }
}
