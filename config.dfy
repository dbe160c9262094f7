/** The migrators' shared configuration: defaults, the three layers that
    override them (a configuration file, then the command line, then the
    environment), validation of the four required settings, and the HTTP
    headers built from the tokens. The configuration file, the parsed
    command line and the environment are given as maps. */
module AppConfig {
  import opened Json

  /** Every setting of a `Config` object, as a value. */
  datatype Settings = Settings(
    sourceToken: string,
    sourceUrl: string,
    targetToken: string,
    targetUrl: string,
    verifySsl: bool,
    eventsSource: string,
    eventsFilePath: string,
    defaultOwnerId: Option<string>,
    onDuplicate: string,
    maxConcurrentRequests: int,
    rateLimitPerSecond: int,
    requestTimeout: int,
    retryAttempts: int)

  /** An INI file as `configparser` reads it: section name to option name
      (already lower-cased) to the option's text. */
  type IniFile = map<string, map<string, string>>

  /** The options the command line parser hands to `from_args`; an absent
      option is None, and `--no-verify-ssl` is a flag. */
  datatype CliArgs = CliArgs(
    configFile: Option<string>,
    sourceToken: Option<string>,
    sourceUrl: Option<string>,
    targetToken: Option<string>,
    targetUrl: Option<string>,
    noVerifySsl: bool,
    eventsSource: Option<string>,
    eventsFilePath: Option<string>,
    defaultOwnerId: Option<string>,
    onDuplicate: Option<string>,
    maxConcurrent: Option<int>,
    rateLimit: Option<int>,
    requestTimeout: Option<int>,
    retryAttempts: Option<int>)

  /** Every environment variable the loader reads starts with this. */
  const EnvPrefix := "EVENTS_MIGRATOR_"

  predicate IsDigit(c: char) { '0' <= c <= '9' }

  predicate AllDigits(s: string) {
    forall i :: 0 <= i < |s| ==> IsDigit(s[i])
  }

  /** What may follow the first digit of a base-10 literal: digits, each
      possibly preceded by a single underscore, as Python's `int()` accepts. */
  predicate DigitGroups(s: string) {
    s == [] ||
    (IsDigit(s[0]) && DigitGroups(s[1..])) ||
    (s[0] == '_' && |s| > 1 && IsDigit(s[1]) && DigitGroups(s[2..]))
  }

  /** A base-10 literal: a digit, then digit groups. */
  predicate DecimalLiteral(s: string) {
    s != [] && IsDigit(s[0]) && DigitGroups(s[1..])
  }

  lemma {:induction false} AllDigitsGroups(s: string)
    requires AllDigits(s)
    ensures DigitGroups(s)
  {
    if s != [] {
      assert AllDigits(s[1..]) by {
        forall i | 0 <= i < |s[1..]| ensures IsDigit(s[1..][i]) {
          assert s[1..][i] == s[i + 1];
        }
      }
      AllDigitsGroups(s[1..]);
    }
  }

  /** The value of a digit string, underscores ignored. */
  function DigitsValue(s: string): nat {
    if s == [] then 0
    else if IsDigit(s[|s| - 1]) then 10 * DigitsValue(s[..|s| - 1]) + (s[|s| - 1] as int - '0' as int)
    else DigitsValue(s[..|s| - 1])
  }

  /** One optional sign in front of a literal: whether it is a minus, and
      the rest. */
  function SplitSign(t: string): (bool, string) {
    if t != [] && (t[0] == '-' || t[0] == '+') then (t[0] == '-', t[1..]) else (false, t)
  }

  /** Python's `int(text)`: surrounding blanks, one optional sign, then a
      decimal literal; anything else raises ValueError. */
  function ParseInt(text: string): (r: Result<int>)
    ensures r.Ok? ==> exists body :: DecimalLiteral(body) && (r.value == DigitsValue(body) || r.value == 0 - DigitsValue(body))
  {
    var (negative, body) := SplitSign(Strip(text));
    if DecimalLiteral(body) then Ok(if negative then 0 - DigitsValue(body) else DigitsValue(body))
    else Raised("ValueError: invalid literal for int() with base 10")
  }

  /** `str(n)` for an integer. */
  function IntText(n: int): string {
    if n < 0 then "-" + NatToDecimal(-n) else NatToDecimal(n)
  }

  lemma DigitCharIsDigit(d: nat)
    requires d < 10
    ensures IsDigit(DigitChar(d)) && DigitChar(d) as int - '0' as int == d
  {
    assert "0123456789"[d] as int == '0' as int + d;
  }

  /** Decimal digits read back as the number they spell. */
  lemma {:induction false} NatToDecimalValue(n: nat)
    ensures AllDigits(NatToDecimal(n)) && DigitsValue(NatToDecimal(n)) == n
    decreases n
  {
    if n < 10 {
      DigitCharIsDigit(n);
    } else {
      NatToDecimalValue(n / 10);
      DigitCharIsDigit(n % 10);
      var s := NatToDecimal(n / 10) + [DigitChar(n % 10)];
      assert s[..|s| - 1] == NatToDecimal(n / 10);
      assert forall i :: 0 <= i < |s| - 1 ==> s[i] == NatToDecimal(n / 10)[i];
    }
  }

  lemma StripDigits(s: string)
    requires s != [] && forall i :: 0 <= i < |s| ==> IsDigit(s[i]) || (i == 0 && s[0] == '-')
    ensures Strip(s) == s
  {
  }

  /** A run of digits with at most a leading minus sign has no blanks to
      strip, and its sign is read off as written. */
  lemma SignedDigits(t: string, negative: bool, body: string)
    requires t == (if negative then "-" else "") + body
    requires body != [] && AllDigits(body)
    ensures Strip(t) == t && SplitSign(t) == (negative, body)
  {
    forall i | 0 <= i < |t| ensures IsDigit(t[i]) || (i == 0 && t[0] == '-') {
      if negative && i > 0 {
        assert t[i] == body[i - 1];
      }
    }
    StripDigits(t);
    if negative {
      assert t[0] == '-' && t[1..] == body;
    } else {
      assert t == body && IsDigit(t[0]);
    }
  }

  /** `int()` of a run of digits with at most a leading minus sign. */
  lemma ParseIntOfLiteral(t: string, negative: bool, body: string)
    requires t == (if negative then "-" else "") + body
    requires body != [] && AllDigits(body)
    ensures ParseInt(t) == Ok(if negative then 0 - DigitsValue(body) else DigitsValue(body))
  {
    SignedDigits(t, negative, body);
    assert AllDigits(body[1..]) by {
      forall i | 0 <= i < |body[1..]| ensures IsDigit(body[1..][i]) {
        assert body[1..][i] == body[i + 1];
      }
    }
    AllDigitsGroups(body[1..]);
  }

  /** `int(str(n)) == n` for every integer. */
  lemma ParseIntRoundTrip(n: int)
    ensures ParseInt(IntText(n)) == Ok(n)
  {
    var m: nat := if n < 0 then -n else n;
    NatToDecimalValue(m);
    ParseIntOfLiteral(IntText(n), n < 0, NatToDecimal(m));
  }

  /** `configparser`'s `getboolean`. */
  function BooleanState(text: string): (r: Result<bool>)
    ensures r == Ok(true) <==> Lower(text) in {"1", "yes", "true", "on"}
    ensures r == Ok(false) <==> Lower(text) in {"0", "no", "false", "off"}
  {
    var v := Lower(text);
    if v in {"1", "yes", "true", "on"} then Ok(true)
    else if v in {"0", "no", "false", "off"} then Ok(false)
    else Raised("ValueError: Not a boolean: " + text)
  }

  /** The settings a fresh `Config()` starts from. */
  const Defaults := Settings("", "", "", "", true, "api", "source_events.json", None, "ask", 10, 50, 30, 3)

  /** The settings one layer (file, command line or environment) names,
      each None where the layer leaves the setting alone. */
  datatype Overrides = Overrides(
    sourceToken: Option<string>,
    sourceUrl: Option<string>,
    targetToken: Option<string>,
    targetUrl: Option<string>,
    verifySsl: Option<bool>,
    eventsSource: Option<string>,
    eventsFilePath: Option<string>,
    defaultOwnerId: Option<string>,
    onDuplicate: Option<string>,
    maxConcurrentRequests: Option<int>,
    rateLimitPerSecond: Option<int>,
    requestTimeout: Option<int>,
    retryAttempts: Option<int>)

  const NoOverrides := Overrides(None, None, None, None, None, None, None, None, None, None, None, None, None)

  /** A named value replaces the current one. */
  function Pick<T>(o: Option<T>, current: T): T {
    if o.Some? then o.value else current
  }

  /** Applying a layer on top of the settings so far. */
  function Overlay(s: Settings, o: Overrides): Settings {
    Settings(Pick(o.sourceToken, s.sourceToken), Pick(o.sourceUrl, s.sourceUrl),
             Pick(o.targetToken, s.targetToken), Pick(o.targetUrl, s.targetUrl),
             Pick(o.verifySsl, s.verifySsl), Pick(o.eventsSource, s.eventsSource),
             Pick(o.eventsFilePath, s.eventsFilePath),
             if o.defaultOwnerId.Some? then o.defaultOwnerId else s.defaultOwnerId,
             Pick(o.onDuplicate, s.onDuplicate),
             Pick(o.maxConcurrentRequests, s.maxConcurrentRequests), Pick(o.rateLimitPerSecond, s.rateLimitPerSecond),
             Pick(o.requestTimeout, s.requestTimeout), Pick(o.retryAttempts, s.retryAttempts))
  }

  /** An option of a section, when both exist. */
  function IniValue(file: IniFile, section: string, key: string): Option<string> {
    if section in file && key in file[section] then Some(file[section][key]) else None
  }

  /** An optional text converted by `int()`; the conversion may raise. */
  function IntValue(o: Option<string>): Result<Option<int>> {
    if o.None? then Ok(None)
    else match ParseInt(o.value)
      case Raised(e) => Raised(e)
      case Ok(n) => Ok(Some(n))
  }

  /** The four numeric settings, converted in the source's order: max
      concurrency, rate limit, timeout, retries; the first bad value raises. */
  function IntValues(a: Option<string>, b: Option<string>, c: Option<string>, d: Option<string>): Result<seq<Option<int>>> {
    match IntValue(a)
    case Raised(e) => Raised(e)
    case Ok(x) =>
      match IntValue(b)
      case Raised(e) => Raised(e)
      case Ok(y) =>
        match IntValue(c)
        case Raised(e) => Raised(e)
        case Ok(z) =>
          match IntValue(d)
          case Raised(e) => Raised(e)
          case Ok(w) => Ok([x, y, z, w])
  }

  /** What `load_from_file` takes from a file that exists: `[source]` token
      and url, `[target]` token and url, and the `[general]` options, with
      `verify_ssl` read by `getboolean` and the numbers by `getint`; the first
      value that does not convert raises ValueError. */
  function FileOverrides(f: IniFile): Result<Overrides> {
    var ssl := IniValue(f, "general", "verify_ssl");
    var verify: Result<Option<bool>> :=
      if ssl.None? then Ok(None)
      else (match BooleanState(ssl.value) case Raised(e) => Raised(e) case Ok(b) => Ok(Some(b)));
    match verify
    case Raised(e) => Raised(e)
    case Ok(v) =>
      match IntValues(IniValue(f, "general", "max_concurrent_requests"), IniValue(f, "general", "rate_limit_per_second"),
                      IniValue(f, "general", "request_timeout"), IniValue(f, "general", "retry_attempts"))
      case Raised(e) => Raised(e)
      case Ok(n) =>
        Ok(Overrides(IniValue(f, "source", "token"), IniValue(f, "source", "url"),
                     IniValue(f, "target", "token"), IniValue(f, "target", "url"),
                     v, IniValue(f, "general", "events_source"), IniValue(f, "general", "events_file_path"),
                     IniValue(f, "general", "default_owner_id"), IniValue(f, "general", "on_duplicate"),
                     n[0], n[1], n[2], n[3]))
  }

  predicate TruthyText(o: Option<string>) { o.Some? && o.value != "" }
  predicate TruthyInt(o: Option<int>) { o.Some? && o.value != 0 }

  function IfTruthy(o: Option<string>): Option<string> { if TruthyText(o) then o else None }
  function IfNonZero(o: Option<int>): Option<int> { if TruthyInt(o) then o else None }

  /** What the command line overrides: only truthy values (a non-empty
      string, a non-zero number), and `--no-verify-ssl` only switches
      verification off. */
  function CliOverrides(a: CliArgs): Overrides {
    Overrides(IfTruthy(a.sourceToken), IfTruthy(a.sourceUrl), IfTruthy(a.targetToken), IfTruthy(a.targetUrl),
              if a.noVerifySsl then Some(false) else None,
              IfTruthy(a.eventsSource), IfTruthy(a.eventsFilePath), IfTruthy(a.defaultOwnerId), IfTruthy(a.onDuplicate),
              IfNonZero(a.maxConcurrent), IfNonZero(a.rateLimit), IfNonZero(a.requestTimeout), IfNonZero(a.retryAttempts))
  }

  /** An environment variable, when set. */
  function Env(env: map<string, string>, name: string): Option<string> {
    if name in env then Some(env[name]) else None
  }

  /** The variable `EVENTS_MIGRATOR_<name>`, when set. */
  function Var(env: map<string, string>, name: string): Option<string> {
    Env(env, EnvPrefix + name)
  }

  /** What `load_from_env` takes: every `EVENTS_MIGRATOR_*` variable that is
      set; `VERIFY_SSL` means false exactly when it reads "false" in any
      case; the numbers go through `int()`, the first bad one raising. */
  function EnvOverrides(env: map<string, string>): Result<Overrides> {
    match IntValues(Var(env, "MAX_CONCURRENT"), Var(env, "RATE_LIMIT"),
                    Var(env, "REQUEST_TIMEOUT"), Var(env, "RETRY_ATTEMPTS"))
    case Raised(e) => Raised(e)
    case Ok(n) =>
      Ok(Overrides(Var(env, "SOURCE_TOKEN"), Var(env, "SOURCE_URL"),
                   Var(env, "TARGET_TOKEN"), Var(env, "TARGET_URL"),
                   if Var(env, "VERIFY_SSL").Some? then Some(Lower(Var(env, "VERIFY_SSL").value) != "false") else None,
                   Var(env, "EVENTS_SOURCE"), Var(env, "EVENTS_FILE_PATH"),
                   Var(env, "DEFAULT_OWNER_ID"), Var(env, "ON_DUPLICATE"),
                   n[0], n[1], n[2], n[3]))
  }

  /** The file layer of `from_args`: read only when `--config-file` is
      truthy, and a path that does not exist raises FileNotFoundError. */
  function FileLayer(a: CliArgs, files: map<string, IniFile>): Result<Overrides> {
    if !TruthyText(a.configFile) then Ok(NoOverrides)
    else if a.configFile.value !in files then Raised("FileNotFoundError: Configuration file not found: " + a.configFile.value)
    else FileOverrides(files[a.configFile.value])
  }

  /** `Config.from_args`: the defaults, overlaid by the file, then by the
      command line, then by the environment. */
  function FromArgsSpec(a: CliArgs, files: map<string, IniFile>, env: map<string, string>): Result<Settings> {
    match FileLayer(a, files)
    case Raised(e) => Raised(e)
    case Ok(file) =>
      match EnvOverrides(env)
      case Raised(e) => Raised(e)
      case Ok(vars) => Ok(Overlay(Overlay(Overlay(Defaults, file), CliOverrides(a)), vars))
  }

  /** `validate`: the message for the first empty required setting, in the
      order source token, source URL, target token, target URL. */
  function ValidationError(s: Settings): (r: Option<string>)
    ensures r.None? <==> s.sourceToken != "" && s.sourceUrl != "" && s.targetToken != "" && s.targetUrl != ""
    ensures r == Some("Source API token is required") <==> s.sourceToken == ""
    ensures r == Some("Source backend URL is required") <==> s.sourceToken != "" && s.sourceUrl == ""
    ensures r == Some("Target API token is required") <==> s.sourceToken != "" && s.sourceUrl != "" && s.targetToken == ""
    ensures r == Some("Target backend URL is required") <==>
      s.sourceToken != "" && s.sourceUrl != "" && s.targetToken != "" && s.targetUrl == ""
  {
    if s.sourceToken == "" then Some("Source API token is required")
    else if s.sourceUrl == "" then Some("Source backend URL is required")
    else if s.targetToken == "" then Some("Target API token is required")
    else if s.targetUrl == "" then Some("Target backend URL is required")
    else None
  }

  const AuthPrefix := "apiToken "

  /** The request headers for a backend, from that backend's token. */
  function Headers(token: string): (h: map<string, string>)
    ensures h.Keys == {"Authorization", "Content-Type"}
    ensures h["Content-Type"] == "application/json"
    ensures |h["Authorization"]| == |AuthPrefix| + |token| && h["Authorization"][..|AuthPrefix|] == AuthPrefix
  {
    map["Authorization" := AuthPrefix + token, "Content-Type" := "application/json"]
  }

  /** The token an Authorization header carries. */
  function TokenOf(h: map<string, string>): Option<string> {
    if "Authorization" in h && |h["Authorization"]| >= |AuthPrefix| && h["Authorization"][..|AuthPrefix|] == AuthPrefix
    then Some(h["Authorization"][|AuthPrefix|..])
    else None
  }

  /** The headers carry exactly the token they were built from, so the
      source and target headers differ whenever the tokens do. */
  lemma HeadersCarryToken(token: string)
    ensures TokenOf(Headers(token)) == Some(token)
  {
    assert (AuthPrefix + token)[|AuthPrefix|..] == token;
  }

  /** `get_source_headers` */
  function SourceHeaders(s: Settings): map<string, string> { Headers(s.sourceToken) }

  /** `get_target_headers` */
  function TargetHeaders(s: Settings): map<string, string> { Headers(s.targetToken) }

  /** A file that loads sets `verify_ssl` exactly when it names it, to what
      `getboolean` reads. */
  lemma FileVerifySsl(f: IniFile)
    requires FileOverrides(f).Ok?
    ensures FileOverrides(f).value.verifySsl ==
      if IniValue(f, "general", "verify_ssl").Some? then Some(BooleanState(f["general"]["verify_ssl"]) == Ok(true)) else None
  {
  }

  /** The source token in force after `from_args`: the environment's if set,
      else a non-empty command-line value, else the file's, else "". */
  lemma SourceTokenPrecedence(a: CliArgs, files: map<string, IniFile>, env: map<string, string>)
    requires FromArgsSpec(a, files, env).Ok?
    ensures FromArgsSpec(a, files, env).value.sourceToken ==
      if Var(env, "SOURCE_TOKEN").Some? then Var(env, "SOURCE_TOKEN").value
      else if TruthyText(a.sourceToken) then a.sourceToken.value
      else if TruthyText(a.configFile) && IniValue(files[a.configFile.value], "source", "token").Some?
      then files[a.configFile.value]["source"]["token"]
      else ""
  {
    var file := FileLayer(a, files).value;
    var vars := EnvOverrides(env).value;
    assert FromArgsSpec(a, files, env).value == Overlay(Overlay(Overlay(Defaults, file), CliOverrides(a)), vars);
  }

  /** Certificate verification after `from_args`: the environment decides
      when set (off exactly for "false" in any case), else the command-line
      flag switches it off, else the file's `verify_ssl`, else on. */
  lemma VerifySslPrecedence(a: CliArgs, files: map<string, IniFile>, env: map<string, string>)
    requires FromArgsSpec(a, files, env).Ok?
    ensures FromArgsSpec(a, files, env).value.verifySsl ==
      if Var(env, "VERIFY_SSL").Some? then Lower(Var(env, "VERIFY_SSL").value) != "false"
      else if a.noVerifySsl then false
      else if TruthyText(a.configFile) && IniValue(files[a.configFile.value], "general", "verify_ssl").Some?
      then BooleanState(files[a.configFile.value]["general"]["verify_ssl"]) == Ok(true)
      else true
  {
    var file := FileLayer(a, files).value;
    var vars := EnvOverrides(env).value;
    assert FromArgsSpec(a, files, env).value == Overlay(Overlay(Overlay(Defaults, file), CliOverrides(a)), vars);
    if TruthyText(a.configFile) {
      FileVerifySsl(files[a.configFile.value]);
    }
  }

  /** The rate limit after `from_args`: a set variable that `int()` accepts,
      else a non-zero command-line value, else the file's, else 50. */
  lemma RateLimitPrecedence(a: CliArgs, files: map<string, IniFile>, env: map<string, string>)
    requires FromArgsSpec(a, files, env).Ok?
    ensures Var(env, "RATE_LIMIT").Some? ==>
      ParseInt(Var(env, "RATE_LIMIT").value) == Ok(FromArgsSpec(a, files, env).value.rateLimitPerSecond)
    ensures Var(env, "RATE_LIMIT").None? && TruthyInt(a.rateLimit) ==>
      FromArgsSpec(a, files, env).value.rateLimitPerSecond == a.rateLimit.value
    ensures Var(env, "RATE_LIMIT").None? && !TruthyInt(a.rateLimit) && !TruthyText(a.configFile) ==>
      FromArgsSpec(a, files, env).value.rateLimitPerSecond == 50
  {
    var file := FileLayer(a, files).value;
    var vars := EnvOverrides(env).value;
    assert FromArgsSpec(a, files, env).value == Overlay(Overlay(Overlay(Defaults, file), CliOverrides(a)), vars);
  }

  /** A command line whose every value is absent or falsy changes nothing. */
  lemma FalsyCliKeepsEarlier(s: Settings, a: CliArgs)
    requires !a.noVerifySsl
    requires !TruthyText(a.sourceToken) && !TruthyText(a.sourceUrl) && !TruthyText(a.targetToken) && !TruthyText(a.targetUrl)
    requires !TruthyText(a.eventsSource) && !TruthyText(a.eventsFilePath) && !TruthyText(a.defaultOwnerId) && !TruthyText(a.onDuplicate)
    requires !TruthyInt(a.maxConcurrent) && !TruthyInt(a.rateLimit) && !TruthyInt(a.requestTimeout) && !TruthyInt(a.retryAttempts)
    ensures Overlay(s, CliOverrides(a)) == s
  {
  }

  /** An environment without any `EVENTS_MIGRATOR_*` variable changes nothing. */
  lemma EmptyEnvKeepsEarlier(env: map<string, string>)
    requires forall k | k in env :: !(EnvPrefix <= k)
    ensures EnvOverrides(env) == Ok(NoOverrides)
  {
    forall name: string ensures Var(env, name) == None {
      assert EnvPrefix <= EnvPrefix + name;
    }
  }

  /** Without a configuration file the defaults stand under an empty command
      line and environment, and a path that does not exist always fails. */
  lemma FileLayerFacts(a: CliArgs, files: map<string, IniFile>, env: map<string, string>)
    ensures TruthyText(a.configFile) && a.configFile.value !in files ==> FromArgsSpec(a, files, env).Raised?
    ensures forall s: Settings :: Overlay(s, NoOverrides) == s
    ensures FileOverrides(map[]) == Ok(NoOverrides)
  {
  }

  /** A `Config` object: its fields are assigned in place by the loaders. */
  class Config {
    /** The object's attributes, read and assigned together. */
    var settings: Settings

    /** `Config()`: the defaults. */
    constructor ()
      ensures settings == Defaults
    {
      settings := Defaults;
    }

    /** Applying a layer to the object's attributes: each named setting is
        assigned, the others stay. */
    method Apply(o: Overrides)
      modifies this
      ensures settings == Overlay(old(settings), o)
    {
      settings := Overlay(settings, o);
    }

    /** `load_from_file`: FileNotFoundError for a path that does not exist,
        otherwise the file's options, converted and assigned. */
    method LoadFromFile(files: map<string, IniFile>, path: string) returns (err: Option<string>)
      modifies this
      ensures path !in files ==> err.Some? && settings == old(settings)
      ensures path in files ==> (err.None? <==> FileOverrides(files[path]).Ok?)
      ensures path in files && err.None? ==> settings == Overlay(old(settings), FileOverrides(files[path]).value)
    {
      if path !in files {
        return Some("FileNotFoundError: Configuration file not found: " + path);
      }
      var o := FileOverrides(files[path]);
      if o.Raised? {
        return Some(o.error);
      }
      Apply(o.value);
      err := None;
    }

    /** The command-line part of `from_args`. */
    method ApplyCli(a: CliArgs)
      modifies this
      ensures settings == Overlay(old(settings), CliOverrides(a))
    {
      Apply(CliOverrides(a));
    }

    /** `load_from_env` */
    method LoadFromEnv(env: map<string, string>) returns (err: Option<string>)
      modifies this
      ensures err.None? <==> EnvOverrides(env).Ok?
      ensures err.None? ==> settings == Overlay(old(settings), EnvOverrides(env).value)
    {
      var o := EnvOverrides(env);
      if o.Raised? {
        return Some(o.error);
      }
      Apply(o.value);
      err := None;
    }
  }

  /** `Config.from_args` on an already parsed command line. */
  method FromArgs(a: CliArgs, files: map<string, IniFile>, env: map<string, string>) returns (config: Config, err: Option<string>)
    ensures fresh(config)
    ensures err.None? <==> FromArgsSpec(a, files, env).Ok?
    ensures err.None? ==> config.settings == FromArgsSpec(a, files, env).value
  {
    config := new Config();
    var file := FileLayer(a, files);
    if TruthyText(a.configFile) {
      err := config.LoadFromFile(files, a.configFile.value);
      if err.Some? {
        assert file.Raised?;
        return;
      }
    }
    assert file.Ok? && config.settings == Overlay(Defaults, file.value);
    config.ApplyCli(a);
    err := config.LoadFromEnv(env);
  }
}
