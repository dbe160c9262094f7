/** The command-line entry point (`cli.py`): a sub-command names the
    migrator; the options it was given are turned back into an argument
    list for the configuration loader; the process exits with 0 exactly
    when the migrator moved something. */
module Cli {
  import opened Json
  import opened Tally
  import AppConfig
  import CustomEvents
  import AlertChannels
  import AlertConfigs
  import DashboardsAsync
  import DashboardsSync

  /** A value in the `argparse` namespace: an option left out, a switch, or
      the text given for an option. */
  datatype ArgValue = ANone | ABool(b: bool) | AStr(s: string)

  /** `vars(args).items()`, in order. */
  type Namespace = seq<(string, ArgValue)>

  function DashChar(c: char): char {
    if c == '_' then '-' else c
  }

  /** `key.replace("_", "-")` */
  function Dash(k: string): string {
    seq(|k|, i requires 0 <= i < |k| => DashChar(k[i]))
  }

  function Flag(k: string): string {
    "--" + Dash(k)
  }

  /** What one namespace entry appends to `arg_list`: nothing for the
      command, an absent value or a false switch; the flag for a true
      switch; the flag and the text otherwise. */
  function ItemArgs(item: (string, ArgValue)): seq<string> {
    if item.0 == "command" then []
    else match item.1
      case ANone => []
      case ABool(b) => if b then [Flag(item.0)] else []
      case AStr(s) => [Flag(item.0), s]
  }

  function ArgListOf(ns: Namespace): seq<string> {
    if ns == [] then [] else ItemArgs(ns[0]) + ArgListOf(ns[1..])
  }

  lemma {:induction false} ArgListSnoc(ns: Namespace, item: (string, ArgValue))
    ensures ArgListOf(ns + [item]) == ArgListOf(ns) + ItemArgs(item)
  {
    if ns == [] {
      assert [item][1..] == [];
    } else {
      assert (ns + [item])[0] == ns[0];
      assert (ns + [item])[1..] == ns[1..] + [item];
      ArgListSnoc(ns[1..], item);
    }
  }

  /** The `for key, value in vars(args).items()` loop, as the source writes it. */
  method ArgList(ns: Namespace) returns (argList: seq<string>)
    ensures argList == ArgListOf(ns)
  {
    argList := [];
    var i := 0;
    while i < |ns|
      invariant 0 <= i <= |ns|
      invariant argList == ArgListOf(ns[..i])
    {
      var key := ns[i].0;
      var value := ns[i].1;
      ArgListSnoc(ns[..i], ns[i]);
      assert ns[..i + 1] == ns[..i] + [ns[i]];
      if key != "command" && !value.ANone? {
        if value.ABool? {
          if value.b {
            argList := argList + ["--" + Dash(key)];
          }
        } else {
          argList := argList + ["--" + Dash(key), value.s];
        }
      }
      i := i + 1;
    }
    assert ns[..i] == ns;
  }

  /** The namespace `Config.from_args` starts from: every option unset. */
  const Unset: AppConfig.CliArgs :=
    AppConfig.CliArgs(None, None, None, None, None, false, None, None, None, None, None, None, None, None)

  /** `type=int`: the text must read as an integer. */
  function IntOption(v: string): Option<Option<int>> {
    match AppConfig.ParseInt(v)
    case Ok(n) => Some(Some(n))
    case Raised(_) => None
  }

  /** One option of `Config.from_args` that takes a value: the attribute it
      sets, or None when the flag is not declared or the value is not one of
      its `choices` or not an integer where one is wanted. */
  function SetOption(a: AppConfig.CliArgs, flag: string, v: string): Option<AppConfig.CliArgs> {
    if flag == "--source-token" then Some(a.(sourceToken := Some(v)))
    else if flag == "--source-url" then Some(a.(sourceUrl := Some(v)))
    else if flag == "--target-token" then Some(a.(targetToken := Some(v)))
    else if flag == "--target-url" then Some(a.(targetUrl := Some(v)))
    else if flag == "--config-file" then Some(a.(configFile := Some(v)))
    else if flag == "--events-source" then
      if v == "api" || v == "file" then Some(a.(eventsSource := Some(v))) else None
    else if flag == "--events-file-path" then Some(a.(eventsFilePath := Some(v)))
    else if flag == "--default-owner-id" then Some(a.(defaultOwnerId := Some(v)))
    else if flag == "--on-duplicate" then
      if v == "skip" || v == "update" || v == "cancel" then Some(a.(onDuplicate := Some(v))) else None
    else if flag == "--max-concurrent" then
      match IntOption(v) case None => None case Some(n) => Some(a.(maxConcurrent := n))
    else if flag == "--rate-limit" then
      match IntOption(v) case None => None case Some(n) => Some(a.(rateLimit := n))
    else if flag == "--request-timeout" then
      match IntOption(v) case None => None case Some(n) => Some(a.(requestTimeout := n))
    else if flag == "--retry-attempts" then
      match IntOption(v) case None => None case Some(n) => Some(a.(retryAttempts := n))
    else None
  }

  /** `parser.parse_args(args)` in `Config.from_args`: the one switch stands
      alone, every other option takes the next word, a later occurrence
      overrides an earlier one; None is an `argparse` error. */
  function Parse(argv: seq<string>, a: AppConfig.CliArgs): Option<AppConfig.CliArgs>
    decreases |argv|
  {
    if argv == [] then Some(a)
    else if argv[0] == "--no-verify-ssl" then Parse(argv[1..], a.(noVerifySsl := true))
    else if |argv| < 2 then None
    else
      match SetOption(a, argv[0], argv[1])
      case None => None
      case Some(a') => Parse(argv[2..], a')
  }

  /** What storing one namespace entry does to the loader's namespace. */
  function ItemStore(item: (string, ArgValue), a: AppConfig.CliArgs): Option<AppConfig.CliArgs> {
    if item.0 == "command" then Some(a)
    else match item.1
      case ANone => Some(a)
      case ABool(b) => if b then Some(a.(noVerifySsl := true)) else Some(a)
      case AStr(s) => SetOption(a, Flag(item.0), s)
  }

  /** Storing the entries in order; the first that cannot be stored stops. */
  function Stored(ns: Namespace, a: AppConfig.CliArgs): Option<AppConfig.CliArgs>
    decreases |ns|
  {
    if ns == [] then Some(a)
    else
      match ItemStore(ns[0], a)
      case None => None
      case Some(a') => Stored(ns[1..], a')
  }

  /** The only switch in the namespace is `no_verify_ssl`, and no option with
      text is spelt like it. */
  predicate ItemDeclared(item: (string, ArgValue)) {
    item.0 != "command" ==>
      (item.1 == ABool(true) ==> Flag(item.0) == "--no-verify-ssl") &&
      (item.1.AStr? ==> Flag(item.0) != "--no-verify-ssl")
  }

  /** Reading one entry's words in front of the rest. */
  lemma ParseItem(item: (string, ArgValue), tail: seq<string>, a: AppConfig.CliArgs)
    requires ItemDeclared(item)
    ensures Parse(ItemArgs(item) + tail, a) ==
      match ItemStore(item, a)
      case None => None
      case Some(a') => Parse(tail, a')
  {
    if item.0 != "command" {
      match item.1 {
        case ANone =>
          assert ItemArgs(item) + tail == tail;
        case ABool(b) =>
          if b {
            assert (ItemArgs(item) + tail)[1..] == tail;
          } else {
            assert ItemArgs(item) + tail == tail;
          }
        case AStr(s) =>
          assert (ItemArgs(item) + tail)[2..] == tail;
      }
    } else {
      assert ItemArgs(item) + tail == tail;
    }
  }

  /** Reading the argument list back is storing the namespace it was built
      from, entry by entry. */
  lemma {:induction false} ParseArgList(ns: Namespace, a: AppConfig.CliArgs)
    requires forall i :: 0 <= i < |ns| ==> ItemDeclared(ns[i])
    ensures Parse(ArgListOf(ns), a) == Stored(ns, a)
    decreases |ns|
  {
    if ns != [] {
      assert ItemDeclared(ns[0]);
      ParseItem(ns[0], ArgListOf(ns[1..]), a);
      match ItemStore(ns[0], a) {
        case None =>
        case Some(a') =>
          assert forall i :: 0 <= i < |ns[1..]| ==> ItemDeclared(ns[1..][i]) by {
            forall i | 0 <= i < |ns[1..]|
              ensures ItemDeclared(ns[1..][i])
            {
              assert ns[1..][i] == ns[i + 1];
            }
          }
          ParseArgList(ns[1..], a');
      }
    }
  }

  /** The sub-commands. */
  datatype Command = Events | Channels | Configs | CustomDashboards

  function CommandName(c: Command): string {
    match c
    case Events => "events"
    case Channels => "channels"
    case Configs => "configs"
    case CustomDashboards => "custom-dashboards"
  }

  /** What `parser.parse_args()` gives: the sub-command (None when there is
      none) and its options. Only `custom-dashboards` has the owner and
      duplicate options. */
  datatype Parsed = Parsed(
    command: Option<Command>,
    configFile: Option<string>,
    sourceToken: Option<string>,
    sourceUrl: Option<string>,
    targetToken: Option<string>,
    targetUrl: Option<string>,
    noVerifySsl: bool,
    eventsSource: Option<string>,
    eventsFilePath: Option<string>,
    defaultOwnerId: Option<string>,
    onDuplicate: Option<string>)

  /** The `choices` the sub-command parsers enforce. */
  predicate WithinChoices(p: Parsed) {
    (p.eventsSource.Some? ==> p.eventsSource.value == "api" || p.eventsSource.value == "file") &&
    (p.onDuplicate.Some? ==> p.onDuplicate.value == "skip" || p.onDuplicate.value == "update" || p.onDuplicate.value == "cancel")
  }

  function Text(o: Option<string>): ArgValue {
    match o
    case None => ANone
    case Some(s) => AStr(s)
  }

  /** `vars(args)` for a parsed command line: the options every command
      declares, then those only `custom-dashboards` declares. */
  function NamespaceOf(p: Parsed): Namespace
    requires p.command.Some?
  {
    [("command", AStr(CommandName(p.command.value)))] +
    ([("config_file", Text(p.configFile))] +
    ([("source_token", Text(p.sourceToken))] +
    ([("source_url", Text(p.sourceUrl))] +
    ([("target_token", Text(p.targetToken))] +
    ([("target_url", Text(p.targetUrl))] +
    ([("no_verify_ssl", ABool(p.noVerifySsl))] +
    ([("events_source", Text(p.eventsSource))] +
    ([("events_file_path", Text(p.eventsFilePath))] +
    DashboardOptions(p)))))))))
  }

  function DashboardOptions(p: Parsed): Namespace
    requires p.command.Some?
  {
    if p.command.value == CustomDashboards
    then [("default_owner_id", Text(p.defaultOwnerId))] + ([("on_duplicate", Text(p.onDuplicate))] + [])
    else []
  }

  /** What the loader should see: every option the user gave, the
      dashboard-only ones only for `custom-dashboards`, and none of the
      integer options. */
  function Intended(p: Parsed): AppConfig.CliArgs
    requires p.command.Some?
  {
    var dashboards := p.command.value == CustomDashboards;
    AppConfig.CliArgs(
      p.configFile, p.sourceToken, p.sourceUrl, p.targetToken, p.targetUrl, p.noVerifySsl,
      p.eventsSource, p.eventsFilePath,
      if dashboards then p.defaultOwnerId else None,
      if dashboards then p.onDuplicate else None,
      None, None, None, None)
  }

  lemma FlagConfigFile() ensures Flag("config_file") == "--config-file" {}
  lemma FlagSourceToken() ensures Flag("source_token") == "--source-token" {}
  lemma FlagSourceUrl() ensures Flag("source_url") == "--source-url" {}
  lemma FlagTargetToken() ensures Flag("target_token") == "--target-token" {}
  lemma FlagTargetUrl() ensures Flag("target_url") == "--target-url" {}
  lemma FlagNoVerifySsl() ensures Flag("no_verify_ssl") == "--no-verify-ssl" {}
  lemma FlagEventsSource() ensures Flag("events_source") == "--events-source" {}
  lemma FlagEventsFilePath() ensures Flag("events_file_path") == "--events-file-path" {}
  lemma FlagDefaultOwnerId() ensures Flag("default_owner_id") == "--default-owner-id" {}
  lemma FlagOnDuplicate() ensures Flag("on_duplicate") == "--on-duplicate" {}

  lemma StoredCons(x: (string, ArgValue), rest: Namespace, a: AppConfig.CliArgs, a': AppConfig.CliArgs)
    requires ItemStore(x, a) == Some(a')
    ensures Stored([x] + rest, a) == Stored(rest, a')
  {
    assert ([x] + rest)[1..] == rest;
  }

  /** Storing an option with text sets exactly that attribute, or leaves the
      namespace alone when the option was not given. */
  lemma StoreText(k: string, o: Option<string>, rest: Namespace, a: AppConfig.CliArgs, a': AppConfig.CliArgs)
    requires k != "command"
    requires o.None? ==> a' == a
    requires o.Some? ==> SetOption(a, Flag(k), o.value) == Some(a')
    ensures Stored([(k, Text(o))] + rest, a) == Stored(rest, a')
  {
    StoredCons((k, Text(o)), rest, a, a');
  }

  lemma StoreDashboardOptions(p: Parsed, a: AppConfig.CliArgs)
    requires p.command.Some? && WithinChoices(p)
    requires a.defaultOwnerId.None? && a.onDuplicate.None?
    ensures Stored(DashboardOptions(p), a) ==
      if p.command.value == CustomDashboards
      then Some(a.(defaultOwnerId := p.defaultOwnerId).(onDuplicate := p.onDuplicate))
      else Some(a)
  {
    if p.command.value == CustomDashboards {
      FlagDefaultOwnerId();
      FlagOnDuplicate();
      var a1 := a.(defaultOwnerId := p.defaultOwnerId);
      StoreText("default_owner_id", p.defaultOwnerId, [("on_duplicate", Text(p.onDuplicate))] + [], a, a1);
      StoreText("on_duplicate", p.onDuplicate, [], a1, a1.(onDuplicate := p.onDuplicate));
    }
  }

  /** The entries every command has, stored one after another. */
  lemma StoreCommonOptions(p: Parsed)
    requires p.command.Some? && WithinChoices(p)
    ensures Stored(NamespaceOf(p), Unset) ==
      Stored(DashboardOptions(p), Unset.(configFile := p.configFile).(sourceToken := p.sourceToken)
        .(sourceUrl := p.sourceUrl).(targetToken := p.targetToken).(targetUrl := p.targetUrl)
        .(noVerifySsl := p.noVerifySsl).(eventsSource := p.eventsSource).(eventsFilePath := p.eventsFilePath))
  {
    FlagConfigFile(); FlagSourceToken(); FlagSourceUrl(); FlagTargetToken(); FlagTargetUrl();
    FlagEventsSource(); FlagEventsFilePath();
    var r8 := DashboardOptions(p);
    var r7 := [("events_file_path", Text(p.eventsFilePath))] + r8;
    var r6 := [("events_source", Text(p.eventsSource))] + r7;
    var r5 := [("no_verify_ssl", ABool(p.noVerifySsl))] + r6;
    var r4 := [("target_url", Text(p.targetUrl))] + r5;
    var r3 := [("target_token", Text(p.targetToken))] + r4;
    var r2 := [("source_url", Text(p.sourceUrl))] + r3;
    var r1 := [("source_token", Text(p.sourceToken))] + r2;
    var r0 := [("config_file", Text(p.configFile))] + r1;
    var a0 := Unset;
    StoredCons(("command", AStr(CommandName(p.command.value))), r0, a0, a0);
    var a1 := a0.(configFile := p.configFile);
    StoreText("config_file", p.configFile, r1, a0, a1);
    var a2 := a1.(sourceToken := p.sourceToken);
    StoreText("source_token", p.sourceToken, r2, a1, a2);
    var a3 := a2.(sourceUrl := p.sourceUrl);
    StoreText("source_url", p.sourceUrl, r3, a2, a3);
    var a4 := a3.(targetToken := p.targetToken);
    StoreText("target_token", p.targetToken, r4, a3, a4);
    var a5 := a4.(targetUrl := p.targetUrl);
    StoreText("target_url", p.targetUrl, r5, a4, a5);
    var a6 := a5.(noVerifySsl := p.noVerifySsl);
    StoredCons(("no_verify_ssl", ABool(p.noVerifySsl)), r6, a5, a6);
    var a7 := a6.(eventsSource := p.eventsSource);
    StoreText("events_source", p.eventsSource, r7, a6, a7);
    var a8 := a7.(eventsFilePath := p.eventsFilePath);
    StoreText("events_file_path", p.eventsFilePath, r8, a7, a8);
  }

  lemma NamespaceDeclared(p: Parsed)
    requires p.command.Some?
    ensures forall i :: 0 <= i < |NamespaceOf(p)| ==> ItemDeclared(NamespaceOf(p)[i])
  {
    FlagConfigFile(); FlagSourceToken(); FlagSourceUrl(); FlagTargetToken(); FlagTargetUrl();
    FlagNoVerifySsl(); FlagEventsSource(); FlagEventsFilePath(); FlagDefaultOwnerId(); FlagOnDuplicate();
  }

  /** The argument list `main` builds is read back by `Config.from_args` as
      exactly the options the user gave. The model's parser takes the word
      after an option as its value whatever it is; argparse would instead
      reject a value that starts with `-`, such as the one `main` rebuilds
      from `--source-token=-abc`. */
  lemma ArgListRoundTrip(p: Parsed)
    requires p.command.Some? && WithinChoices(p)
    ensures Parse(ArgListOf(NamespaceOf(p)), Unset) == Some(Intended(p))
  {
    NamespaceDeclared(p);
    ParseArgList(NamespaceOf(p), Unset);
    StoreCommonOptions(p);
    StoreDashboardOptions(p, Unset.(configFile := p.configFile).(sourceToken := p.sourceToken)
        .(sourceUrl := p.sourceUrl).(targetToken := p.targetToken).(targetUrl := p.targetUrl)
        .(noVerifySsl := p.noVerifySsl).(eventsSource := p.eventsSource).(eventsFilePath := p.eventsFilePath));
  }

  /** How `main` ends: with an exit code, or never (a dashboard run that
      waits forever). */
  datatype Ending = ExitsWith(code: int) | Hangs

  /** `sys.exit(0) if result["migrated"] > 0 or result["updated"] > 0 else
      sys.exit(1)`; a missing key raises KeyError, which the `except
      Exception` turns into 1. */
  function ResultCode(r: map<string, int>): int {
    if "migrated" !in r then 1
    else if r["migrated"] > 0 then 0
    else if "updated" !in r then 1
    else if r["updated"] > 0 then 0
    else 1
  }

  /** An exception gives 1; `sys.exit` inside a migrator is not caught. */
  function EndingOf(o: RunOutcome): Ending {
    match o
    case Finished(r) => ExitsWith(ResultCode(r))
    case Crashed(_) => ExitsWith(1)
    case Exited(code) => ExitsWith(code)
    case Diverges => Hangs
  }

  /** The exit code is 0 exactly when something was migrated or updated, or
      when a migrator itself exited with 0; a result without a `migrated`
      count exits with 1 whatever else it says. */
  lemma ExitZeroIff(o: RunOutcome)
    ensures EndingOf(o) == ExitsWith(0) <==>
      (o.Finished? && "migrated" in o.result &&
        (o.result["migrated"] > 0 || ("updated" in o.result && o.result["updated"] > 0))) ||
      o == Exited(0)
  {
  }

  /** Everything the migrators read, per command. */
  datatype MainIo = MainIo(
    files: map<string, AppConfig.IniFile>,
    env: map<string, string>,
    events: CustomEvents.EventsIo,
    channels: AlertChannels.ChannelIo,
    configs: AlertConfigs.ConfigIo,
    asyncAvailable: bool,
    dashboardsAsync: DashboardsAsync.AsyncIo,
    dashboardsSync: DashboardsSync.SyncIo)

  function Dispatch(c: Command, s: AppConfig.Settings, io: MainIo): RunOutcome {
    match c
    case Events => CustomEvents.EventsRun(s, io.events)
    case Channels => AlertChannels.ChannelRun(s, io.channels)
    case Configs => AlertConfigs.ConfigRun(s, io.configs)
    case CustomDashboards => DashboardsSync.Migrate(io.asyncAvailable, s, io.dashboardsAsync, io.dashboardsSync)
  }

  /** `main`: no command prints the help and exits 1; an argument list the
      loader cannot read exits 2 (`argparse` ends the process); a
      configuration error exits 1; otherwise the migrator's outcome decides. */
  function MainEnding(p: Parsed, io: MainIo): Ending {
    if p.command.None? then ExitsWith(1)
    else
      match Parse(ArgListOf(NamespaceOf(p)), Unset)
      case None => ExitsWith(2)
      case Some(a) =>
        match AppConfig.FromArgsSpec(a, io.files, io.env)
        case Raised(_) => ExitsWith(1)
        case Ok(s) => EndingOf(Dispatch(p.command.value, s, io))
  }

  /** The loader always reads `main`'s argument list as the options given,
      so a command line reaches its migrator with exactly those options, or
      fails on the configuration. */
  lemma MainUsesGivenOptions(p: Parsed, io: MainIo)
    requires p.command.Some? && WithinChoices(p)
    ensures MainEnding(p, io) ==
      match AppConfig.FromArgsSpec(Intended(p), io.files, io.env)
      case Raised(_) => ExitsWith(1)
      case Ok(s) => EndingOf(Dispatch(p.command.value, s, io))
  {
    ArgListRoundTrip(p);
  }

  /** A run with no command prints the help and exits with 1. */
  lemma NoCommandExitsOne(p: Parsed, io: MainIo)
    requires p.command.None?
    ensures MainEnding(p, io) == ExitsWith(1)
  {
  }

  /** A configuration the loader rejects (a `validate` failure, an unreadable
      file or a bad number) exits with 1 whatever the command. */
  lemma ConfigErrorExitsOne(p: Parsed, io: MainIo)
    requires p.command.Some? && WithinChoices(p)
    requires AppConfig.FromArgsSpec(Intended(p), io.files, io.env).Raised?
    ensures MainEnding(p, io) == ExitsWith(1)
  {
    ArgListRoundTrip(p);
  }

  /** The early returns of the events migrator have no `updated` key, and
      they exit with 1 because nothing was migrated. */
  lemma EventsEarlyReturnExitsOne(source: nat)
    ensures EndingOf(Finished(CustomEvents.Unstarted(source))) == ExitsWith(1)
  {
  }

  /** `main`, step by step: the help case, the argument list, the loader,
      then the chosen migrator. */
  method Run(p: Parsed, io: MainIo) returns (ending: Ending)
    ensures ending == MainEnding(p, io)
  {
    if p.command.None? {
      return ExitsWith(1);
    }
    var argList := ArgList(NamespaceOf(p));
    var parsed := Parse(argList, Unset);
    if parsed.None? {
      return ExitsWith(2);
    }
    var config, err := AppConfig.FromArgs(parsed.value, io.files, io.env);
    if err.Some? {
      return ExitsWith(1);
    }
    var s := config.settings;
    var outcome: RunOutcome;
    match p.command.value {
      case Events =>
        outcome := CustomEvents.MigrateEvents(s, io.events);
      case Channels =>
        outcome := AlertChannels.MigrateChannels(s, io.channels);
      case Configs =>
        outcome := AlertConfigs.MigrateConfigs(s, io.configs);
      case CustomDashboards =>
        outcome := MigrateDashboards(s, io);
    }
    ending := EndingOf(outcome);
  }

  /** The dashboard command: the asynchronous migrator when it can be
      imported, the synchronous one otherwise. */
  method MigrateDashboards(s: AppConfig.Settings, io: MainIo) returns (outcome: RunOutcome)
    ensures outcome == DashboardsSync.Migrate(io.asyncAvailable, s, io.dashboardsAsync, io.dashboardsSync)
  {
    if !io.asyncAvailable {
      outcome := DashboardsSync.MigrateSync(s, io.dashboardsSync);
    } else if s.maxConcurrentRequests < 0 {
      outcome := Crashed("ValueError: Semaphore initial value must be >= 0");
    } else {
      outcome := DashboardsAsync.MigrateAsync(s, io.dashboardsAsync);
    }
  }
}
