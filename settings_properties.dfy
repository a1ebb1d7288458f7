/**
 * Properties of the settings-resolution steps: precedence of the command line over
 * the environment and the configuration file, the fallbacks to the default settings,
 * and how the steps behave when repeated or chained.
 */
module SettingsProperties {
  import opened Wrappers
  import opened ArtifactSettings

  /** The options `load_config` reads, in the order it reads them. */
  const ConfigKeys: seq<string> := ["access_key", "secret_key", "bucket", "config", "region"]

  // ------------------------------------------------------------ load_environ

  /** `load_environ` returns the settings unchanged exactly when there is nothing to fill in. */
  lemma LoadEnvironUnchangedIff<Op>(s: Settings<Op>, env: map<string, string>)
    ensures LoadEnviron(s, env) == s <==>
      forall i :: 0 <= i < |EnvKeys| ==> EnvKeys[i].0 in BaseOptions(s) || EnvKeys[i].1 !in env
  {

  }

  /** Options `load_environ` can add are only the three AWS ones. */
  lemma LoadEnvironAddsOnlyAwsKeys<Op>(s: Settings<Op>, env: map<string, string>)
    ensures var r := LoadEnviron(s, env);
      r.options.Some? ==> r.options.value.Keys <= BaseOptions(s).Keys + {"access_key", "secret_key", "region"}
  {
  }

  /** An option present with the value None blocks the environment variable. */
  lemma NoneOptionBlocksEnvironment<Op>(s: Settings<Op>, env: map<string, string>)
    requires s.options.Some? && "access_key" in s.options.value && s.options.value["access_key"] == None
    requires "AWS_ACCESS_KEY_ID" in env
    ensures var r := LoadEnviron(s, env);
      r.options.Some? && r.options.value["access_key"] == None
  {
  }

  /** Loading the environment a second time changes nothing. */
  lemma LoadEnvironIdempotent<Op>(s: Settings<Op>, env: map<string, string>)
    ensures LoadEnviron(LoadEnviron(s, env), env) == LoadEnviron(s, env)
  {

  }

  // ----------------------------------------------------- _read_aws_config

  /** A section named after the group id wins over `default`, whatever `default` says. */
  lemma GroupSectionShadowsDefault(file: IniFile, groupId: string, section: map<string, string>)
    ensures ReadAwsConfig(file[groupId := section], groupId) == Credentials(
      Attribute(section, "aws_access_key_id"), Attribute(section, "aws_secret_access_key"),
      Attribute(section, "bucket"), Attribute(section, "region"))
  {
  }

  /**
   * Each of the four attributes reads as None exactly when it is missing from the chosen
   * section: the group-id section, else `default`, else no section at all.
   */
  lemma MissingAttributeIsNone(file: IniFile, groupId: string)
    ensures var chosen := if groupId in file then file[groupId] else if "default" in file then file["default"] else map[];
      var c := ReadAwsConfig(file, groupId);
      && (c.accessKey.None? <==> "aws_access_key_id" !in chosen)
      && (c.secretKey.None? <==> "aws_secret_access_key" !in chosen)
      && (c.bucket.None? <==> "bucket" !in chosen)
      && (c.region.None? <==> "region" !in chosen)
  {
  }

  // ------------------------------------------------------------- load_config

  /** A missing option raises `KeyError` for the first missing one, in reading order. */
  lemma LoadConfigKeyError<Op>(s: Settings<Op>, help: Op, groupIdOf: Op -> Option<string>, fs: string -> Option<IniFile>, i: nat)
    requires s.options.Some? && Truthy(groupIdOf(s.operation))
    requires i < |ConfigKeys| && ConfigKeys[i] !in s.options.value
    requires forall j :: 0 <= j < i ==> ConfigKeys[j] in s.options.value
    ensures LoadConfig(s, help, groupIdOf, fs) == Failure(KeyError(ConfigKeys[i]))
  {
    var d := s.options.value;
    if i > 0 { assert ConfigKeys[0] in d; }
    if i > 1 { assert ConfigKeys[1] in d; }
    if i > 2 { assert ConfigKeys[2] in d; }
    if i > 3 { assert ConfigKeys[3] in d; }
  }

  /**
   * `load_config` raises exactly when it reaches the option lookups and one of the
   * options is missing, or the file is needed and `config` is None.
   */
  lemma LoadConfigRaisesIff<Op>(s: Settings<Op>, help: Op, groupIdOf: Op -> Option<string>, fs: string -> Option<IniFile>)
    ensures LoadConfig(s, help, groupIdOf, fs).Failure? <==>
      && s.options.Some? && Truthy(groupIdOf(s.operation))
      && (!HasConfigKeys(s.options.value) ||
          (!AllGiven(CommandLine(s.options.value)) && s.options.value["config"].None?))
  {

  }

  /** When the three required settings are all truthy the configuration file is never consulted. */
  lemma LoadConfigSkipsFile<Op>(s: Settings<Op>, help: Op, groupIdOf: Op -> Option<string>,
                                fs1: string -> Option<IniFile>, fs2: string -> Option<IniFile>)
    requires s.options.Some? && Truthy(groupIdOf(s.operation))
    requires HasConfigKeys(s.options.value) && AllGiven(CommandLine(s.options.value))
    ensures LoadConfig(s, help, groupIdOf, fs1) == LoadConfig(s, help, groupIdOf, fs2)
    ensures var c, g := CommandLine(s.options.value), groupIdOf(s.operation).value;
      LoadConfig(s, help, groupIdOf, fs1) == Success(Settings(s.operation, s.options,
        Some(Repository(S3Driver(c.accessKey.value, c.secretKey.value, c.bucket.value, g, c.region), g))))
  {
  }

  /** A falsy required setting with a `config` of None raises instead of reading the file. */
  lemma LoadConfigNeedsConfigPath<Op>(s: Settings<Op>, help: Op, groupIdOf: Op -> Option<string>, fs: string -> Option<IniFile>)
    requires s.options.Some? && Truthy(groupIdOf(s.operation))
    requires HasConfigKeys(s.options.value) && !AllGiven(CommandLine(s.options.value))
    requires s.options.value["config"] == None
    ensures LoadConfig(s, help, groupIdOf, fs) == Failure(ConfigPathNotString)
  {
  }

  /** A configuration file that cannot be opened degrades to the default settings. */
  lemma LoadConfigUnopenable<Op>(s: Settings<Op>, help: Op, groupIdOf: Op -> Option<string>, fs: string -> Option<IniFile>)
    requires s.options.Some? && Truthy(groupIdOf(s.operation))
    requires HasConfigKeys(s.options.value) && !AllGiven(CommandLine(s.options.value))
    requires s.options.value["config"].Some? && fs(s.options.value["config"].value).None?
    ensures LoadConfig(s, help, groupIdOf, fs) == Success(Default(help))
  {
  }

  /**
   * When the file is read: a setting that is None after merging degrades to the default
   * settings (a None region does not), and otherwise the repository is bound to the
   * merged credentials, in which every command-line value that is not None wins.
   */
  lemma LoadConfigFromFile<Op>(s: Settings<Op>, help: Op, groupIdOf: Op -> Option<string>, fs: string -> Option<IniFile>)
    requires s.options.Some? && Truthy(groupIdOf(s.operation))
    requires HasConfigKeys(s.options.value) && !AllGiven(CommandLine(s.options.value))
    requires s.options.value["config"].Some? && fs(s.options.value["config"].value).Some?
    ensures var cmd, g := CommandLine(s.options.value), groupIdOf(s.operation).value;
      var c := Merge(cmd, ReadAwsConfig(fs(s.options.value["config"].value).value, g));
      var r := LoadConfig(s, help, groupIdOf, fs);
      && (c.accessKey.None? || c.secretKey.None? || c.bucket.None? ==> r == Success(Default(help)))
      && (c.accessKey.Some? && c.secretKey.Some? && c.bucket.Some? ==>
            r == Success(Settings(s.operation, s.options,
              Some(Repository(S3Driver(c.accessKey.value, c.secretKey.value, c.bucket.value, g, c.region), g)))))
  {
  }

  /** In a bound repository every command-line value that is not None is the one the driver gets. */
  lemma CommandLineWins<Op>(s: Settings<Op>, help: Op, groupIdOf: Op -> Option<string>, fs: string -> Option<IniFile>)
    requires s.options.Some? && HasConfigKeys(s.options.value)
    requires LoadConfig(s, help, groupIdOf, fs).Success? && LoadConfig(s, help, groupIdOf, fs).value.repo.Some?
    ensures var cmd, drv := CommandLine(s.options.value), LoadConfig(s, help, groupIdOf, fs).value.repo.value.driver;
      && (cmd.accessKey.Some? ==> drv.accessKey == cmd.accessKey.value)
      && (cmd.secretKey.Some? ==> drv.secretKey == cmd.secretKey.value)
      && (cmd.bucket.Some? ==> drv.bucket == cmd.bucket.value)
      && (cmd.region.Some? ==> drv.region == cmd.region)
  {

  }

  /**
   * An empty access key is falsy, so it sends `load_config` to the configuration file,
   * which then must open; but it is not None, so the file does not replace it.
   */
  lemma EmptyAccessKeyReadsFileButIsKept<Op>(s: Settings<Op>, help: Op, groupIdOf: Op -> Option<string>, fs: string -> Option<IniFile>)
    requires s.options.Some? && Truthy(groupIdOf(s.operation)) && HasConfigKeys(s.options.value)
    requires s.options.value["access_key"] == Some("")
    requires s.options.value["secret_key"].Some? && s.options.value["bucket"].Some?
    requires s.options.value["config"].Some?
    ensures fs(s.options.value["config"].value).None? ==> LoadConfig(s, help, groupIdOf, fs) == Success(Default(help))
    ensures fs(s.options.value["config"].value).Some? ==>
      var r := LoadConfig(s, help, groupIdOf, fs);
      r.Success? && r.value.repo.Some? && r.value.repo.value.driver.accessKey == ""
  {

  }

  /** Loading the configuration again from its own result changes nothing. */
  lemma LoadConfigIdempotent<Op>(s: Settings<Op>, help: Op, groupIdOf: Op -> Option<string>, fs: string -> Option<IniFile>)
    requires LoadConfig(s, help, groupIdOf, fs).Success?
    ensures var r := LoadConfig(s, help, groupIdOf, fs).value;
      LoadConfig(r, help, groupIdOf, fs) == Success(r)
  {

  }

  // -------------------------------------------------------------- parse_args

  /** `op.make` raising `AssertionError` leaves the settings as they were. */
  lemma ParseArgsMakeFails<Op>(s: Settings<Op>, argv: seq<string>, help: Op,
                               parse: seq<string> -> (Options, seq<string>),
                               make: (string, string, seq<string>, Options) -> Option<Op>)
    requires var (opts, args) := parse(Tail(argv)); |args| >= 2 && make(args[0], args[1], args[2..], opts).None?
    ensures ParseArgs(s, argv, help, parse, make) == s
  {
  }

  /** An accepted command replaces operation and options and keeps the repository. */
  lemma ParseArgsReplaces<Op>(s: Settings<Op>, argv: seq<string>, help: Op,
                              parse: seq<string> -> (Options, seq<string>),
                              make: (string, string, seq<string>, Options) -> Option<Op>)
    requires var (opts, args) := parse(Tail(argv)); |args| >= 2 && make(args[0], args[1], args[2..], opts).Some?
    ensures var (opts, args) := parse(Tail(argv));
      ParseArgs(s, argv, help, parse, make) == Settings(make(args[0], args[1], args[2..], opts).value, Some(opts), s.repo)
  {
  }

  /** Parsing the same arguments twice gives the same settings as parsing them once. */
  lemma ParseArgsIdempotent<Op>(s: Settings<Op>, argv: seq<string>, help: Op,
                                parse: seq<string> -> (Options, seq<string>),
                                make: (string, string, seq<string>, Options) -> Option<Op>)
    ensures var r := ParseArgs(s, argv, help, parse, make);
      ParseArgs(r, argv, help, parse, make) == r
  {
  }

  // ------------------------------------------------------------- the chain

  /**
   * Credentials absent from the options reach the driver from the environment:
   * with a truthy bucket on the command line and non-empty AWS variables, loading the
   * environment and then the configuration binds the repository without the file.
   */
  lemma EnvironmentCredentialsReachDriver<Op>(s: Settings<Op>, help: Op, env: map<string, string>,
                                              groupIdOf: Op -> Option<string>, fs: string -> Option<IniFile>)
    requires s.options.Some? && Truthy(groupIdOf(s.operation))
    requires "bucket" in s.options.value && Truthy(s.options.value["bucket"]) && "config" in s.options.value
    requires "access_key" !in s.options.value && "secret_key" !in s.options.value && "region" !in s.options.value
    requires "AWS_ACCESS_KEY_ID" in env && env["AWS_ACCESS_KEY_ID"] != ""
    requires "AWS_SECRET_ACCESS_KEY" in env && env["AWS_SECRET_ACCESS_KEY"] != ""
    requires "AWS_DEFAULT_REGION" in env
    ensures var r := LoadConfig(LoadEnviron(s, env), help, groupIdOf, fs);
      var g := groupIdOf(s.operation).value;
      r.Success? && r.value.operation == s.operation && r.value.repo == Some(Repository(S3Driver(
        env["AWS_ACCESS_KEY_ID"], env["AWS_SECRET_ACCESS_KEY"], s.options.value["bucket"].value, g,
        Some(env["AWS_DEFAULT_REGION"])), g))
  {
    var e := LoadEnviron(s, env);
    var base := s.options.value;
    assert EnvKeys[0].0 !in base && EnvKeys[0].1 in env;
    assert EnvKeys[1].0 !in base && EnvKeys[1].1 in env;
    assert EnvKeys[2].0 !in base && EnvKeys[2].1 in env;
    var d := e.options.value;
    assert d["access_key"] == Some(env["AWS_ACCESS_KEY_ID"]);
    assert d["secret_key"] == Some(env["AWS_SECRET_ACCESS_KEY"]);
    assert d["region"] == Some(env["AWS_DEFAULT_REGION"]);
    assert d["bucket"] == base["bucket"] && "config" in d;
    LoadConfigSkipsFile(e, help, groupIdOf, fs, fs);
  }
}
