/**
 * Settings resolution of the artifact command-line tool.
 *
 * A `Settings` value holds the selected operation, the option dictionary and the
 * repository. Every step below either returns the value it was given or builds a
 * new `Settings` with one part replaced; nothing is updated in place.
 *
 * Collaborators whose code is not part of this model are parameters:
 *   - `help`      the operation `HelpOperation(parser)` builds,
 *   - `groupIdOf` an operation's `group_id` attribute,
 *   - `parse`     the command-line parser's `parse_args`, giving the option
 *                 dictionary and the positional arguments,
 *   - `make`      `op.make`, where `None` stands for the `AssertionError` it raises,
 *   - `fs`        the configuration file found at a path, already parsed into
 *                 sections; `None` stands for the `IOError` of opening it.
 */
module ArtifactSettings {
  import opened Wrappers

  /** The option dictionary: option name to value, where a value may be None. */
  type Options = map<string, Option<string>>

  /** A parsed configuration file: section name to attribute name to value. */
  type IniFile = map<string, map<string, string>>

  /** The S3 driver, recorded by the arguments it is constructed with. */
  datatype S3Driver = S3Driver(
    accessKey: string, secretKey: string, bucket: string, groupId: string, region: Option<string>)

  /** A repository, recorded by the driver and the group id it is bound to. */
  datatype Repo = Repository(driver: S3Driver, groupId: string)

  datatype Settings<Op> = Settings(operation: Op, options: Option<Options>, repo: Option<Repo>)

  /** The exceptions `load_config` lets escape to its caller. */
  datatype Exception =
    | KeyError(key: string)   // a required option is missing from the dictionary
    | ConfigPathNotString     // the file has to be read but the `config` option is None

  /** The four AWS settings, taken from the command line or from the configuration file. */
  datatype Credentials = Credentials(
    accessKey: Option<string>, secretKey: Option<string>, bucket: Option<string>, region: Option<string>)

  /** Python truthiness of an optional string: neither None nor empty. */
  predicate Truthy(v: Option<string>): (b: bool)
    ensures b ==> v.Some?
    ensures v.Some? ==> (b <==> |v.value| > 0)
  {
    v.Some? && v.value != ""
  }

  // ---------------------------------------------------------------- __init__

  /** `Settings(operation, options, repo)`: a missing operation falls back to the help operation. */
  function Init<Op>(help: Op, operation: Option<Op>, options: Option<Options>, repo: Option<Repo>): (s: Settings<Op>)
    ensures operation.Some? ==> s.operation == operation.value
    ensures operation.None? ==> s.operation == help
    ensures s.options == options && s.repo == repo
  {
    Settings(if operation.Some? then operation.value else help, options, repo)
  }

  /** `Settings()`: the help operation, no options and no repository. */
  function Default<Op>(help: Op): (s: Settings<Op>)
    ensures s.operation == help && s.options.None? && s.repo.None?
  {
    Init(help, None, None, None)
  }

  // -------------------------------------------------------------- parse_args

  /** Python's `argv[1:]`, which is empty for an empty list. */
  function Tail(argv: seq<string>): (t: seq<string>)
    ensures |argv| > 0 ==> t == argv[1..]
    ensures |argv| == 0 ==> t == []
  {
    if |argv| == 0 then [] else argv[1..]
  }

  /**
   * `parse_args`: the operation and the options are replaced only when at least two
   * positional arguments are given and `op.make` accepts them; the repository is kept.
   */
  function ParseArgs<Op>(
    s: Settings<Op>, argv: seq<string>, help: Op,
    parse: seq<string> -> (Options, seq<string>),
    make: (string, string, seq<string>, Options) -> Option<Op>): (r: Settings<Op>)
    ensures r.repo == s.repo
    ensures |parse(Tail(argv)).1| < 2 ==> r == s
    ensures r != s ==> var (opts, args) := parse(Tail(argv));
      |args| >= 2 && make(args[0], args[1], args[2..], opts) == Some(r.operation) && r.options == Some(opts)
    ensures var (opts, args) := parse(Tail(argv));
      |args| >= 2 && make(args[0], args[1], args[2..], opts).Some? ==>
        r == Settings(make(args[0], args[1], args[2..], opts).value, Some(opts), s.repo)
  {
    var (opts, args) := parse(Tail(argv));
    if |args| < 2 then s
    else
      match make(args[0], args[1], args[2..], opts)
      case None => s
      case Some(operation) => Init(help, Some(operation), Some(opts), s.repo)
  }

  // ------------------------------------------------------------ load_environ

  /** The options `load_environ` may fill in, each with the environment variable it reads. */
  const EnvKeys: seq<(string, string)> := [
    ("access_key", "AWS_ACCESS_KEY_ID"),
    ("secret_key", "AWS_SECRET_ACCESS_KEY"),
    ("region", "AWS_DEFAULT_REGION")
  ]

  /**
   * The updates `load_environ` collects from the (option, variable) pairs: an option
   * name appears exactly when it is absent from `d` and its variable is set, with the
   * variable's value; for a name listed twice the later pair wins, as a dictionary
   * built from a list of pairs keeps the last one.
   */
  function EnvUpdates(keys: seq<(string, string)>, d: Options, env: map<string, string>): (u: Options)
    ensures forall k :: k in u <==> k !in d && exists i :: 0 <= i < |keys| && keys[i].0 == k && keys[i].1 in env
    ensures forall k :: k in u ==>
      exists i :: 0 <= i < |keys| && keys[i].0 == k && keys[i].1 in env && u[k] == Some(env[keys[i].1])
  {
    if keys == [] then map[]
    else
      var (k, v) := keys[0];
      var rest := EnvUpdates(keys[1..], d, env);
      if k !in d && v in env then map[k := Some(env[v])] + rest else rest
  }

  /** For the three AWS options, each is updated exactly when it is absent and its variable is set. */
  lemma EnvKeysUpdates(d: Options, env: map<string, string>)
    ensures var u := EnvUpdates(EnvKeys, d, env);
      forall i :: 0 <= i < |EnvKeys| ==>
        (EnvKeys[i].0 in u <==> EnvKeys[i].0 !in d && EnvKeys[i].1 in env) &&
        (EnvKeys[i].0 in u ==> u[EnvKeys[i].0] == Some(env[EnvKeys[i].1]))
  {
    var u := EnvUpdates(EnvKeys, d, env);
    forall i | 0 <= i < |EnvKeys|
      ensures EnvKeys[i].0 in u <==> EnvKeys[i].0 !in d && EnvKeys[i].1 in env
      ensures EnvKeys[i].0 in u ==> u[EnvKeys[i].0] == Some(env[EnvKeys[i].1])
    {
      // the three option names are distinct, so only pair i can supply option i
      assert forall j :: 0 <= j < |EnvKeys| && EnvKeys[j].0 == EnvKeys[i].0 ==> j == i;
    }
  }

  /** The options `load_environ` starts from: a copy of the options, or `{}` when they are None. */
  function BaseOptions<Op>(s: Settings<Op>): (d: Options)
    ensures s.options.Some? ==> d == s.options.value
    ensures s.options.None? ==> d == map[]
  {
    if s.options.None? then map[] else s.options.value
  }

  /**
   * `load_environ`: adds each AWS option that is absent from the options and whose
   * environment variable is set, and returns the same settings when there is none to add.
   */
  function LoadEnviron<Op>(s: Settings<Op>, env: map<string, string>): (r: Settings<Op>)
    ensures r.operation == s.operation && r.repo == s.repo
    ensures r != s ==> r.options.Some?
    // an option already present, even one whose value is None, is never overwritten
    ensures r.options.Some? ==>
      forall k :: k in BaseOptions(s) ==> k in r.options.value && r.options.value[k] == BaseOptions(s)[k]
    // every other option comes from the environment variable paired with it
    ensures r.options.Some? ==> forall k :: k in r.options.value && k !in BaseOptions(s) ==>
      exists i :: 0 <= i < |EnvKeys| && EnvKeys[i].0 == k && EnvKeys[i].1 in env &&
        r.options.value[k] == Some(env[EnvKeys[i].1])
    // and every absent option whose variable is set is filled in
    ensures forall i :: 0 <= i < |EnvKeys| && EnvKeys[i].0 !in BaseOptions(s) && EnvKeys[i].1 in env ==>
      r.options.Some? && EnvKeys[i].0 in r.options.value && r.options.value[EnvKeys[i].0] == Some(env[EnvKeys[i].1])
  {
    var d := BaseOptions(s);
    var updates := EnvUpdates(EnvKeys, d, env);
    EnvKeysUpdates(d, env);
    if updates != map[] then Settings(s.operation, Some(d + updates), s.repo) else s
  }

  // ------------------------------------------------------- _read_aws_config

  /** An attribute of a section, or None when the attribute is missing. */
  function Attribute(section: map<string, string>, attr: string): (v: Option<string>)
    ensures v.Some? <==> attr in section
    ensures v.Some? ==> v.value == section[attr]
  {
    if attr in section then Some(section[attr]) else None
  }

  /** The credentials a configuration section holds, or none at all when the section is missing. */
  function SectionCredentials(file: IniFile, name: string): (c: Credentials)
    ensures name in file ==> c == Credentials(
      Attribute(file[name], "aws_access_key_id"), Attribute(file[name], "aws_secret_access_key"),
      Attribute(file[name], "bucket"), Attribute(file[name], "region"))
    ensures name !in file ==> c == Credentials(None, None, None, None)
  {
    var section := if name in file then file[name] else map[];
    Credentials(
      Attribute(section, "aws_access_key_id"), Attribute(section, "aws_secret_access_key"),
      Attribute(section, "bucket"), Attribute(section, "region"))
  }

  /**
   * `_read_aws_config`: reads `(aws_access_key_id, aws_secret_access_key, bucket, region)`
   * from the section named after the group id when it exists, and from `default` otherwise.
   */
  function ReadAwsConfig(file: IniFile, groupId: string): (c: Credentials)
    ensures groupId in file ==> c == SectionCredentials(file, groupId)
    ensures groupId !in file ==> c == SectionCredentials(file, "default")
  {
    var sectionName := if groupId in file then groupId else "default";
    SectionCredentials(file, sectionName)
  }

  // ------------------------------------------------------------- load_config

  /** `d[key]`, which raises `KeyError` when the key is missing. */
  function Lookup(d: Options, key: string): (v: Result<Option<string>, Exception>)
    ensures key in d ==> v == Success(d[key])
    ensures key !in d ==> v == Failure(KeyError(key))
  {
    if key in d then Success(d[key]) else Failure(KeyError(key))
  }

  /** Merges the file credentials under the command-line ones: command-line values always win. */
  function Merge(cmd: Credentials, file: Credentials): (c: Credentials)
    ensures cmd.accessKey.Some? ==> c.accessKey == cmd.accessKey
    ensures cmd.secretKey.Some? ==> c.secretKey == cmd.secretKey
    ensures cmd.bucket.Some? ==> c.bucket == cmd.bucket
    ensures cmd.region.Some? ==> c.region == cmd.region
    ensures cmd.accessKey.None? ==> c.accessKey == file.accessKey
    ensures cmd.secretKey.None? ==> c.secretKey == file.secretKey
    ensures cmd.bucket.None? ==> c.bucket == file.bucket
    ensures cmd.region.None? ==> c.region == file.region
  {
    Credentials(
      if cmd.accessKey.None? then file.accessKey else cmd.accessKey,
      if cmd.secretKey.None? then file.secretKey else cmd.secretKey,
      if cmd.bucket.None? then file.bucket else cmd.bucket,
      if cmd.region.None? then file.region else cmd.region)
  }

  /** All the options `load_config` reads are present, so none of its lookups raises. */
  predicate HasConfigKeys(d: Options) {
    "access_key" in d && "secret_key" in d && "bucket" in d && "config" in d && "region" in d
  }

  /** The credentials as given in the option dictionary. */
  function CommandLine(d: Options): (c: Credentials)
    requires HasConfigKeys(d)
    ensures c.accessKey == d["access_key"] && c.secretKey == d["secret_key"]
    ensures c.bucket == d["bucket"] && c.region == d["region"]
  {
    Credentials(d["access_key"], d["secret_key"], d["bucket"], d["region"])
  }

  /** The test that decides whether the configuration file is needed: `all([access_key, secret_key, bucket])`. */
  predicate AllGiven(c: Credentials): (b: bool)
    ensures b <==> c.accessKey.Some? && c.accessKey.value != "" && c.secretKey.Some? && c.secretKey.value != ""
                   && c.bucket.Some? && c.bucket.value != ""
  {
    Truthy(c.accessKey) && Truthy(c.secretKey) && Truthy(c.bucket)
  }

  /**
   * The credentials after consulting the configuration file when one of the three
   * required settings is falsy: `None` when the file cannot be opened.
   */
  function Resolve(cmd: Credentials, config: Option<string>, groupId: string, fs: string -> Option<IniFile>):
    (r: Result<Option<Credentials>, Exception>)
    ensures AllGiven(cmd) ==> r == Success(Some(cmd))
    ensures !AllGiven(cmd) && config.None? ==> r == Failure(ConfigPathNotString)
    ensures !AllGiven(cmd) && config.Some? && fs(config.value).None? ==> r == Success(None)
    ensures !AllGiven(cmd) && config.Some? && fs(config.value).Some? ==>
      r == Success(Some(Merge(cmd, ReadAwsConfig(fs(config.value).value, groupId))))
  {
    if AllGiven(cmd) then Success(Some(cmd))
    else if config.None? then Failure(ConfigPathNotString)
    else
      match fs(config.value)
      case None => Success(None)
      case Some(file) => Success(Some(Merge(cmd, ReadAwsConfig(file, groupId))))
  }

  /** The repository `load_config` binds, or None when a required setting is None. */
  function BindRepo(c: Credentials, groupId: string): (repo: Option<Repo>)
    ensures repo.Some? <==> c.accessKey.Some? && c.secretKey.Some? && c.bucket.Some?
    ensures repo.Some? ==> repo.value.groupId == groupId && repo.value.driver == S3Driver(
      c.accessKey.value, c.secretKey.value, c.bucket.value, groupId, c.region)
  {
    if c.accessKey.None? || c.secretKey.None? || c.bucket.None? then None
    else Some(Repository(S3Driver(c.accessKey.value, c.secretKey.value, c.bucket.value, groupId, c.region), groupId))
  }

  /**
   * `load_config`: resolves the AWS credentials from the options and, when needed, the
   * configuration file, and binds a repository to the operation's group id. Every
   * failure it handles itself degrades to the default settings.
   */
  function LoadConfig<Op>(s: Settings<Op>, help: Op, groupIdOf: Op -> Option<string>, fs: string -> Option<IniFile>):
    (r: Result<Settings<Op>, Exception>)
    ensures s.options.None? || !Truthy(groupIdOf(s.operation)) ==> r == Success(Default(help))
    ensures r.Failure? ==> s.options.Some? && Truthy(groupIdOf(s.operation))
    ensures r.Success? && r.value.repo.None? ==> r.value == Default(help)
    ensures r.Success? && r.value.repo.Some? ==>
      && r.value.operation == s.operation
      && r.value.options == s.options
      && Some(r.value.repo.value.groupId) == groupIdOf(s.operation)
      && r.value.repo.value.driver.groupId == r.value.repo.value.groupId
    // a bound driver gets the command-line credentials, merged with the file's when it was read
    ensures r.Success? && r.value.repo.Some? ==>
      && s.options.Some? && HasConfigKeys(s.options.value)
      && var d, g := s.options.value, groupIdOf(s.operation).value;
         var cmd := CommandLine(d);
         && (AllGiven(cmd) || (d["config"].Some? && fs(d["config"].value).Some?))
         && var c := if AllGiven(cmd) then cmd else Merge(cmd, ReadAwsConfig(fs(d["config"].value).value, g));
            && c.accessKey.Some? && c.secretKey.Some? && c.bucket.Some?
            && r.value.repo.value.driver == S3Driver(c.accessKey.value, c.secretKey.value, c.bucket.value, g, c.region)
    // three truthy command-line credentials always bind a repository
    ensures s.options.Some? && Truthy(groupIdOf(s.operation)) && HasConfigKeys(s.options.value)
            && AllGiven(CommandLine(s.options.value)) ==>
      var c, g := CommandLine(s.options.value), groupIdOf(s.operation).value;
      r == Success(Settings(s.operation, s.options,
        Some(Repository(S3Driver(c.accessKey.value, c.secretKey.value, c.bucket.value, g, c.region), g))))
  {
    if s.options.None? then Success(Default(help))
    else
      var groupId := groupIdOf(s.operation);
      if !Truthy(groupId) then Success(Default(help))
      else
        var d := s.options.value;
        var accessKey :- Lookup(d, "access_key");
        var secretKey :- Lookup(d, "secret_key");
        var bucket :- Lookup(d, "bucket");
        var config :- Lookup(d, "config");
        var region :- Lookup(d, "region");
        var resolved :- Resolve(Credentials(accessKey, secretKey, bucket, region), config, groupId.value, fs);
        match resolved
        case None => Success(Default(help))
        case Some(c) =>
          match BindRepo(c, groupId.value)
          case None => Success(Default(help))
          case Some(repo) => Success(Init(help, Some(s.operation), s.options, Some(repo)))
  }
}
