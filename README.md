# Settings resolution of artifact-cli, modelled in Dafny

artifact-cli is a command-line tool that uploads, lists and downloads versioned build
artifacts kept in an S3 bucket. Before an operation runs, a `Settings` value is resolved
from the command line, the environment and an INI configuration file. A `Settings` holds
three parts: the selected operation, the option dictionary and the repository. Each
resolution step either returns the value it was given or builds a new `Settings` with one
part replaced:

- the constructor falls back to the help operation when no operation is given;
- `parse_args` replaces the operation and the options when the command is accepted;
- `load_environ` fills in missing AWS credentials from three environment variables;
- `load_config` combines the command line with the configuration file and binds a
  repository, or degrades to the default `Settings()`;
- `_read_aws_config` picks the configuration section and reads four attributes from it.

Files:

- `wrappers.dfy`: module `Wrappers`, with `Option` (Python's None) and `Result` (an
  exception that escapes to the caller).
- `settings.dfy`: module `ArtifactSettings`, the value model of the steps above.
- `settings_properties.dfy`: module `SettingsProperties`, lemmas about precedence,
  fallbacks, idempotence and chaining of the steps.

Collaborators whose code is not part of this model are parameters of the functions:

- `help`: the operation `HelpOperation(parser)` builds.
- `groupIdOf`: an operation's `group_id` attribute.
- `parse`: the `parse_args` of the parser from `argparser.get_parser()`. It gives the
  option dictionary (`vars(options)`) and the positional arguments.
- `make`: `op.make`. `None` stands for the `AssertionError` it raises.
- `fs`: the configuration file at a path, already parsed into sections. `None` stands
  for the `IOError` raised when opening or reading it.

The driver and the repository are recorded only by the arguments they are built with
(`S3Driver(access, secret, bucket, group_id, region)` and `Repository(driver, group_id)`).

Behaviour worth knowing, reproduced by the model:

- `load_environ` tests whether a key is *present*. An option present with the value
  None blocks the environment variable (`NoneOptionBlocksEnvironment`).
- `load_config` decides whether to read the file by *truthiness*, but it merges and
  checks by `is None`. So an empty-string credential sends it to the file, which must
  then open. The file does not replace the empty value, and the empty value passes the
  missing check (`EmptyAccessKeyReadsFileButIsKept`).
- `load_config` reads `options[...]` with plain indexing. A missing option therefore
  raises `KeyError`, checked in the order access_key, secret_key, bucket, config, region.
  When the file is needed and `config` is None, `expanduser(None)` raises. Neither
  exception is caught, so both appear as `Failure` results.

## Model

| member | source | states |
|---|---|---|
| ArtifactSettings.Init | src/artifactcli/settings.py:18-27 | a given operation is kept and a missing one becomes the help operation; options and repo are stored as given |
| ArtifactSettings.Default | src/artifactcli/settings.py:18-27 | `Settings()` has the help operation, no options and no repository |
| ArtifactSettings.Tail | src/artifactcli/settings.py:41 | `argv[1:]`: everything after the program name, and the empty list for an empty argument vector |
| ArtifactSettings.ParseArgs | src/artifactcli/settings.py:37-51 | the repository is always kept; with fewer than two positional arguments the settings are unchanged; any change means `op.make` accepted the arguments and produced the new operation, and the options are the parsed dictionary; when `op.make` accepts, the result is exactly its operation with the parsed options and the same repository |
| ArtifactSettings.EnvUpdates | src/artifactcli/settings.py:57-63 | a key is updated exactly when it is absent from the options and its variable is set, and its value is that variable's value |
| ArtifactSettings.EnvKeysUpdates | src/artifactcli/settings.py:57-63 | for each of access_key, secret_key and region, the key is updated if and only if it is absent and its variable (AWS_ACCESS_KEY_ID, AWS_SECRET_ACCESS_KEY, AWS_DEFAULT_REGION) is set, and it then takes that variable's value |
| ArtifactSettings.BaseOptions | src/artifactcli/settings.py:62 | the dictionary `load_environ` starts from is the options when they exist and the empty dictionary when they are None |
| ArtifactSettings.LoadEnviron | src/artifactcli/settings.py:53-68 | operation and repo are kept; no option already present (even one set to None) is overwritten; every added option is one of the three AWS keys, and its value comes from its variable; every absent AWS key whose variable is set is added |
| ArtifactSettings.Attribute | src/artifactcli/settings.py:128-129 | an attribute is Some exactly when the section has it, with that value; else None |
| ArtifactSettings.SectionCredentials | src/artifactcli/settings.py:131-136 | the four values are read in the order access key, secret key, bucket, region; a missing section gives four Nones |
| ArtifactSettings.ReadAwsConfig | src/artifactcli/settings.py:118-136 | reads from the section named after the group id when it exists, and from `default` otherwise |
| ArtifactSettings.Lookup | src/artifactcli/settings.py:82-86 | a present option yields its value; a missing one raises `KeyError` naming it |
| ArtifactSettings.Merge | src/artifactcli/settings.py:95-98 | each command-line value that is not None wins; a None one is replaced by the file value, region included |
| ArtifactSettings.Truthy | src/artifactcli/settings.py:78 | an optional string is truthy exactly when it is not None and not empty |
| ArtifactSettings.AllGiven | src/artifactcli/settings.py:88 | `all([access_key, secret_key, bucket])` holds exactly when all three are neither None nor empty |
| ArtifactSettings.CommandLine | src/artifactcli/settings.py:82-86 | the command-line credentials are the option dictionary's access_key, secret_key, bucket and region values |
| ArtifactSettings.Resolve | src/artifactcli/settings.py:88-101 | the file is consulted only when one of the three required settings is falsy; if `config` is None the path cannot be expanded; an unopenable file gives no credentials; otherwise the merge is used |
| ArtifactSettings.BindRepo | src/artifactcli/settings.py:103-115 | a repository is bound exactly when access key, secret key and bucket are all not None (region may be None), with the driver built from them and the group id |
| ArtifactSettings.LoadConfig | src/artifactcli/settings.py:70-116 | no options or a falsy group id gives the default settings; it raises only past those checks; a success without a repository is the default settings; a success with one keeps the operation and the unmodified options and binds the repository and its driver to the operation's group id; that driver gets the command-line credentials, merged with the file's when the file was read; three truthy command-line credentials always bind such a repository |
| SettingsProperties.LoadEnvironUnchangedIff | src/artifactcli/settings.py:62-68 | `load_environ` returns the settings unchanged if and only if no AWS key is both absent and has its variable set |
| SettingsProperties.LoadEnvironAddsOnlyAwsKeys | src/artifactcli/settings.py:57-65 | the resulting keys are the old keys plus at most access_key, secret_key and region |
| SettingsProperties.NoneOptionBlocksEnvironment | src/artifactcli/settings.py:63 | an access_key present as None stays None although AWS_ACCESS_KEY_ID is set |
| SettingsProperties.LoadEnvironIdempotent | src/artifactcli/settings.py:53-68 | loading the environment twice gives the same settings as loading it once |
| SettingsProperties.GroupSectionShadowsDefault | src/artifactcli/settings.py:126-134 | when a section named after the group id exists, all four values are read from it, whatever `default` holds |
| SettingsProperties.MissingAttributeIsNone | src/artifactcli/settings.py:128-133 | each of the four attributes reads as None exactly when it is missing from the chosen section (the group-id section, else `default`, else none) |
| SettingsProperties.LoadConfigKeyError | src/artifactcli/settings.py:82-86 | a missing option raises `KeyError` for the first one missing, in reading order |
| SettingsProperties.LoadConfigRaisesIff | src/artifactcli/settings.py:74-101 | `load_config` raises if and only if it gets past the two early checks and either an option is missing or the file is needed while `config` is None |
| SettingsProperties.LoadConfigSkipsFile | src/artifactcli/settings.py:88-116 | with three truthy required settings the result does not depend on the file system, and the driver is built from the command-line values |
| SettingsProperties.LoadConfigNeedsConfigPath | src/artifactcli/settings.py:88-90 | a falsy required setting with `config` None raises instead of reading a file |
| SettingsProperties.LoadConfigUnopenable | src/artifactcli/settings.py:92-101 | a needed file that cannot be opened gives the default settings |
| SettingsProperties.LoadConfigFromFile | src/artifactcli/settings.py:92-116 | after the file is read, a None access key, secret key or bucket gives the default settings; otherwise the same operation and options get a repository over the merged credentials |
| SettingsProperties.CommandLineWins | src/artifactcli/settings.py:88-98 | in a bound repository every command-line value that is not None is the driver's value, region included |
| SettingsProperties.EmptyAccessKeyReadsFileButIsKept | src/artifactcli/settings.py:88-108 | an empty access key forces a file read (failing to open gives the default settings), and it is not replaced by the file value, yet still passes the missing check |
| SettingsProperties.LoadConfigIdempotent | src/artifactcli/settings.py:70-116 | applying `load_config` to its own successful result changes nothing |
| SettingsProperties.ParseArgsMakeFails | src/artifactcli/settings.py:46-49 | an `AssertionError` from `op.make` leaves the settings unchanged |
| SettingsProperties.ParseArgsReplaces | src/artifactcli/settings.py:45-51 | an accepted command gives the new operation, the parsed options and the same repository |
| SettingsProperties.ParseArgsIdempotent | src/artifactcli/settings.py:37-51 | parsing the same argument vector twice gives what parsing it once gives |
| SettingsProperties.EnvironmentCredentialsReachDriver | src/artifactcli/settings.py:53-116 | with a truthy bucket on the command line and non-empty AWS variables for the missing keys, `load_environ` then `load_config` binds a driver with the environment's credentials and region |

## Left out

- `configure_logging` and every `logging.error` call: they only produce side effects, and each returns nothing the steps depend on.
- Object identity: "returns self" is modelled as returning an equal value. The model also does not show that `load_environ` leaves the caller's dictionary unmodified: values cannot be aliased, which makes that property hold trivially.
- The `Settings.parser` attribute, `argparser.get_parser()`, `op.make` and `HelpOperation` are parameters, because their code is not part of this model. So is the `group_id` attribute of an operation. An operation is assumed truthy, and a parser exit on bad arguments is not modelled.
- Exceptions other than `AssertionError` raised by `op.make`, and an operation without a `group_id` attribute, are not modelled.
- `expanduser`/`expandvars`, opening and reading the file, and the `ConfigParser` parser belong to the file-system parameter `fs`. This model leaves out ConfigParser's `DEFAULT` section fallback, value interpolation, lower-casing of option names and its parse errors, which are not `IOError` and would escape.
- Option values are restricted to strings and None. Other Python values in the option dictionary, such as the log level, play no part in these steps.
- `S3Driver` and `Repository` are recorded only by their constructor arguments, because their network-backed behaviour is not part of this model.
- The artifact index, manifests and revision assignment that the upload test exercises are not part of this model. Their code (`Repository`, `UploadOperation`, `MockDriver`) is not among the modelled files.
