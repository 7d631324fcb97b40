/** CLI configuration loading: `InitCliConfig` and `processConfigFile` in
    pkg/config/config.go.

    Up to five `atmos.yaml` tiers are merged, lowest priority first, into one
    Viper instance: the system directory, `~/.atmos`, the current directory,
    the directory named by `ATMOS_CLI_CONFIG_PATH`, and the directory passed
    by an embedding caller. The merged settings are decoded, then overridden
    by `ATMOS_LOGS_VERBOSE`, the environment, the command line and the
    caller's base path, in that order; the absolute paths are derived from
    the base path and, when stacks are processed, the stack files are found.

    The process environment, the file system, the home and working
    directories and the collaborators whose source is not shown
    (`processEnvVars`, `processCommandLineArgs`, `checkConfig`,
    `filepath.Abs`, `FindAllStackConfigsInPathsForStack`) are inputs. */
module CliConfig {
  import opened Wrappers

  // ---------------------------------------------------------------------
  // Settings as Viper holds them

  /** A leaf of an `atmos.yaml` document. */
  datatype Value = Str(s: string) | Flag(b: bool) | Strings(items: seq<string>)

  /** Settings keyed by their dotted path (`stacks.base_path`); a nested map
      merges key by key, so its leaves are what one tier overrides. */
  type Settings = map<string, Value>

  const BasePathKey := "base_path"
  const StacksBasePathKey := "stacks.base_path"
  const StacksIncludedPathsKey := "stacks.included_paths"
  const StacksExcludedPathsKey := "stacks.excluded_paths"
  const TerraformBasePathKey := "components.terraform.base_path"
  const HelmfileBasePathKey := "components.helmfile.base_path"
  const HelmfileUseEksKey := "components.helmfile.use_eks"
  const LogsVerboseKey := "logs.verbose"

  /** The defaults set before any file is read. */
  const Defaults: Settings := map[HelmfileUseEksKey := Flag(true)]

  /** The Viper instance the tiers are merged into. */
  class Viper {
    var settings: Settings

    constructor()
      ensures settings == Defaults
    {
      settings := Defaults;
    }

    /** `MergeConfig`: the keys of the fragment replace those already set;
        every other key keeps its value. */
    method MergeConfig(fragment: Settings)
      modifies this
      ensures settings == old(settings) + fragment
    {
      settings := settings + fragment;
    }
  }

  // ---------------------------------------------------------------------
  // The configuration record

  datatype Stacks = Stacks(basePath: string, includedPaths: seq<string>, excludedPaths: seq<string>)
  datatype Terraform = Terraform(basePath: string)
  datatype Helmfile = Helmfile(basePath: string, useEks: bool)
  datatype Components = Components(terraform: Terraform, helmfile: Helmfile)
  datatype Logs = Logs(verbose: bool)

  /** `CliConfiguration`: the settings read from the files, then the fields
      derived from them during initialisation. */
  datatype CliConfiguration = CliConfiguration(
    basePath: string,
    stacks: Stacks,
    components: Components,
    logs: Logs,
    stacksBaseAbsolutePath: string,
    includeStackAbsolutePaths: seq<string>,
    excludeStackAbsolutePaths: seq<string>,
    terraformDirAbsolutePath: string,
    helmfileDirAbsolutePath: string,
    stackConfigFilesAbsolutePaths: seq<string>,
    stackConfigFilesRelativePaths: seq<string>,
    stackType: string,
    initialized: bool)

  /** A configuration holding the given settings and nothing derived yet. */
  function FromSettings(basePath: string, stacks: Stacks, components: Components, logs: Logs): CliConfiguration {
    CliConfiguration(basePath, stacks, components, logs, "", [], [], "", "", [], [], "", false)
  }

  /** The two configurations agree on everything read from the files. */
  predicate SameSettings(a: CliConfiguration, b: CliConfiguration) {
    a.basePath == b.basePath && a.stacks == b.stacks && a.components == b.components && a.logs == b.logs
  }

  // ---------------------------------------------------------------------
  // Inputs

  /** What the process is given at `InitCliConfig`'s start. */
  datatype ConfigAndStacksInfo = ConfigAndStacksInfo(
    atmosCliConfigPath: string,  // tier 5, from an embedding caller
    atmosBasePath: string,       // overrides every other base path
    stack: string)

  /** An `atmos.yaml` that exists: one whose document merges, or one that
      cannot be opened or parsed. */
  datatype ConfigFile = Readable(fragment: Settings) | Broken(message: string)

  /** The environment read by `InitCliConfig`. A path that is not a key of
      `files` names no file. */
  datatype Environment = Environment(
    logsVerbose: string,            // ATMOS_LOGS_VERBOSE, "" when unset
    cliConfigPath: string,          // ATMOS_CLI_CONFIG_PATH, "" when unset
    windows: bool,                  // runtime.GOOS == "windows"
    localAppData: string,           // the Windows application data variable
    homeDir: Result<string, string>,
    workingDir: Result<string, string>,
    files: map<string, ConfigFile>)

  /** What `FindAllStackConfigsInPathsForStack` returns when it succeeds. */
  datatype StackSearch = StackSearch(
    absolutePaths: seq<string>,
    relativePaths: seq<string>,
    isPhysicalPath: bool)

  /** The collaborators whose source is not part of this model. */
  datatype Collaborators = Collaborators(
    processEnvVars: CliConfiguration -> Result<CliConfiguration, string>,
    processCommandLineArgs: (CliConfiguration, ConfigAndStacksInfo) -> Result<CliConfiguration, string>,
    checkConfig: CliConfiguration -> Outcome<string>,
    abs: string -> Result<string, string>,
    findStacks: (CliConfiguration, string, seq<string>, seq<string>) -> Result<StackSearch, string>)

  datatype ConfigError =
    | InvalidBool(text: string)            // ATMOS_LOGS_VERBOSE is not a boolean
    | HomeDirFailed(message: string)
    | WorkingDirFailed(message: string)
    | FileFailed(path: string, message: string)
    | NotFound                             // no tier had an atmos.yaml
    | DecodeFailed(key: string)
    | EnvVarsFailed(message: string)
    | CommandLineFailed(message: string)
    | CheckFailed(message: string)
    | AbsFailed(path: string, message: string)
    | StackSearchFailed(message: string)
    | NoStackFiles(includePaths: seq<string>)
    | NoRelativeStackPath                  // the index panic of an empty relative path list

  const CliConfigFileName := "atmos.yaml"
  const SystemDirConfigFilePath := "/usr/local/etc/atmos"

  // ---------------------------------------------------------------------
  // strconv.ParseBool and the verbose flag

  /** Go's `strconv.ParseBool`. */
  function ParseBool(s: string): Result<bool, ConfigError> {
    if s in {"1", "t", "T", "TRUE", "true", "True"} then Success(true)
    else if s in {"0", "f", "F", "FALSE", "false", "False"} then Success(false)
    else Failure(InvalidBool(s))
  }

  /** Go's `strconv.FormatBool`. */
  function FormatBool(b: bool): string {
    if b then "true" else "false"
  }

  /** `ParseBool` reads back what `FormatBool` writes, and accepts only the
      twelve spellings it knows; anything else is an error naming the text. */
  lemma ParseBoolSpec(s: string, b: bool)
    ensures ParseBool(FormatBool(b)) == Success(b)
    ensures ParseBool(s) == Success(true) <==> s in {"1", "t", "T", "TRUE", "true", "True"}
    ensures ParseBool(s) == Success(false) <==> s in {"0", "f", "F", "FALSE", "false", "False"}
    ensures ParseBool(s).Failure? ==> ParseBool(s).error == InvalidBool(s)
  {
  }

  /** `ATMOS_LOGS_VERBOSE`: absent when empty, otherwise its boolean value or
      the parse error. */
  function VerboseSetting(text: string): Result<Option<bool>, ConfigError> {
    if |text| > 0 then
      var b :- ParseBool(text);
      Success(Some(b))
    else Success(None)
  }

  // ---------------------------------------------------------------------
  // Paths

  /** `path.Join` of two elements, without the lexical clean-up. */
  function Join(dir: string, name: string): string {
    if dir == "" then name else if name == "" then dir else dir + "/" + name
  }

  /** An empty element is dropped; otherwise the two are separated by one
      slash, so `dir` and `name` are both recovered from the result. */
  lemma JoinSpec(dir: string, name: string)
    ensures dir == "" ==> Join(dir, name) == name
    ensures name == "" ==> Join(dir, name) == dir
    ensures dir != "" && name != "" ==>
      |Join(dir, name)| == |dir| + 1 + |name| &&
      Join(dir, name)[..|dir|] == dir && Join(dir, name)[|dir|] == '/' && Join(dir, name)[|dir| + 1..] == name
  {
  }

  /** `u.JoinAbsolutePathWithPaths`: each path joined onto `base` and made
      absolute, in order; the first failure is the result. */
  function JoinAbsolutePathWithPaths(base: string, paths: seq<string>, abs: string -> Result<string, string>): Result<seq<string>, ConfigError> {
    if paths == [] then Success([])
    else
      var p := Join(base, paths[0]);
      match abs(p)
      case Failure(e) => Failure(AbsFailed(p, e))
      case Success(first) =>
        var rest :- JoinAbsolutePathWithPaths(base, paths[1..], abs);
        Success([first] + rest)
  }

  /** When every path can be made absolute, the result keeps the paths'
      order, one for one; otherwise it is the failure of the first path that
      cannot be. */
  lemma {:induction false} JoinAbsoluteSpec(base: string, paths: seq<string>, abs: string -> Result<string, string>)
    ensures var r := JoinAbsolutePathWithPaths(base, paths, abs);
      && (r.Success? <==> forall i :: 0 <= i < |paths| ==> abs(Join(base, paths[i])).Success?)
      && (r.Success? ==>
            && |r.value| == |paths|
            && forall i :: 0 <= i < |paths| ==> r.value[i] == abs(Join(base, paths[i])).value)
      && (r.Failure? ==>
            exists j :: (&& 0 <= j < |paths| && abs(Join(base, paths[j])).Failure?
                         && (forall i :: 0 <= i < j ==> abs(Join(base, paths[i])).Success?)
                         && r.error == AbsFailed(Join(base, paths[j]), abs(Join(base, paths[j])).error)))
  {
    if paths != [] {
      JoinAbsoluteSpec(base, paths[1..], abs);
      var r := JoinAbsolutePathWithPaths(base, paths, abs);
      var rest := JoinAbsolutePathWithPaths(base, paths[1..], abs);
      assert forall i :: 0 < i < |paths| ==> paths[i] == paths[1..][i - 1];
      if abs(Join(base, paths[0])).Success? {
        if rest.Failure? {
          var j :| 0 <= j < |paths[1..]| && abs(Join(base, paths[1..][j])).Failure? &&
            (forall i :: 0 <= i < j ==> abs(Join(base, paths[1..][i])).Success?) &&
            rest.error == AbsFailed(Join(base, paths[1..][j]), abs(Join(base, paths[1..][j])).error);
          assert abs(Join(base, paths[j + 1])).Failure?;
        }
      }
    }
  }

  /** A failure to join the paths is a failure to make one absolute. */
  lemma {:induction false} JoinAbsoluteFailure(base: string, paths: seq<string>, abs: string -> Result<string, string>)
    ensures JoinAbsolutePathWithPaths(base, paths, abs).Failure? ==> JoinAbsolutePathWithPaths(base, paths, abs).error.AbsFailed?
  {
    if paths != [] {
      JoinAbsoluteFailure(base, paths[1..], abs);
    }
  }

  // ---------------------------------------------------------------------
  // Tiers and their merge

  /** A tier: a file to probe, or the failure to find the directory it
      lives in. */
  datatype Tier = Probe(path: string) | LookupFailed(error: ConfigError)

  /** The merge so far: the settings and whether any file was found. */
  datatype Merge = Merge(settings: Settings, found: bool)

  /** Tier 1: `%LOCALAPPDATA%` on Windows when set, the system directory
      elsewhere. */
  function SystemTiers(env: Environment): seq<Tier> {
    if env.windows then
      (if |env.localAppData| > 0 then [Probe(Join(env.localAppData, CliConfigFileName))] else [])
    else [Probe(Join(SystemDirConfigFilePath, CliConfigFileName))]
  }

  function HomeTier(env: Environment): Tier {
    match env.homeDir
    case Failure(e) => LookupFailed(HomeDirFailed(e))
    case Success(home) => Probe(Join(Join(home, ".atmos"), CliConfigFileName))
  }

  function WorkingDirTier(env: Environment): Tier {
    match env.workingDir
    case Failure(e) => LookupFailed(WorkingDirFailed(e))
    case Success(cwd) => Probe(Join(cwd, CliConfigFileName))
  }

  /** The tiers in the order they are merged, lowest priority first. */
  function Tiers(env: Environment, info: ConfigAndStacksInfo): seq<Tier> {
    SystemTiers(env) + ([HomeTier(env), WorkingDirTier(env)] + PathTiers(env, info))
  }

  /** Tiers 4 and 5: `ATMOS_CLI_CONFIG_PATH` and the embedding caller's path,
      each only when set. */
  function PathTiers(env: Environment, info: ConfigAndStacksInfo): seq<Tier> {
    (if |env.cliConfigPath| > 0 then [Probe(Join(env.cliConfigPath, CliConfigFileName))] else [])
    + CallerTiers(info)
  }

  function CallerTiers(info: ConfigAndStacksInfo): seq<Tier> {
    if info.atmosCliConfigPath != "" then [Probe(Join(info.atmosCliConfigPath, CliConfigFileName))] else []
  }

  /** The system tier (the application data directory on Windows, the
      system directory elsewhere) comes first, then home and the working
      directory; the `ATMOS_CLI_CONFIG_PATH` tier is there only when that
      variable is set, and the caller's tier, when given, is the last and so
      the strongest. */
  lemma TiersOrder(env: Environment, info: ConfigAndStacksInfo)
    ensures var ts := Tiers(env, info);
      var s := |SystemTiers(env)|;
      && s <= 1 && (s == 0 <==> env.windows && env.localAppData == "")
      && (s == 1 ==> ts[0] == Probe(Join(if env.windows then env.localAppData else SystemDirConfigFilePath, CliConfigFileName)))
      && |ts| == s + 2 + (if env.cliConfigPath != "" then 1 else 0) + (if info.atmosCliConfigPath != "" then 1 else 0)
      && ts[s] == HomeTier(env) && ts[s + 1] == WorkingDirTier(env)
      && (env.cliConfigPath != "" ==> ts[s + 2] == Probe(Join(env.cliConfigPath, CliConfigFileName)))
      && (info.atmosCliConfigPath != "" ==> ts[|ts| - 1] == Probe(Join(info.atmosCliConfigPath, CliConfigFileName)))
  {
  }

  /** One tier merged into `m` (`processConfigFile` for a probe). */
  function MergeTier(m: Merge, tier: Tier, files: map<string, ConfigFile>): Result<Merge, ConfigError> {
    match tier
    case LookupFailed(e) => Failure(e)
    case Probe(path) =>
      if path !in files then Success(m)
      else match files[path]
        case Broken(message) => Failure(FileFailed(path, message))
        case Readable(fragment) => Success(Merge(m.settings + fragment, true))
  }

  /** The tiers merged in order; the first failure aborts. */
  function MergeTiers(m: Merge, tiers: seq<Tier>, files: map<string, ConfigFile>): Result<Merge, ConfigError>
    decreases |tiers|
  {
    if tiers == [] then Success(m)
    else
      var next :- MergeTier(m, tiers[0], files);
      MergeTiers(next, tiers[1..], files)
  }

  /** The failures the tiers can report. */
  predicate LookupErrorsNamed(tiers: seq<Tier>) {
    forall i :: 0 <= i < |tiers| && tiers[i].LookupFailed? ==>
      tiers[i].error.HomeDirFailed? || tiers[i].error.WorkingDirFailed?
  }

  /** A tier fails only because the home or working directory cannot be
      found, or because its file cannot be read. */
  lemma {:induction false} FirstFailureNamed(tiers: seq<Tier>, files: map<string, ConfigFile>)
    requires LookupErrorsNamed(tiers)
    ensures var f := FirstFailure(tiers, files);
      f.Some? ==> f.value.HomeDirFailed? || f.value.WorkingDirFailed? || f.value.FileFailed?
    decreases |tiers|
  {
    if tiers != [] && TierFailure(tiers[0], files).None? {
      assert LookupErrorsNamed(tiers[1..]) by {
        forall i | 0 <= i < |tiers[1..]| && tiers[1..][i].LookupFailed?
          ensures tiers[1..][i].error.HomeDirFailed? || tiers[1..][i].error.WorkingDirFailed?
        {
          assert tiers[1..][i] == tiers[i + 1];
        }
      }
      FirstFailureNamed(tiers[1..], files);
    }
  }

  // The reference the merge is compared with: the failing tiers, the found
  // fragments and their overlay, each defined on its own.

  function TierFailure(tier: Tier, files: map<string, ConfigFile>): Option<ConfigError> {
    match tier
    case LookupFailed(e) => Some(e)
    case Probe(path) =>
      if path in files && files[path].Broken? then Some(FileFailed(path, files[path].message)) else None
  }

  /** The failure of the first tier that fails, if any. */
  function FirstFailure(tiers: seq<Tier>, files: map<string, ConfigFile>): Option<ConfigError> {
    if tiers == [] then None
    else if TierFailure(tiers[0], files).Some? then TierFailure(tiers[0], files)
    else FirstFailure(tiers[1..], files)
  }

  /** The fragments of the tiers whose file exists, in tier order. */
  function FoundFragments(tiers: seq<Tier>, files: map<string, ConfigFile>): seq<Settings> {
    if tiers == [] then []
    else
      var head := match tiers[0]
        case Probe(path) => if path in files && files[path].Readable? then [files[path].fragment] else []
        case LookupFailed(_) => [];
      head + FoundFragments(tiers[1..], files)
  }

  /** The fragments laid over `base`, later over earlier. */
  function Overlay(base: Settings, fragments: seq<Settings>): Settings
    decreases |fragments|
  {
    if fragments == [] then base else Overlay(base + fragments[0], fragments[1..])
  }

  /** The merge takes the tiers one at a time. */
  lemma MergeStep(m: Merge, tiers: seq<Tier>, files: map<string, ConfigFile>)
    requires tiers != []
    ensures MergeTier(m, tiers[0], files).Failure? ==>
      MergeTiers(m, tiers, files) == Failure(MergeTier(m, tiers[0], files).error)
    ensures MergeTier(m, tiers[0], files).Success? ==>
      MergeTiers(m, tiers, files) == MergeTiers(MergeTier(m, tiers[0], files).value, tiers[1..], files)
  {
  }

  /** The merge fails exactly when some tier fails, and then with the first
      failure; otherwise its settings are the found fragments laid over the
      starting ones, and something was found exactly when a fragment was. */
  lemma {:induction false} MergeTiersSpec(m: Merge, tiers: seq<Tier>, files: map<string, ConfigFile>)
    ensures var r := MergeTiers(m, tiers, files);
      && (r.Failure? <==> FirstFailure(tiers, files).Some?)
      && (r.Failure? ==> r.error == FirstFailure(tiers, files).value)
      && (r.Success? ==> r.value.settings == Overlay(m.settings, FoundFragments(tiers, files)))
      && (r.Success? ==> (r.value.found <==> m.found || FoundFragments(tiers, files) != []))
    decreases |tiers|
  {
    if tiers != [] {
      var t := tiers[0];
      if TierFailure(t, files).None? {
        var next := MergeTier(m, t, files).value;
        MergeTiersSpec(next, tiers[1..], files);
        match t
        case Probe(path) =>
          var rest := FoundFragments(tiers[1..], files);
          if path in files {
            var fragment := files[path].fragment;
            assert FoundFragments(tiers, files) == [fragment] + rest;
            assert ([fragment] + rest)[1..] == rest;
            assert Overlay(m.settings, [fragment] + rest) == Overlay(m.settings + fragment, rest);
          } else {
            assert FoundFragments(tiers, files) == rest;
          }
        case LookupFailed(_) =>
      }
    }
  }

  /** A key set by a found fragment and by none after it has that fragment's
      value: a later tier overrides an earlier one. */
  lemma {:induction false} OverlayPrecedence(base: Settings, fragments: seq<Settings>, key: string, j: nat)
    requires j < |fragments| && key in fragments[j]
    requires forall i :: j < i < |fragments| ==> key !in fragments[i]
    ensures key in Overlay(base, fragments) && Overlay(base, fragments)[key] == fragments[j][key]
    decreases |fragments|
  {
    if j == 0 {
      OverlayInherits(base + fragments[0], fragments[1..], key);
    } else {
      OverlayPrecedence(base + fragments[0], fragments[1..], key, j - 1);
    }
  }

  /** A key no fragment sets keeps its starting value, or stays unset. */
  lemma {:induction false} OverlayInherits(base: Settings, fragments: seq<Settings>, key: string)
    requires forall i :: 0 <= i < |fragments| ==> key !in fragments[i]
    ensures key in Overlay(base, fragments) <==> key in base
    ensures key in base ==> Overlay(base, fragments)[key] == base[key]
    decreases |fragments|
  {
    if fragments != [] {
      OverlayInherits(base + fragments[0], fragments[1..], key);
    }
  }

  // ---------------------------------------------------------------------
  // Decoding (`v.Unmarshal`)

  function StringAt(s: Settings, key: string): Result<string, ConfigError> {
    if key !in s then Success("")
    else match s[key]
      case Str(v) => Success(v)
      case _ => Failure(DecodeFailed(key))
  }

  function FlagAt(s: Settings, key: string): Result<bool, ConfigError> {
    if key !in s then Success(false)
    else match s[key]
      case Flag(v) => Success(v)
      case _ => Failure(DecodeFailed(key))
  }

  function StringsAt(s: Settings, key: string): Result<seq<string>, ConfigError> {
    if key !in s then Success([])
    else match s[key]
      case Strings(v) => Success(v)
      case _ => Failure(DecodeFailed(key))
  }

  /** The merged settings as a configuration: a missing key is Go's zero
      value, a value of the wrong kind an error. */
  function Decode(s: Settings): Result<CliConfiguration, ConfigError> {
    var basePath :- StringAt(s, BasePathKey);
    var stacksBasePath :- StringAt(s, StacksBasePathKey);
    var included :- StringsAt(s, StacksIncludedPathsKey);
    var excluded :- StringsAt(s, StacksExcludedPathsKey);
    var terraformBasePath :- StringAt(s, TerraformBasePathKey);
    var helmfileBasePath :- StringAt(s, HelmfileBasePathKey);
    var useEks :- FlagAt(s, HelmfileUseEksKey);
    var verbose :- FlagAt(s, LogsVerboseKey);
    Success(FromSettings(basePath, Stacks(stacksBasePath, included, excluded),
      Components(Terraform(terraformBasePath), Helmfile(helmfileBasePath, useEks)), Logs(verbose)))
  }

  /** The settings a configuration is written as. */
  function Encode(c: CliConfiguration): Settings {
    map[
      BasePathKey := Str(c.basePath),
      StacksBasePathKey := Str(c.stacks.basePath),
      StacksIncludedPathsKey := Strings(c.stacks.includedPaths),
      StacksExcludedPathsKey := Strings(c.stacks.excludedPaths),
      TerraformBasePathKey := Str(c.components.terraform.basePath),
      HelmfileBasePathKey := Str(c.components.helmfile.basePath),
      HelmfileUseEksKey := Flag(c.components.helmfile.useEks),
      LogsVerboseKey := Flag(c.logs.verbose)]
  }

  /** Decoding reads back every setting that encoding writes. */
  lemma DecodeEncode(c: CliConfiguration)
    ensures Decode(Encode(c)) == Success(FromSettings(c.basePath, c.stacks, c.components, c.logs))
  {
  }

  /** Decoding the defaults alone: every setting at its zero value except
      `components.helmfile.use_eks`, which is on. */
  lemma DecodeDefaults()
    ensures Decode(Defaults) == Success(FromSettings("", Stacks("", [], []),
      Components(Terraform(""), Helmfile("", true)), Logs(false)))
  {
  }

  // ---------------------------------------------------------------------
  // The stages after the merge

  /** `ATMOS_LOGS_VERBOSE`, when set, replaces `logs.verbose`. */
  function ApplyVerbose(c: CliConfiguration, verbose: Option<bool>): CliConfiguration {
    match verbose
    case None => c
    case Some(b) => c.(logs := Logs(b))
  }

  /** The overrides, lowest priority first: `ATMOS_LOGS_VERBOSE`, the
      environment, the command line, then the caller's base path; then the
      configuration is checked. */
  function Overrides(decoded: CliConfiguration, verbose: Option<bool>, info: ConfigAndStacksInfo, ops: Collaborators): Result<CliConfiguration, ConfigError> {
    var withVerbose := ApplyVerbose(decoded, verbose);
    match ops.processEnvVars(withVerbose)
    case Failure(e) => Failure(EnvVarsFailed(e))
    case Success(withEnv) =>
      match ops.processCommandLineArgs(withEnv, info)
      case Failure(e) => Failure(CommandLineFailed(e))
      case Success(withArgs) =>
        var withBasePath := if info.atmosBasePath != "" then withArgs.(basePath := info.atmosBasePath) else withArgs;
        match ops.checkConfig(withBasePath)
        case Fail(e) => Failure(CheckFailed(e))
        case Pass => Success(withBasePath)
  }

  /** Once `ATMOS_LOGS_VERBOSE` is set, the files' `logs.verbose` makes no
      difference to the outcome. */
  lemma EnvVerboseBeatsFile(decoded: CliConfiguration, b: bool, x: bool, y: bool, info: ConfigAndStacksInfo, ops: Collaborators)
    ensures Overrides(decoded.(logs := Logs(x)), Some(b), info, ops) == Overrides(decoded.(logs := Logs(y)), Some(b), info, ops)
  {
    assert ApplyVerbose(decoded.(logs := Logs(x)), Some(b)) == ApplyVerbose(decoded.(logs := Logs(y)), Some(b));
  }

  /** The configuration handed to the environment step carries the
      `ATMOS_LOGS_VERBOSE` value when it is set and the files' value when not;
      nothing else is touched. */
  lemma ApplyVerboseSpec(c: CliConfiguration, verbose: Option<bool>)
    ensures verbose.Some? ==> ApplyVerbose(c, verbose).logs.verbose == verbose.value
    ensures verbose.None? ==> ApplyVerbose(c, verbose) == c
    ensures ApplyVerbose(c, verbose) == c.(logs := ApplyVerbose(c, verbose).logs)
  {
  }

  /** The caller's base path, when given, is the base path of the result,
      whatever the files, the environment and the command line say. */
  lemma BasePathOverride(decoded: CliConfiguration, verbose: Option<bool>, info: ConfigAndStacksInfo, ops: Collaborators)
    requires info.atmosBasePath != ""
    requires Overrides(decoded, verbose, info, ops).Success?
    ensures Overrides(decoded, verbose, info, ops).value.basePath == info.atmosBasePath
  {
  }

  /** Without a caller base path, a command line that sets the base path
      decides it, whatever the files and the environment say. */
  lemma BasePathFromCommandLine(decoded: CliConfiguration, verbose: Option<bool>, info: ConfigAndStacksInfo, ops: Collaborators, x: string)
    requires info.atmosBasePath == ""
    requires forall c :: ops.processCommandLineArgs(c, info).Success? ==> ops.processCommandLineArgs(c, info).value.basePath == x
    requires Overrides(decoded, verbose, info, ops).Success?
    ensures Overrides(decoded, verbose, info, ops).value.basePath == x
  {
  }

  /** Without a caller base path and with a command line that keeps the base
      path, an environment that sets it decides it, whatever the files say. */
  lemma BasePathFromEnvironment(decoded: CliConfiguration, verbose: Option<bool>, info: ConfigAndStacksInfo, ops: Collaborators, y: string)
    requires info.atmosBasePath == ""
    requires forall c :: ops.processEnvVars(c).Success? ==> ops.processEnvVars(c).value.basePath == y
    requires forall c :: ops.processCommandLineArgs(c, info).Success? ==> ops.processCommandLineArgs(c, info).value.basePath == c.basePath
    requires Overrides(decoded, verbose, info, ops).Success?
    ensures Overrides(decoded, verbose, info, ops).value.basePath == y
  {
  }

  /** When nothing overrides it, the base path is the one the files set. */
  lemma BasePathFromFiles(decoded: CliConfiguration, verbose: Option<bool>, info: ConfigAndStacksInfo, ops: Collaborators)
    requires info.atmosBasePath == ""
    requires forall c :: ops.processEnvVars(c).Success? ==> ops.processEnvVars(c).value.basePath == c.basePath
    requires forall c :: ops.processCommandLineArgs(c, info).Success? ==> ops.processCommandLineArgs(c, info).value.basePath == c.basePath
    requires Overrides(decoded, verbose, info, ops).Success?
    ensures Overrides(decoded, verbose, info, ops).value.basePath == decoded.basePath
  {
  }

  /** The stacks, terraform and helmfile directories made absolute, and the
      included and excluded stack paths joined onto the stacks one. */
  function DeriveAbsolutePaths(c: CliConfiguration, abs: string -> Result<string, string>): Result<CliConfiguration, ConfigError> {
    var stacksBasePath := Join(c.basePath, c.stacks.basePath);
    var stacksAbs :- AbsPath(stacksBasePath, abs);
    var includes :- JoinAbsolutePathWithPaths(stacksAbs, c.stacks.includedPaths, abs);
    var excludes :- JoinAbsolutePathWithPaths(stacksAbs, c.stacks.excludedPaths, abs);
    var terraformAbs :- AbsPath(Join(c.basePath, c.components.terraform.basePath), abs);
    var helmfileAbs :- AbsPath(Join(c.basePath, c.components.helmfile.basePath), abs);
    Success(c.(stacksBaseAbsolutePath := stacksAbs,
               includeStackAbsolutePaths := includes,
               excludeStackAbsolutePaths := excludes,
               terraformDirAbsolutePath := terraformAbs,
               helmfileDirAbsolutePath := helmfileAbs))
  }

  /** `filepath.Abs`, its error tagged with the path. */
  function AbsPath(p: string, abs: string -> Result<string, string>): Result<string, ConfigError> {
    match abs(p)
    case Failure(e) => Failure(AbsFailed(p, e))
    case Success(a) => Success(a)
  }

  /** Every absolute path is `Abs(Join(BasePath, <its base path>))`, the
      include and exclude lists keep their order one for one, and the
      settings themselves are left as they were. */
  lemma DeriveAbsolutePathsSpec(c: CliConfiguration, abs: string -> Result<string, string>)
    requires DeriveAbsolutePaths(c, abs).Success?
    ensures var r := DeriveAbsolutePaths(c, abs).value;
      && SameSettings(r, c)
      && abs(Join(c.basePath, c.stacks.basePath)) == Success(r.stacksBaseAbsolutePath)
      && abs(Join(c.basePath, c.components.terraform.basePath)) == Success(r.terraformDirAbsolutePath)
      && abs(Join(c.basePath, c.components.helmfile.basePath)) == Success(r.helmfileDirAbsolutePath)
      && |r.includeStackAbsolutePaths| == |c.stacks.includedPaths|
      && (forall i :: 0 <= i < |c.stacks.includedPaths| ==>
            abs(Join(r.stacksBaseAbsolutePath, c.stacks.includedPaths[i])).Success? &&
            r.includeStackAbsolutePaths[i] == abs(Join(r.stacksBaseAbsolutePath, c.stacks.includedPaths[i])).value)
      && |r.excludeStackAbsolutePaths| == |c.stacks.excludedPaths|
      && (forall i :: 0 <= i < |c.stacks.excludedPaths| ==>
            abs(Join(r.stacksBaseAbsolutePath, c.stacks.excludedPaths[i])).Success? &&
            r.excludeStackAbsolutePaths[i] == abs(Join(r.stacksBaseAbsolutePath, c.stacks.excludedPaths[i])).value)
  {
    var stacksAbs := abs(Join(c.basePath, c.stacks.basePath)).value;
    JoinAbsoluteSpec(stacksAbs, c.stacks.includedPaths, abs);
    JoinAbsoluteSpec(stacksAbs, c.stacks.excludedPaths, abs);
  }

  /** With stacks processed: the stack files found, and whether the stack
      named a file (`Directory`) or a logical stack (`Logical`); finding no
      file is an error carrying the include paths searched. A stack that
      names a file has its first relative path read for a message, which
      fails when there is none. */
  function ResolveStacks(c: CliConfiguration, stack: string, find: (CliConfiguration, string, seq<string>, seq<string>) -> Result<StackSearch, string>): Result<CliConfiguration, ConfigError> {
    match find(c, stack, c.includeStackAbsolutePaths, c.excludeStackAbsolutePaths)
    case Failure(e) => Failure(StackSearchFailed(e))
    case Success(found) =>
      if |found.absolutePaths| < 1 then Failure(NoStackFiles(c.includeStackAbsolutePaths))
      else if found.isPhysicalPath && |found.relativePaths| == 0 then Failure(NoRelativeStackPath)
      else Success(c.(stackConfigFilesAbsolutePaths := found.absolutePaths,
                      stackConfigFilesRelativePaths := found.relativePaths,
                      stackType := if found.isPhysicalPath then "Directory" else "Logical"))
  }

  /** `InitCliConfig` as a whole. */
  function Init(info: ConfigAndStacksInfo, processStacks: bool, env: Environment, ops: Collaborators): Result<CliConfiguration, ConfigError> {
    var verbose :- VerboseSetting(env.logsVerbose);
    var merged :- MergeTiers(Merge(Defaults, false), Tiers(env, info), env.files);
    if !merged.found then Failure(NotFound)
    else Finish(merged.settings, verbose, info, processStacks, ops)
  }

  /** Everything after the merge: decoding, the overrides, the absolute
      paths and, when asked for, the stacks. */
  function Finish(settings: Settings, verbose: Option<bool>, info: ConfigAndStacksInfo, processStacks: bool, ops: Collaborators): Result<CliConfiguration, ConfigError> {
    var decoded :- Decode(settings);
    var overridden :- Overrides(decoded, verbose, info, ops);
    var derived :- DeriveAbsolutePaths(overridden, ops.abs);
    var resolved :- if processStacks then ResolveStacks(derived, info.stack, ops.findStacks) else Success(derived);
    Success(resolved.(initialized := true))
  }

  // ---------------------------------------------------------------------
  // Properties of the whole

  /** A non-empty `ATMOS_LOGS_VERBOSE` that is not a boolean is the error,
      whatever the tiers hold: it is reported before any of them is read. */
  lemma VerboseCheckedFirst(info: ConfigAndStacksInfo, processStacks: bool, env: Environment, ops: Collaborators)
    requires |env.logsVerbose| > 0 && ParseBool(env.logsVerbose).Failure?
    ensures Init(info, processStacks, env, ops) == Failure(InvalidBool(env.logsVerbose))
  {
  }

  /** The first tier that fails (a home or working directory that cannot be
      found, a file that cannot be read) aborts the whole. */
  lemma TierFailureAborts(info: ConfigAndStacksInfo, processStacks: bool, env: Environment, ops: Collaborators)
    requires VerboseSetting(env.logsVerbose).Success?
    requires FirstFailure(Tiers(env, info), env.files).Some?
    ensures Init(info, processStacks, env, ops) == Failure(FirstFailure(Tiers(env, info), env.files).value)
  {
    MergeTiersSpec(Merge(Defaults, false), Tiers(env, info), env.files);
  }

  /** `NotFound` is the result exactly when the variable parses, no tier
      fails, and no tier has a file. */
  lemma NotFoundIff(info: ConfigAndStacksInfo, processStacks: bool, env: Environment, ops: Collaborators)
    ensures Init(info, processStacks, env, ops) == Failure(NotFound) <==>
      VerboseSetting(env.logsVerbose).Success? &&
      FirstFailure(Tiers(env, info), env.files).None? &&
      FoundFragments(Tiers(env, info), env.files) == []
  {
    var verbose := VerboseSetting(env.logsVerbose);
    var merged := MergeTiers(Merge(Defaults, false), Tiers(env, info), env.files);
    MergeTiersSpec(Merge(Defaults, false), Tiers(env, info), env.files);
    if verbose.Success? {
      if merged.Failure? {
        FirstFailureNamed(Tiers(env, info), env.files);
      } else if merged.value.found {
        FinishNeverNotFound(merged.value.settings, verbose.value, info, processStacks, ops);
      }
    }
  }

  /** No stage after the merge reports `NotFound`. */
  lemma FinishNeverNotFound(settings: Settings, verbose: Option<bool>, info: ConfigAndStacksInfo, processStacks: bool, ops: Collaborators)
    ensures Finish(settings, verbose, info, processStacks, ops) != Failure(NotFound)
  {
    var decoded := Decode(settings);
    if decoded.Success? {
      var overridden := Overrides(decoded.value, verbose, info, ops);
      if overridden.Success? {
        var c := overridden.value;
        var stacksAbs := ops.abs(Join(c.basePath, c.stacks.basePath));
        if stacksAbs.Success? {
          JoinAbsoluteFailure(stacksAbs.value, c.stacks.includedPaths, ops.abs);
          JoinAbsoluteFailure(stacksAbs.value, c.stacks.excludedPaths, ops.abs);
        }
      }
    }
  }

  /** The settings decoded are the defaults with the found fragments laid
      over them in tier order. */
  lemma MergedSettings(info: ConfigAndStacksInfo, env: Environment)
    requires FirstFailure(Tiers(env, info), env.files).None?
    ensures MergeTiers(Merge(Defaults, false), Tiers(env, info), env.files) ==
      Success(Merge(Overlay(Defaults, FoundFragments(Tiers(env, info), env.files)),
                    FoundFragments(Tiers(env, info), env.files) != []))
  {
    MergeTiersSpec(Merge(Defaults, false), Tiers(env, info), env.files);
  }

  /** A successful result is initialised, holds the caller's base path when
      one is given, derives its absolute paths from its own settings and,
      when stacks are processed, found at least one stack file and
      classified the stack, a stack that names a file having a relative
      path. */
  lemma InitSuccess(info: ConfigAndStacksInfo, processStacks: bool, env: Environment, ops: Collaborators)
    requires Init(info, processStacks, env, ops).Success?
    ensures var c := Init(info, processStacks, env, ops).value;
      && c.initialized
      && (info.atmosBasePath != "" ==> c.basePath == info.atmosBasePath)
      && ops.abs(Join(c.basePath, c.stacks.basePath)) == Success(c.stacksBaseAbsolutePath)
      && ops.abs(Join(c.basePath, c.components.terraform.basePath)) == Success(c.terraformDirAbsolutePath)
      && ops.abs(Join(c.basePath, c.components.helmfile.basePath)) == Success(c.helmfileDirAbsolutePath)
      && |c.includeStackAbsolutePaths| == |c.stacks.includedPaths|
      && (forall i :: 0 <= i < |c.stacks.includedPaths| ==>
            ops.abs(Join(c.stacksBaseAbsolutePath, c.stacks.includedPaths[i])) == Success(c.includeStackAbsolutePaths[i]))
      && |c.excludeStackAbsolutePaths| == |c.stacks.excludedPaths|
      && (forall i :: 0 <= i < |c.stacks.excludedPaths| ==>
            ops.abs(Join(c.stacksBaseAbsolutePath, c.stacks.excludedPaths[i])) == Success(c.excludeStackAbsolutePaths[i]))
      && (processStacks ==> |c.stackConfigFilesAbsolutePaths| >= 1 && c.stackType in {"Directory", "Logical"})
      && (processStacks && c.stackType == "Directory" ==> |c.stackConfigFilesRelativePaths| >= 1)
  {
    var verbose := VerboseSetting(env.logsVerbose).value;
    var merged := MergeTiers(Merge(Defaults, false), Tiers(env, info), env.files).value;
    var decoded := Decode(merged.settings).value;
    var overridden := Overrides(decoded, verbose, info, ops).value;
    DeriveAbsolutePathsSpec(overridden, ops.abs);
    if info.atmosBasePath != "" {
      BasePathOverride(decoded, verbose, info, ops);
    }
  }

  /** With stacks processed, a failed search is an error carrying its
      message, and a search that finds no file is an error that names the
      include paths searched. A stack that names a file without a relative
      path fails on the index. Otherwise both lists of files are stored, and
      the stack is `Directory` when it named a file and `Logical` when not. */
  lemma StackTypeSpec(c: CliConfiguration, stack: string, find: (CliConfiguration, string, seq<string>, seq<string>) -> Result<StackSearch, string>)
    ensures var search := find(c, stack, c.includeStackAbsolutePaths, c.excludeStackAbsolutePaths);
      var r := ResolveStacks(c, stack, find);
      && (search.Failure? ==> r == Failure(StackSearchFailed(search.error)))
      && (search.Success? ==>
            var found := search.value;
            && (found.absolutePaths == [] <==> r == Failure(NoStackFiles(c.includeStackAbsolutePaths)))
            && (r == Failure(NoRelativeStackPath) <==>
                  found.absolutePaths != [] && found.isPhysicalPath && found.relativePaths == [])
            && (r.Success? <==> found.absolutePaths != [] && (found.isPhysicalPath ==> found.relativePaths != []))
            && (r.Success? ==>
                  && SameSettings(r.value, c)
                  && r.value.stackConfigFilesAbsolutePaths == found.absolutePaths
                  && r.value.stackConfigFilesRelativePaths == found.relativePaths
                  && r.value.stackType == (if found.isPhysicalPath then "Directory" else "Logical")))
  {
  }

  // ---------------------------------------------------------------------
  // The imperative loader

  /** `processConfigFile`: a path with no file is skipped without merging;
      an existing file is merged and reported found; a file that cannot be
      read is an error and nothing is merged. */
  method ProcessConfigFile(path: string, files: map<string, ConfigFile>, v: Viper) returns (found: bool, err: Option<ConfigError>)
    modifies v
    ensures path !in files ==> !found && err.None? && v.settings == old(v.settings)
    ensures path in files && files[path].Broken? ==>
      !found && err == Some(FileFailed(path, files[path].message)) && v.settings == old(v.settings)
    ensures path in files && files[path].Readable? ==>
      found && err.None? && v.settings == old(v.settings) + files[path].fragment
  {
    if path !in files {
      return false, None;
    }
    match files[path]
    case Broken(message) =>
      return false, Some(FileFailed(path, message));
    case Readable(fragment) =>
      v.MergeConfig(fragment);
      return true, None;
  }

  /** `InitCliConfig`: the model of the whole is `Init`; a successful result
      is marked initialised. */
  method InitCliConfig(info: ConfigAndStacksInfo, processStacks: bool, env: Environment, ops: Collaborators)
    returns (r: Result<CliConfiguration, ConfigError>)
    ensures r == Init(info, processStacks, env, ops)
    ensures r.Success? ==> r.value.initialized
  {
    var logVerboseEnvVar := false;
    var logVerboseEnvVarFound := false;
    if |env.logsVerbose| > 0 {
      var parsed := ParseBool(env.logsVerbose);
      if parsed.Failure? {
        return Failure(parsed.error);
      }
      logVerboseEnvVar := parsed.value;
      logVerboseEnvVarFound := true;
    }

    var v := new Viper();
    var configFound, err := ProcessTiers(info, env, v);
    if err.Some? {
      return Failure(err.value);
    }
    if !configFound {
      return Failure(NotFound);
    }

    var verbose := if logVerboseEnvVarFound then Some(logVerboseEnvVar) else None;
    r := FinishConfig(v.settings, verbose, info, processStacks, ops);
  }

  /** The five tiers of `InitCliConfig`, merged into `v` in order. */
  method ProcessTiers(info: ConfigAndStacksInfo, env: Environment, v: Viper) returns (configFound: bool, err: Option<ConfigError>)
    requires v.settings == Defaults
    modifies v
    ensures var whole := MergeTiers(Merge(Defaults, false), Tiers(env, info), env.files);
      && (whole.Failure? <==> err.Some?)
      && (whole.Failure? ==> err == Some(whole.error))
      && (whole.Success? ==> whole.value == Merge(v.settings, configFound))
  {
    configFound := false;
    // The tiers still to merge; merging them into what `v` holds gives the
    // same as merging all of them from the start.
    ghost var whole := MergeTiers(Merge(Defaults, false), Tiers(env, info), env.files);
    ghost var pending := Tiers(env, info);

    // System directory
    var configFilePath1 := "";
    if env.windows {
      if |env.localAppData| > 0 {
        configFilePath1 := env.localAppData;
      }
    } else {
      configFilePath1 := SystemDirConfigFilePath;
    }
    if |configFilePath1| > 0 {
      assert SystemTiers(env) == [Probe(Join(configFilePath1, CliConfigFileName))];
      assert pending[0] == Probe(Join(configFilePath1, CliConfigFileName));
      assert whole == MergeTiers(Merge(v.settings, configFound), pending, env.files);
      MergeStep(Merge(v.settings, configFound), pending, env.files);
      configFound, err := ProcessTier(Join(configFilePath1, CliConfigFileName), env.files, v, configFound);
      if err.Some? {
        return;
      }
      assert pending[1..] == [HomeTier(env), WorkingDirTier(env)] + PathTiers(env, info);
      pending := pending[1..];
    } else {
      assert SystemTiers(env) == [];
      assert pending == [HomeTier(env), WorkingDirTier(env)] + PathTiers(env, info);
    }
    assert whole == MergeTiers(Merge(v.settings, configFound), pending, env.files);
    assert pending == [HomeTier(env), WorkingDirTier(env)] + PathTiers(env, info);

    // Home directory
    MergeStep(Merge(v.settings, configFound), pending, env.files);
    if env.homeDir.Failure? {
      return configFound, Some(HomeDirFailed(env.homeDir.error));
    }
    var configFilePath2 := env.homeDir.value;
    configFound, err := ProcessTier(Join(Join(configFilePath2, ".atmos"), CliConfigFileName), env.files, v, configFound);
    if err.Some? {
      return;
    }
    assert pending[1..] == [WorkingDirTier(env)] + PathTiers(env, info);
    pending := [WorkingDirTier(env)] + PathTiers(env, info);

    // Current directory
    MergeStep(Merge(v.settings, configFound), pending, env.files);
    if env.workingDir.Failure? {
      return configFound, Some(WorkingDirFailed(env.workingDir.error));
    }
    var configFilePath3 := env.workingDir.value;
    configFound, err := ProcessTier(Join(configFilePath3, CliConfigFileName), env.files, v, configFound);
    if err.Some? {
      return;
    }
    assert pending[1..] == PathTiers(env, info);
    pending := PathTiers(env, info);

    configFound, err := ProcessPathTiers(info, env, v, configFound);
  }

  /** Tiers 4 and 5 of `InitCliConfig`, merged into `v` after the others. */
  method ProcessPathTiers(info: ConfigAndStacksInfo, env: Environment, v: Viper, foundBefore: bool) returns (configFound: bool, err: Option<ConfigError>)
    modifies v
    ensures var whole := MergeTiers(Merge(old(v.settings), foundBefore), PathTiers(env, info), env.files);
      && (whole.Failure? <==> err.Some?)
      && (whole.Failure? ==> err == Some(whole.error))
      && (whole.Success? ==> whole.value == Merge(v.settings, configFound))
  {
    configFound := foundBefore;
    ghost var whole := MergeTiers(Merge(v.settings, configFound), PathTiers(env, info), env.files);
    ghost var pending := PathTiers(env, info);

    // ATMOS_CLI_CONFIG_PATH
    var configFilePath4 := env.cliConfigPath;
    if |configFilePath4| > 0 {
      MergeStep(Merge(v.settings, configFound), pending, env.files);
      configFound, err := ProcessTier(Join(configFilePath4, CliConfigFileName), env.files, v, configFound);
      if err.Some? {
        return;
      }
      assert pending[1..] == CallerTiers(info);
      pending := pending[1..];
    } else {
      assert pending == CallerTiers(info);
    }
    assert whole == MergeTiers(Merge(v.settings, configFound), pending, env.files);

    // The path given by an embedding caller
    if info.atmosCliConfigPath != "" {
      var configFilePath5 := info.atmosCliConfigPath;
      MergeStep(Merge(v.settings, configFound), pending, env.files);
      configFound, err := ProcessTier(Join(configFilePath5, CliConfigFileName), env.files, v, configFound);
      if err.Some? {
        return;
      }
    }
    err := None;
  }

  /** One tier's `processConfigFile` call and the found flag it raises. */
  method ProcessTier(path: string, files: map<string, ConfigFile>, v: Viper, configFound: bool) returns (nowFound: bool, err: Option<ConfigError>)
    modifies v
    ensures var r := MergeTier(Merge(old(v.settings), configFound), Probe(path), files);
      && (r.Failure? <==> err.Some?)
      && (r.Failure? ==> err == Some(r.error))
      && (r.Success? ==> r.value == Merge(v.settings, nowFound))
  {
    var found;
    found, err := ProcessConfigFile(path, files, v);
    nowFound := configFound;
    if found {
      nowFound := true;
    }
  }

  /** The rest of `InitCliConfig`, once a file has been found. */
  method FinishConfig(settings: Settings, verbose: Option<bool>, info: ConfigAndStacksInfo, processStacks: bool, ops: Collaborators)
    returns (r: Result<CliConfiguration, ConfigError>)
    ensures r == Finish(settings, verbose, info, processStacks, ops)
  {
    var decoded := Decode(settings);
    if decoded.Failure? {
      return Failure(decoded.error);
    }
    var overridden := ApplyOverrides(decoded.value, verbose, info, ops);
    if overridden.Failure? {
      return Failure(overridden.error);
    }
    var cliConfig := overridden.value;

    var derived := SetAbsolutePaths(cliConfig, ops.abs);
    if derived.Failure? {
      return Failure(derived.error);
    }
    cliConfig := derived.value;

    if processStacks {
      var search := ops.findStacks(cliConfig, info.stack, cliConfig.includeStackAbsolutePaths, cliConfig.excludeStackAbsolutePaths);
      if search.Failure? {
        return Failure(StackSearchFailed(search.error));
      }
      if |search.value.absolutePaths| < 1 {
        return Failure(NoStackFiles(cliConfig.includeStackAbsolutePaths));
      }
      cliConfig := cliConfig.(stackConfigFilesAbsolutePaths := search.value.absolutePaths,
                              stackConfigFilesRelativePaths := search.value.relativePaths);
      if search.value.isPhysicalPath {
        // The verbose message reads the first relative path, printed or not.
        if |search.value.relativePaths| == 0 {
          return Failure(NoRelativeStackPath);
        }
        cliConfig := cliConfig.(stackType := "Directory");
      } else {
        cliConfig := cliConfig.(stackType := "Logical");
      }
    }

    cliConfig := cliConfig.(initialized := true);
    return Success(cliConfig);
  }

  /** The overrides of `InitCliConfig`, applied one after another. */
  method ApplyOverrides(decoded: CliConfiguration, verbose: Option<bool>, info: ConfigAndStacksInfo, ops: Collaborators)
    returns (r: Result<CliConfiguration, ConfigError>)
    ensures r == Overrides(decoded, verbose, info, ops)
  {
    var cliConfig := decoded;

    if verbose.Some? {
      cliConfig := cliConfig.(logs := Logs(verbose.value));
    }

    var withEnv := ops.processEnvVars(cliConfig);
    if withEnv.Failure? {
      return Failure(EnvVarsFailed(withEnv.error));
    }
    cliConfig := withEnv.value;

    var withArgs := ops.processCommandLineArgs(cliConfig, info);
    if withArgs.Failure? {
      return Failure(CommandLineFailed(withArgs.error));
    }
    cliConfig := withArgs.value;

    if info.atmosBasePath != "" {
      cliConfig := cliConfig.(basePath := info.atmosBasePath);
    }

    var checked := ops.checkConfig(cliConfig);
    if checked.Fail? {
      return Failure(CheckFailed(checked.error));
    }

    return Success(cliConfig);
  }

  /** The absolute paths of `InitCliConfig`, set one after another. */
  method SetAbsolutePaths(c: CliConfiguration, abs: string -> Result<string, string>) returns (r: Result<CliConfiguration, ConfigError>)
    ensures r == DeriveAbsolutePaths(c, abs)
  {
    var cliConfig := c;
    var stacksBasePath := Join(cliConfig.basePath, cliConfig.stacks.basePath);
    var stacksBaseAbsPath := abs(stacksBasePath);
    if stacksBaseAbsPath.Failure? {
      return Failure(AbsFailed(stacksBasePath, stacksBaseAbsPath.error));
    }
    cliConfig := cliConfig.(stacksBaseAbsolutePath := stacksBaseAbsPath.value);

    var includeStackAbsPaths := JoinAbsolutePathWithPaths(stacksBaseAbsPath.value, cliConfig.stacks.includedPaths, abs);
    if includeStackAbsPaths.Failure? {
      return Failure(includeStackAbsPaths.error);
    }
    cliConfig := cliConfig.(includeStackAbsolutePaths := includeStackAbsPaths.value);

    var excludeStackAbsPaths := JoinAbsolutePathWithPaths(stacksBaseAbsPath.value, cliConfig.stacks.excludedPaths, abs);
    if excludeStackAbsPaths.Failure? {
      return Failure(excludeStackAbsPaths.error);
    }
    cliConfig := cliConfig.(excludeStackAbsolutePaths := excludeStackAbsPaths.value);

    var terraformBasePath := Join(cliConfig.basePath, cliConfig.components.terraform.basePath);
    var terraformDirAbsPath := abs(terraformBasePath);
    if terraformDirAbsPath.Failure? {
      return Failure(AbsFailed(terraformBasePath, terraformDirAbsPath.error));
    }
    cliConfig := cliConfig.(terraformDirAbsolutePath := terraformDirAbsPath.value);

    var helmfileBasePath := Join(cliConfig.basePath, cliConfig.components.helmfile.basePath);
    var helmfileDirAbsPath := abs(helmfileBasePath);
    if helmfileDirAbsPath.Failure? {
      return Failure(AbsFailed(helmfileBasePath, helmfileDirAbsPath.error));
    }
    cliConfig := cliConfig.(helmfileDirAbsolutePath := helmfileDirAbsPath.value);

    return Success(cliConfig);
  }
}
