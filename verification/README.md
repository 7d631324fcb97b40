# atmos: workflow runner and CLI configuration loader

A Dafny model of two parts of atmos, the command-line tool that drives
Terraform and helmfile from stack configurations.

* **The workflow runner**, `ExecuteWorkflow` in `internal/exec/worflow_utils.go`
  (module `WorkflowExec`, file `workflow.dfy`). A workflow is a list of steps.
  The runner:
  - rejects an empty list;
  - writes `step<i+1>` into every unnamed step of the shared step array;
  - with `--from-step`, skips to the first step with that name, or fails when
    no step has it;
  - then dispatches the remaining steps in order and stops at the first error.

  For each step it trims the command and the type, defaults a blank type to
  `atmos`, and rejects any type other than `atmos` and `shell`.
  - A `shell` step runs its command under the name `<workflow>-step-<index>`.
  - An `atmos` step re-invokes `atmos` with the words of its command. When a
    stack is set, `-s <stack>` follows the words. The stack comes from the
    command line if set, else the step, else the workflow.

  The two executors are an oracle from a call to its outcome. The runner
  returns its error together with the calls it made, in order.
* **The CLI configuration loader**, `InitCliConfig` and `processConfigFile` in
  `pkg/config/config.go` (module `CliConfig`, file `config.dfy`).
  - Up to five `atmos.yaml` tiers are merged, lowest priority first, into one
    Viper instance, modelled as a class holding a settings map. The tiers are:
    1. the system directory;
    2. `~/.atmos`;
    3. the current directory;
    4. `ATMOS_CLI_CONFIG_PATH`;
    5. the path passed by an embedding caller.
  - When no tier has a file, the result is `NotFound`.
  - Otherwise the merged settings are decoded. They are then overridden, in
    order, by `ATMOS_LOGS_VERBOSE`, the environment, the command line and the
    caller's base path, and then checked.
  - The absolute paths of the stacks, terraform and helmfile directories and
    of the include and exclude lists are derived.
  - When stacks are processed, the stack files are found and the stack is
    classified as `Directory` or `Logical`.
  - Only a successful result is marked initialised.

Two supporting modules:
* `Wrappers` (`wrappers.dfy`) holds `Option`, `Result` and `Outcome`.
* `GoStrings` (`gostrings.dfy`) models the parts of Go's `strings` and `fmt`
  that the runner depends on:
  - `strings.TrimSpace` with Go's `unicode.IsSpace`;
  - `strings.Fields`;
  - `%d` rendering.

Each imperative routine is a method proved equal to a specification
function:
- `ExecuteWorkflow`, with its name-normalising array loop and its dispatch
  loop;
- `InitCliConfig` and the methods it is split into.

The properties the source promises are lemmas about those functions.

## Model

| member | source | states |
|---|---|---|
| WorkflowExec.ExecuteWorkflow | internal/exec/worflow_utils.go:14-113 | Writes the normalised names into the caller's step array, changing nothing else. Returns exactly the error and the call trace of the specification `Workflow` applied to the steps as they were before the call. |
| WorkflowExec.EmptyWorkflowFails | internal/exec/worflow_utils.go:24-26 | A workflow with no steps fails with the "no steps" error and makes no call. |
| WorkflowExec.NormalizeStepNames | internal/exec/worflow_utils.go:31-41 | The array loop leaves the array equal to `NormalizedNames` of its old contents. |
| WorkflowExec.NormalizedNames | internal/exec/worflow_utils.go:31-41 | The length is kept and every step ends up named. A named step is unchanged. An unnamed step at index i is named `step<i+1>`. The command, type and stack of every step are unchanged. |
| WorkflowExec.AutoNamesDistinct | internal/exec/worflow_utils.go:39 | Generated names at different indices differ. |
| WorkflowExec.AutoNameIsPosition | internal/exec/worflow_utils.go:39 | A generated name is `step` followed by decimal digits that read back as the 1-based position. |
| WorkflowExec.DropUntilNamed | internal/exec/worflow_utils.go:51-59 | The result is a suffix of the steps. Every dropped step has a different name. A non-empty result starts at a step with the name. The result is empty if and only if no step has the name. |
| WorkflowExec.DropUntilFirstMatch | internal/exec/worflow_utils.go:52-54 | If j is the first step with the name, the kept steps are exactly `steps[j..]`. |
| WorkflowExec.FromStepMissing | internal/exec/worflow_utils.go:51-59 | If no step has the `--from-step` name after normalisation, the run fails with the invalid-from-step error and makes no call. |
| WorkflowExec.FromStepStartsAtFirstMatch | internal/exec/worflow_utils.go:50-61 | With `--from-step`, the run is the run of the suffix that starts at the first step with that name, indexed from 0. |
| WorkflowExec.NoFromStepRunsAll | internal/exec/worflow_utils.go:50-61 | Without `--from-step`, all the normalised steps run, indexed from 0. |
| WorkflowExec.StepTypeSpec | internal/exec/worflow_utils.go:63-69 | The type is never blank. An all-white-space type becomes `atmos`; any other type is trimmed, with no white space left at either end. |
| WorkflowExec.LastNonEmptyBlank | internal/exec/worflow_utils.go:81-95 | The override chain gives "" if and only if every candidate is "". |
| WorkflowExec.LastNonEmptyIsLast | internal/exec/worflow_utils.go:87-95 | A non-empty candidate with only empty candidates after it is the chain's result: later overrides win. |
| WorkflowExec.EffectiveStackPrecedence | internal/exec/worflow_utils.go:79-95 | The stack is the command-line stack if set, else the trimmed step stack if non-empty, else the trimmed workflow stack. |
| WorkflowExec.AtmosArgsSpec | internal/exec/worflow_utils.go:77-100 | The arguments are exactly `Fields` of the command, then `-s <stack>` exactly when the stack is non-empty. Each field is non-empty and free of white space. Together the fields hold every non-space character of the command, in order. |
| WorkflowExec.PlanStepSpec | internal/exec/worflow_utils.go:62-107 | A step fails exactly when its trimmed type is neither blank, `atmos` nor `shell`, and the error names that type. A shell step calls the shell with the trimmed command under the name `<workflow>-step-<idx>`. An atmos step calls `atmos` with the fields and the stack chosen by precedence. Both calls run in `.` with the run's dry-run flag. |
| WorkflowExec.PrepareStep | internal/exec/worflow_utils.go:62-107 | The per-step code, which trims, defaults and reassigns `finalStack` in sequence, returns exactly `PlanStep`. |
| WorkflowExec.ShellNamesDistinct | internal/exec/worflow_utils.go:72 | Two shell steps at different positions of one run get different command names. |
| WorkflowExec.FirstStop | internal/exec/worflow_utils.go:61-110 | Gives the first position from k on whose step cannot be planned or whose call fails. Every step before it neither fails to plan nor fails its call. It equals the number of steps when no step stops. |
| WorkflowExec.FailFast | internal/exec/worflow_utils.go:61-112 | Let j be the first stopping step. The calls are those of the steps before j, in order and all successful, plus step j's call when it got that far. The error is nil exactly when no step stops. Otherwise it is step j's planning error, or its executor's error passed on unchanged. |
| WorkflowExec.RunSteps | internal/exec/worflow_utils.go:61-112 | The dispatch loop, with its early returns, gives exactly the error and trace of `RunFrom` from index 0. |
| GoStrings.TrimSpaceSpec | internal/exec/worflow_utils.go:62-63 | Trimming returns a contiguous slice of the input that lies between an all-white-space prefix and an all-white-space suffix, so inner white space is kept. The result has no white space at either end and keeps every non-space character. It is empty exactly when the input is all white space. |
| GoStrings.FieldsAreWords | internal/exec/worflow_utils.go:77 | No field is empty and no field holds white space. |
| GoStrings.FieldsKeepContent | internal/exec/worflow_utils.go:77 | The fields, concatenated, are the input with its white space removed. |
| GoStrings.FieldsSplit | internal/exec/worflow_utils.go:77 | Every string is its fields interleaved with runs of white space. The runs between two fields are non-empty. |
| GoStrings.FieldsUnique | internal/exec/worflow_utils.go:77 | Any split of a string into non-empty space-free words separated by white space, non-empty between words, has exactly the fields as its words. So `Fields` splits at every run of white space and nowhere else. |
| GoStrings.ParseNatToString | internal/exec/worflow_utils.go:72 | The `%d` rendering is a non-empty run of digits that reads back as the number. |
| GoStrings.NatToStringInjective | internal/exec/worflow_utils.go:72 | Different numbers render differently. |
| CliConfig.InitCliConfig | pkg/config/config.go:25-281 | Returns exactly `Init`, the specification of the whole loader. A successful result is marked initialised. |
| CliConfig.ParseBoolSpec | pkg/config/config.go:44 | `ParseBool` accepts exactly Go's six true and six false spellings and reads back `FormatBool`. Anything else is an error naming the text. |
| CliConfig.VerboseCheckedFirst | pkg/config/config.go:37-47 | A non-empty `ATMOS_LOGS_VERBOSE` that is not a boolean is the result, whatever the tiers hold. |
| CliConfig.Viper.constructor | pkg/config/config.go:62-67 | A new Viper holds only the default `components.helmfile.use_eks = true`. |
| CliConfig.Viper.MergeConfig | pkg/config/config.go:306 | The fragment's keys replace the old ones; every other key keeps its value. |
| CliConfig.ProcessConfigFile | pkg/config/config.go:286-314 | A missing file gives not-found and no error, and merges nothing. A file that cannot be read gives an error and merges nothing. A readable file is merged and reported found. |
| CliConfig.ProcessTier | pkg/config/config.go:85-94 | One probe plus the found flag is one step of the `MergeTier` fold. |
| CliConfig.ProcessTiers | pkg/config/config.go:69-151 | The tier code, with its early returns, gives the `MergeTiers` fold over all tiers. It has the same error, and otherwise the same settings and found flag. |
| CliConfig.ProcessPathTiers | pkg/config/config.go:124-151 | Tiers 4 and 5 are merged exactly as the fold over `PathTiers`. |
| CliConfig.JoinSpec | pkg/config/config.go:86 | An empty element is dropped. Otherwise the elements are separated by a single `/` and both can be recovered. |
| CliConfig.TiersOrder | pkg/config/config.go:69-151 | The tiers are system, home, working directory, `ATMOS_CLI_CONFIG_PATH` and caller path, in that order. The system tier, when present, probes `atmos.yaml` in the app-data directory on Windows and in `/usr/local/etc/atmos` elsewhere; it is absent only on Windows without the app-data variable. Tier 4 is present exactly when its variable is set. Tier 5 is present exactly when a caller path is given, and is then last. |
| CliConfig.MergeTiersSpec | pkg/config/config.go:69-151 | The merge fails if and only if some tier fails, and then with the first failure. Otherwise its settings are the found fragments laid over the start in tier order. It is found exactly when some fragment was. |
| CliConfig.OverlayPrecedence | pkg/config/config.go:69-151 | A key set by a fragment and by none after it has that fragment's value: later tiers override earlier ones. |
| CliConfig.OverlayInherits | pkg/config/config.go:66-151 | A key no fragment sets keeps its default value, or stays unset. |
| CliConfig.FirstFailureNamed | pkg/config/config.go:85-151 | A failing tier fails because the home or working directory cannot be found or because its file cannot be read. |
| CliConfig.TierFailureAborts | pkg/config/config.go:87-151 | The first failing tier's error is the result of the whole loader. |
| CliConfig.MergedSettings | pkg/config/config.go:59-151 | Without failures, the decoded settings are the defaults with the found fragments laid over them. The found flag holds exactly when a fragment was found. |
| CliConfig.NotFoundIff | pkg/config/config.go:153-155 | The loader returns `NotFound` if and only if the verbose variable parses, no tier fails, and no tier has a file. |
| CliConfig.FinishNeverNotFound | pkg/config/config.go:157-281 | No stage after the merge reports `NotFound`. |
| CliConfig.DecodeEncode | pkg/config/config.go:159-162 | Decoding reads back every setting that encoding writes. |
| CliConfig.DecodeDefaults | pkg/config/config.go:66-67 | The defaults alone decode to zero values, except `use_eks`, which is true. |
| CliConfig.FinishConfig | pkg/config/config.go:157-281 | The code after the merge, from decoding to the `Initialized` flag, returns exactly `Finish`. |
| CliConfig.ApplyOverrides | pkg/config/config.go:164-192 | The override sequence returns exactly `Overrides`. |
| CliConfig.ApplyVerboseSpec | pkg/config/config.go:164-168 | A set `ATMOS_LOGS_VERBOSE` becomes `Logs.Verbose`. An unset one changes nothing. Nothing but `Logs` is touched. |
| CliConfig.EnvVerboseBeatsFile | pkg/config/config.go:164-168 | When `ATMOS_LOGS_VERBOSE` is set, the files' `logs.verbose` makes no difference to the outcome. |
| CliConfig.BasePathOverride | pkg/config/config.go:182-186 | A caller base path becomes the base path, whatever the files, the environment and the command line say. |
| CliConfig.BasePathFromCommandLine | pkg/config/config.go:176-186 | With no caller base path, a command-line step that always sets the base path decides it, whatever the files and the environment hold. |
| CliConfig.BasePathFromEnvironment | pkg/config/config.go:170-186 | With no caller base path and a command-line step that keeps the base path, an environment step that sets it decides it, whatever the files hold. |
| CliConfig.BasePathFromFiles | pkg/config/config.go:157-186 | When neither the environment, the command line nor the caller changes the base path, it is the one decoded from the files. |
| CliConfig.SetAbsolutePaths | pkg/config/config.go:194-230 | The in-order path code returns exactly `DeriveAbsolutePaths`. |
| CliConfig.DeriveAbsolutePathsSpec | pkg/config/config.go:194-230 | Each directory's absolute path is `Abs(Join(BasePath, <its base path>))`. The include and exclude lists become the absolute paths of the stacks directory joined with each entry, one for one and in order. The settings themselves are unchanged. |
| CliConfig.JoinAbsoluteSpec | pkg/config/config.go:203-214 | Joining succeeds if and only if every path can be made absolute, and then keeps their order, one for one. Otherwise the error is that of the first path that cannot be made absolute. |
| CliConfig.JoinAbsoluteFailure | pkg/config/config.go:203-214 | A failure to join is always a failure to make a path absolute. |
| CliConfig.StackTypeSpec | pkg/config/config.go:232-269 | A failed search is an error with its message. A search that finds no file is an error naming the include paths. A stack that names a file but has no relative path fails on reading the first relative path. Otherwise both the absolute and the relative file lists are stored. The stack is then `Directory` when the name was a path and `Logical` when not, and the settings are unchanged. |
| CliConfig.InitSuccess | pkg/config/config.go:182-280 | A successful result is initialised. It holds the caller's base path when one is given. Its absolute paths are derived from its own settings. Both the include and the exclude lists are joined onto the stacks directory, one for one. When stacks are processed, it has at least one stack file and a stack type of `Directory` or `Logical`, and a `Directory` stack has a relative path. |

## Left out

- Printing is not modelled: `PrintInfo`, `PrintInfoVerbose`, the blank lines, and the YAML dumps of the workflow definition and of the final configuration. With it goes `printVerbose` (pkg/config/config.go:35,51), which only decides whether progress is printed; the `verbose` argument of `processConfigFile` goes too. The YAML dumps can fail (`PrintAsYAML` errors), and that error path is not modelled either.
- `yaml.Marshal` of the include paths in the no-stack-files error is left out. The error carries the paths as a list instead of formatted text.
- Running a subprocess is an oracle, `Executor`, from a call to its outcome; the dry-run flag is passed to it unchanged.
- The executor oracle's outcome is a function of the call alone, so two identical calls in one run end the same way. A real subprocess could succeed once and fail the next time.
- The constant `verbose = true` argument of `ExecuteShell` and `ExecuteShellCommand` (internal/exec/worflow_utils.go:73,102) and their empty environment list are not recorded in the `Call` datatype.
- The process environment, the file system, `homedir.Dir`, `os.Getwd` and `runtime.GOOS` are inputs. The file system is a map from paths to readable or broken files.
- `filepath.Abs`, `processEnvVars`, `processCommandLineArgs`, `checkConfig` and `FindAllStackConfigsInPathsForStack` are opaque functions that may fail. Their source is not part of this model.
- CliConfig.Join: `path.Join` is modelled without its lexical clean-up: no `.`/`..` folding and no removal of duplicate slashes.
- CliConfig.JoinAbsolutePathWithPaths: its source (pkg/utils) is not part of this model. It is modelled as each path joined onto the base and made absolute, in order, with the first failure returned.
- CliConfig.Decode: Viper's `Unmarshal` is simplified. The settings are a flat map from dotted keys to strings, booleans and string lists. There is no weak typing and no nested maps. Only the fields the loader reads are decoded.
- CliConfig.ResolveStacks: when a stack names a file, Go reads the first relative path for a verbose message even when nothing is printed, and an empty list panics. The model returns the error `NoRelativeStackPath` instead of a panic.
- CliConfig.Viper.MergeConfig: the merge is a plain key-overriding map update. Behaviour specific to the Viper library, such as case-insensitive keys or how a value of another type replaces an old one, is not modelled.
- CliConfig.InitCliConfig: on an error, Go also returns the partly filled configuration; the model returns only the error. The model also does not show that `Initialized` is false on the error paths. Instead it shows that only the success path sets it.
- CliConfig.SystemTiers: the comment in config.go names `%LOCALAPPDATA%/atmos`. The code joins `atmos.yaml` directly onto the app-data directory, and the model follows the code.
- internal/exec/helmfile_generate_varfile.go and internal/exec/terraform_generate_varfile.go only plumb command-line flags around `InitCliConfig` and are not part of this model. pkg/describe/describe_affected_test.go is an integration test over real repositories and is not part of this model either.
- Constants in pkg/config/const.go are not part of this model. The file name `atmos.yaml` and the system directory `/usr/local/etc/atmos` are taken from their use and comments in config.go.
