# German BERT 2.0 evaluation driver: checkpoint pipeline

This Dafny project models the checkpoint-name pipeline of
`experiments/german-bert2.0-eval/eval.py`. That script evaluates the German ELECTRA/BERT
models trained by the repository. The model covers five parts:

- **`fetch_tf_checkpoints(dir)`.** It keeps the directory entries that contain `"model.ckpt-"`
  and cuts each at its second `"."`. It collapses the names into a set and sorts them by
  `int(name.split("-")[1])`, largest first. The sort raises `IndexError` or `ValueError` when a
  key cannot be computed.
- **`fetch_pt_checkpoints(dir)`.** It keeps the entries that contain `"pt_"` and joins each to
  `dir`. It sorts them by the integer found after removing `pt_<model_type>_`, taking the last
  path component and cutting at `"-"`.
- **`convert_checkpoints(dir, model_type)`.** The `if`/`elif` chain picks a converter. A tag
  other than `bert`, `albert` or `electra` leaves `convert_tf_to_pt` unbound. For each
  checkpoint path, the step is the group of `re.search("-(\d+)$", path)`. The dump directory
  is `checkpoints_folder / f"pt_{model_type}_" + step`; it is created when missing and
  appended to `hf_checkpoints`. The checkpoint is then converted, and the configuration, the
  vocabulary and (when set) the tokenizer model are copied into the dump directory.
- **`main_from_saved`.** It is the one call the script makes, with the module-level settings
  (`model_type = "electra"` and the `electra-base-german-dbmdz-fixed-cased` paths).
- **`main_from_downloaded`.** For every model, every configuration of `CONFIG_FILES` and every
  loaded experiment, it sets five settings and runs the experiment. The settings are the MLflow
  URL, the MLflow experiment `Electra`, the run name `f"{conf_name}_{model}_{j}"`, the model
  and `output_dir = "benchmarks"`.

The modules follow the script's layers:

- `Results`: `Option`, `Result`, and the Python exceptions the code raises.
- `PyStrings`: the Python string operations used, namely `in`, `split`, `join`, `replace`,
  `int()`, `str()` of a natural number, and pathlib's `/`.
- `Seqs`: `set(...)` and the stable `sorted(..., reverse=True)`.
- `Checkpoints`: the two fetch functions.
- `Conversion`: dispatch, step extraction, dump directories, and the conversion loop.
- `Runs`: run names and the nested run loops.

Pure code is written as functions with lemmas about them. The two places where the source
changes state are methods with loops, each proved equal to a specification function:

- The conversion loop, `Conversion.ConvertEach`, returns the trace of filesystem and
  converter calls it makes.
- The run loops, `Runs.RunConfiguration`, `Runs.RunModel` and `Runs.MainFromDownloaded`,
  update `Experiment` objects in place. Their `modifies` clauses name only the five settings the source assigns.

`Runs.Experiment` is the experiment object of eval.py:111-115. It is a class with the five
settings the loop assigns (`logging.mlflow_url`, `logging.mlflow_experiment`,
`logging.mlflow_run_name`, `parameter.model` and `general.output_dir`). Every other setting
sits in one map, `others`. A `Runs.Run` records one call to `run_experiment`: the experiment,
with the five settings it carries at that moment.

A directory listing is an input sequence. The set of directories that already exist is an
input set. Each exception is a `Result`/`Option` error value; the error names the input that
caused it.

## Model

| member | source | states |
|---|---|---|
| `PyStrings.Split` | experiments/german-bert2.0-eval/eval.py:72 | `s.split(sep)` for a one-character separator: the fields between separators, never an empty list. `JoinSplit` and `SplitAround` give its contract, and `SplitWithoutSeparator` covers a string without `sep` |
| `PyStrings.Join` | experiments/german-bert2.0-eval/eval.py:72 | `sep.join(parts)`: `JoinSplit` states that it undoes `Split`, and `JoinTwo` gives the join of two fields |
| `PyStrings.ReplaceAll` | experiments/german-bert2.0-eval/eval.py:79 | `s.replace(pat, rep)`, leftmost and non-overlapping. `ReplaceAllAbsent` states that a string without `pat` is unchanged, and `ReplaceAllAround` that it works separately on each side of a character foreign to `pat` |
| `PyStrings.PyInt` | experiments/german-bert2.0-eval/eval.py:73 | `int(s)` in base 10: surrounding whitespace, one sign, and single `_` between digits. `PyIntOfDigits` gives its value on digits, and `PyIntRejectsSeparator` its `ValueError` on a leading U+001C to U+001F |
| `PyStrings.JoinSplit` | experiments/german-bert2.0-eval/eval.py:72 | joining the fields of `s.split(sep)` with `sep` gives back `s` |
| `PyStrings.SplitAround` | experiments/german-bert2.0-eval/eval.py:72 | splitting `a + sep + b` gives the fields of `a` followed by the fields of `b` |
| `PyStrings.ReplaceAllAround` | experiments/german-bert2.0-eval/eval.py:79 | `replace` of a pattern without the character `c` works separately on each side of `c` |
| `PyStrings.NatToString` | experiments/german-bert2.0-eval/eval.py:110 | `str(j)` for the index in `f"{conf_name}_{model}_{j}"`: at least one ASCII digit, and `NatToStringRoundTrip` reads its value back |
| `PyStrings.NatToStringRoundTrip` | experiments/german-bert2.0-eval/eval.py:110 | the decimal value of `str(n)` is `n` |
| `PyStrings.PyIntOfDigits` | experiments/german-bert2.0-eval/eval.py:73 | `int()` of a non-empty string of ASCII digits is its decimal value |
| `PyStrings.PyIntRejectsSeparator` | experiments/german-bert2.0-eval/eval.py:73 | `int()` raises `ValueError` on a string that starts with one of U+001C to U+001F: CPython strips only ASCII space and `\t` to `\r` among ASCII characters |
| `PyStrings.Contains` | experiments/german-bert2.0-eval/eval.py:71 | Python's `sub in s` (also at line 78): `ContainsAt` shows it holds exactly when `sub` occurs at some position of `s` |
| `PyStrings.JoinPath` | experiments/german-bert2.0-eval/eval.py:53 | pathlib's `dir / name` (also at lines 59 and 78), for a directory in pathlib's normal form. `JoinPathLastComponent` shows the name is its last component, and `DumpFilesApart` shows the four dump files get four distinct paths |
| `PyStrings.JoinPathLastComponent` | experiments/german-bert2.0-eval/eval.py:53 | the last `/`-component of `dir / name` is `name` |
| `Seqs.Dedup` | experiments/german-bert2.0-eval/eval.py:72 | `set(...)` as a sequence: no duplicates, and exactly the members of the input |
| `Seqs.SortDesc` | experiments/german-bert2.0-eval/eval.py:73 | `sorted(..., reverse=True)` gives keys in non-increasing order and is a permutation of its input |
| `Seqs.SortDescStable` | experiments/german-bert2.0-eval/eval.py:79 | elements with equal keys keep their input order |
| `Checkpoints.FetchTfCheckpoints` | experiments/german-bert2.0-eval/eval.py:69-74 | fetch_tf_checkpoints on a given listing. Its contract is in `FetchTfKeepsExactlyCheckpointPrefixes`, `FetchTfNoDuplicates`, `FetchTfDescending` and `FetchTfFails` |
| `Checkpoints.CheckpointPrefix` | experiments/german-bert2.0-eval/eval.py:72 | `".".join(f.split(".")[:2])`: `CheckpointPrefixShape` characterises it independently, and `CheckpointPrefixOfFields` computes it on `a.b` and `a.b.<rest>` |
| `Checkpoints.TfKey` | experiments/german-bert2.0-eval/eval.py:73 | the sort key `int(x.split("-")[1])`, with `IndexError` when there is no `-` and `ValueError` when the field is not an integer. `TfKeyOfFields`, `TfKeyOfCheckpointName`, `TfKeyRejectsSeparator` and `EmbeddedMarkerFails` give its value on each kind of name |
| `Checkpoints.FetchPtCheckpoints` | experiments/german-bert2.0-eval/eval.py:76-80 | fetch_pt_checkpoints on a given listing. Its contract is in `FetchPtSelectsPtEntries`, `FetchPtDescending`, `FetchPtStable` and `FetchPtFails` |
| `Checkpoints.PtKeyField` | experiments/german-bert2.0-eval/eval.py:79 | the field `str(x).replace(f"pt_{model_type}_", "").split("/")[-1].split("-")[0]`. `Conversion.DumpDirStepField` states that it is the step of a dump directory |
| `Checkpoints.PtKey` | experiments/german-bert2.0-eval/eval.py:79 | `int()` of that field, with `ValueError` when it is not an integer. `PtKeyOfDigits` and `Conversion.DumpDirReadBack` give its value |
| `Checkpoints.FirstKeyError` | experiments/german-bert2.0-eval/eval.py:73 | there is no error exactly when every key can be computed; an error is the error of some element's key |
| `Checkpoints.SortedByKey` | experiments/german-bert2.0-eval/eval.py:73 | `sorted(..., key=..., reverse=True)` with a key that can raise (also at line 79). `FirstKeyError`, `SortedByKeyOutcome` and `SortedByKeyDescending` give its contract: an error exactly when some key fails, otherwise a permutation with every key computable and keys not increasing |
| `Checkpoints.SortedByKeyOutcome` | experiments/german-bert2.0-eval/eval.py:73 | a sort with a raising key succeeds exactly when every key is computable; it then permutes its input, otherwise it raises one element's error |
| `Checkpoints.SortedByKeyDescending` | experiments/german-bert2.0-eval/eval.py:73 | after a successful sort, every key is computable and keys do not increase |
| `Checkpoints.CheckpointPrefixShape` | experiments/german-bert2.0-eval/eval.py:72 | `".".join(f.split(".")[:2])` is the longest beginning of `f` with at most one `"."`; when it is shorter, it stops at a second `"."` |
| `Checkpoints.CheckpointPrefixOfFields` | experiments/german-bert2.0-eval/eval.py:72 | a name `a.b` and every `a.b.<rest>` are both cut to `a.b` |
| `Checkpoints.TfKeyOfFields` | experiments/german-bert2.0-eval/eval.py:73 | `int(x.split("-")[1])` of `a-<digits>` (with no `-` in `a`) is the digits' value |
| `Checkpoints.TruncatedTfFiles` | experiments/german-bert2.0-eval/eval.py:71-72 | the entries holding `"model.ckpt-"`, each cut at its second `"."`. `TruncatedTfFilesMembers` states exactly which names it produces |
| `Checkpoints.CheckpointPrefixes` | experiments/german-bert2.0-eval/eval.py:72 | `set(...)` of those names. `CheckpointPrefixesMembers` gives its members in both directions, `FetchTfNoDuplicates` shows no name twice, and `CheckpointPrefixesFail` says when sorting it fails |
| `Checkpoints.TruncatedTfFilesMembers` | experiments/german-bert2.0-eval/eval.py:71-72 | a name is produced exactly when some listed file containing `"model.ckpt-"` truncates to it |
| `Checkpoints.FetchTfKeepsExactlyCheckpointPrefixes` | experiments/german-bert2.0-eval/eval.py:69-74 | on success, the result holds exactly the truncated names of the entries containing `"model.ckpt-"` |
| `Checkpoints.FetchTfNoDuplicates` | experiments/german-bert2.0-eval/eval.py:72-74 | on success, no name appears twice |
| `Checkpoints.FetchTfDescending` | experiments/german-bert2.0-eval/eval.py:73 | on success, every name has an integer step and steps do not increase along the result |
| `Checkpoints.FetchTfFails` | experiments/german-bert2.0-eval/eval.py:71-73 | it raises exactly when some kept entry's truncated name has no computable key; the exception is that name's |
| `Checkpoints.TfFileNamePrefix` | experiments/german-bert2.0-eval/eval.py:72 | `model.ckpt-<d>.<ext>` and `model.ckpt-<d>` both truncate to `model.ckpt-<d>` |
| `Checkpoints.TfKeyOfCheckpointName` | experiments/german-bert2.0-eval/eval.py:73 | the key of `model.ckpt-<d>` is the value of `d` |
| `Checkpoints.TfKeyRejectsSeparator` | experiments/german-bert2.0-eval/eval.py:73 | a step field that starts with one of U+001C to U+001F makes the key raise `ValueError` with that field |
| `Checkpoints.EmbeddedMarkerFails` | experiments/german-bert2.0-eval/eval.py:71-73 | a file `a.model.ckpt-<rest>` (with no `.` or `-` in `a`) is kept, truncates to `a.model`, and makes the fetch raise `IndexError(a.model)` |
| `Checkpoints.PtKeyOfDigits` | experiments/german-bert2.0-eval/eval.py:79 | a step field of plain digits gives its value as the sort key |
| `Checkpoints.PtCandidates` | experiments/german-bert2.0-eval/eval.py:78 | `dir / f` for each listed `f` holding `"pt_"`. `PtCandidatesMembers` gives its members in both directions, and `PtCandidatesFail` says when sorting it fails |
| `Checkpoints.PtCandidatesMembers` | experiments/german-bert2.0-eval/eval.py:78 | a path is selected exactly when it is `dir / f` for a listed `f` containing `"pt_"` |
| `Checkpoints.FetchPtSelectsPtEntries` | experiments/german-bert2.0-eval/eval.py:76-80 | on success, the result is a permutation of the selected paths: nothing added or lost |
| `Checkpoints.FetchPtDescending` | experiments/german-bert2.0-eval/eval.py:79 | on success, the parsed steps do not increase along the result |
| `Checkpoints.FetchPtStable` | experiments/german-bert2.0-eval/eval.py:79 | paths with equal steps keep their listing order |
| `Checkpoints.FetchPtFails` | experiments/german-bert2.0-eval/eval.py:79 | it raises exactly when some selected path has no integer step field, and the exception is a `ValueError` |
| `Conversion.SelectConverter` | experiments/german-bert2.0-eval/eval.py:45-50 | the `if`/`elif` dispatch, with `None` where `convert_tf_to_pt` stays unbound. `SelectConverterExactly` and `SelectConverterOfTag` give its contract |
| `Conversion.StepOf` | experiments/german-bert2.0-eval/eval.py:57 | the group of `re.search("-(\d+)$", path)`, `None` where the search finds no match. `StepOfIsMatch` ties it, in both directions, to the independent `StepMatch` |
| `Conversion.DumpDirName` | experiments/german-bert2.0-eval/eval.py:58 | `f"pt_{model_type}_" + step`: `DumpDirNameSelected` and `DumpDirStepField` state what fetch_pt_checkpoints reads back from it |
| `Conversion.DumpDir` | experiments/german-bert2.0-eval/eval.py:59 | `checkpoints_folder / dump_dir_name`: `DumpDirReadBack` states that it is selected and keyed by its step |
| `Conversion.SelectConverterExactly` | experiments/german-bert2.0-eval/eval.py:45-50 | exactly `bert`, `albert` and `electra` bind a converter, each its own |
| `Conversion.SelectConverterOfTag` | experiments/german-bert2.0-eval/eval.py:45-50 | each converter is selected by its tag |
| `Conversion.TrailingDigitsShape` | experiments/german-bert2.0-eval/eval.py:57 | `\d+` anchored at the end takes the longest run of trailing digits |
| `Conversion.StepOfSound` | experiments/german-bert2.0-eval/eval.py:57 | a step found is a match of `-(\d+)$`, ending the path or followed by one final newline |
| `Conversion.StepOfComplete` | experiments/german-bert2.0-eval/eval.py:57 | every match of `-(\d+)$` is the step found |
| `Conversion.StepOfIsMatch` | experiments/german-bert2.0-eval/eval.py:57 | the step found is `d` if and only if `-(\d+)$` matches with group `d` |
| `Conversion.StepOfCheckpointPath` | experiments/german-bert2.0-eval/eval.py:53-57 | the step of `dir / "model.ckpt-<d>"` is `d`, in any directory |
| `Conversion.DumpDirNameSelected` | experiments/german-bert2.0-eval/eval.py:58 | every dump directory name contains `"pt_"`, so fetch_pt_checkpoints selects it |
| `Conversion.DumpDirStepField` | experiments/german-bert2.0-eval/eval.py:79 | the field fetch_pt_checkpoints parses from a dump directory is its step |
| `Conversion.DumpDirReadBack` | experiments/german-bert2.0-eval/eval.py:78-79 | a dump directory is selected by fetch_pt_checkpoints, and its sort key is its step's value |
| `Conversion.ConvertedCheckpointKeepsItsStep` | experiments/german-bert2.0-eval/eval.py:57-59 | checkpoint `model.ckpt-<d>` and its dump directory sort by the same value `d` |
| `Conversion.DumpDirOf` | experiments/german-bert2.0-eval/eval.py:57-59 | the dump directory of one checkpoint path, or `None` when the path has no step, so that `re.search(...)[1]` raises `TypeError`. `ConvertLoopDumpDirs` and `ConvertCheckpointsConvertsAll` show it is the directory appended to `hf_checkpoints` |
| `Conversion.Copies` | experiments/german-bert2.0-eval/eval.py:64-67 | the three `copyfile` calls into the dump directory. `CopiesFiles` states which files are copied |
| `Conversion.CopiesFiles` | experiments/german-bert2.0-eval/eval.py:64-67 | the configuration and the vocabulary are copied into the dump directory; the tokenizer model is copied exactly when it is set |
| `Conversion.DumpFilesApart` | experiments/german-bert2.0-eval/eval.py:63-67 | each written file lands in the dump directory under its own name, so the model weights and the copies never overwrite one another |
| `Conversion.TfCheckpointPaths` | experiments/german-bert2.0-eval/eval.py:53 | one path `dir / name` per checkpoint name, in order |
| `Conversion.Work` | experiments/german-bert2.0-eval/eval.py:63-67 | the conversion and the copies for one checkpoint. `WorkEffects` states the one converter call it makes, and `DumpFilesApart` shows its files do not collide |
| `Conversion.WorkEffects` | experiments/german-bert2.0-eval/eval.py:63-67 | the work for one checkpoint creates no directory and calls the converter once: on that checkpoint, with `bert_config_file`, writing `pytorch_model.bin` into the dump directory |
| `Conversion.ConvertLoop` | experiments/german-bert2.0-eval/eval.py:54-67 | the loop as a recursive specification. `ConvertEach` equals it. The `ConvertLoop*` lemmas state what it does: the k-th converter call uses the bound converter, the k-th checkpoint, `bert_config_file` and the k-th dump directory (`ConvertLoopConverts`), and with no converter the first checkpoint ends the loop with `TypeError` or, once its directory is made and appended, `UnboundLocalError` (`ConvertLoopUnboundConvertsNothing`) |
| `Conversion.ConvertCheckpointsSpec` | experiments/german-bert2.0-eval/eval.py:44-67 | convert_checkpoints as a specification: dispatch, then fetch, then the loop. `ConvertCheckpoints` equals it. `ConvertCheckpointsFinishes` states when it finishes, and `ConvertCheckpointsConvertsAll` shows each checkpoint converted by the converter the dispatch selects, with `bert_config_file`, into its own dump directory |
| `Conversion.ConvertEach` | experiments/german-bert2.0-eval/eval.py:54-67 | the loop's directories, effects and exception are those of the loop specification `ConvertLoop` |
| `Conversion.ConvertCheckpoints` | experiments/german-bert2.0-eval/eval.py:44-67 | dispatch, fetch and loop together give the specification's outcome |
| `Conversion.MainFromSaved` | experiments/german-bert2.0-eval/eval.py:82-84 | the script's call gives the specification's outcome and never raises `UnboundLocalError` |
| `Conversion.ConvertLoopFinishes` | experiments/german-bert2.0-eval/eval.py:55-63 | the loop finishes exactly when every checkpoint has a dump directory and a converter is bound (or there are no checkpoints), given that `os.mkdir`, the converter and `copyfile` return normally |
| `Conversion.ConvertLoopErrors` | experiments/german-bert2.0-eval/eval.py:57-63 | a `TypeError` names a checkpoint without a step; an `UnboundLocalError` means no converter |
| `Conversion.ConvertLoopDumpDirs` | experiments/german-bert2.0-eval/eval.py:59-62 | `hf_checkpoints` gets the dump directory of each processed checkpoint, in order, and all of them when the loop finishes |
| `Conversion.ConvertLoopMakesMissingDirs` | experiments/german-bert2.0-eval/eval.py:60-61 | a directory is created exactly when it is a dump directory that did not exist before |
| `Conversion.ConvertLoopMakesDirsOnce` | experiments/german-bert2.0-eval/eval.py:60-61 | no directory is created twice, and an existing one never |
| `Conversion.ConvertLoopConverts` | experiments/german-bert2.0-eval/eval.py:55-63 | the processed checkpoints are converted once each, in order. The k-th call is `convert_tf_to_pt(tfcs[k], bert_config_file, hf[k] / "pytorch_model.bin")` with the bound converter |
| `Conversion.ConvertLoopUnboundConvertsNothing` | experiments/german-bert2.0-eval/eval.py:45-63 | without a converter nothing is converted, and the first checkpoint ends the loop. With no step it raises `TypeError`. Otherwise its dump directory is made if missing and appended, and then `UnboundLocalError` is raised |
| `Conversion.ConvertCheckpointsFinishes` | experiments/german-bert2.0-eval/eval.py:44-67 | convert_checkpoints finishes exactly when the fetch succeeds, every path has a step, and a converter is bound or there is nothing to convert, given that `os.mkdir`, the converter and `copyfile` return normally |
| `Conversion.ConvertCheckpointsConvertsAll` | experiments/german-bert2.0-eval/eval.py:52-63 | when it finishes, `hf_checkpoints` holds `checkpoints_folder / pt_<type>_<step>` for each checkpoint in fetch order, and each checkpoint was converted once, in that order, by the converter that `model_type` selects, with `bert_config_file`, into its own dump directory |
| `Conversion.ScriptNeverUnbound` | experiments/german-bert2.0-eval/eval.py:44-50 | with `model_type = "electra"` the script never raises `UnboundLocalError` |
| `Runs.RunLabel` | experiments/german-bert2.0-eval/eval.py:110 | `f"{conf_name}_{model}_{j}"`: `RunLabelRoundTrip` reads it back and `RunLabelInjective` shows no two runs share a name |
| `Runs.RunLabelFields` | experiments/german-bert2.0-eval/eval.py:110 | the `_`-fields of a run name are the configuration, the model's own fields and the index |
| `Runs.RunLabelRoundTrip` | experiments/german-bert2.0-eval/eval.py:110 | a run name reads back to the configuration, model and index it was made from |
| `Runs.RunLabelInjective` | experiments/german-bert2.0-eval/eval.py:110 | when configuration names hold no `_`, different (configuration, model, index) triples get different run names |
| `Runs.ConfigRuns` | experiments/german-bert2.0-eval/eval.py:109-116 | the runs of the inner loop as a specification. `RunConfiguration` equals it, and `ConfigRunsNamed` states its names |
| `Runs.ModelRuns` | experiments/german-bert2.0-eval/eval.py:107-116 | the runs of the middle loop as a specification. `RunModel` equals it, and `ModelRunsNamed`, `ModelRunsCover` and `ModelRunsPrepared` state what it holds |
| `Runs.AllRuns` | experiments/german-bert2.0-eval/eval.py:106-116 | the runs of the whole nest as a specification. `MainFromDownloaded` equals it, and `AllRunsNamed`, `AllRunsCover` and `AllRunsPrepared` state what it holds |
| `Runs.Prepared` | experiments/german-bert2.0-eval/eval.py:110-115 | the run of the j-th experiment of a configuration for a model, with the five settings the loop body assigns. `AllRunsCover` and `AllRunsPrepared` show the runs are exactly these, and `Configure` and `ConfiguredSettings` show the experiment holds them |
| `Runs.ConfigRunsNamed` | experiments/german-bert2.0-eval/eval.py:109-110 | the j-th run of a configuration is named for that configuration, the model and j; the names are distinct |
| `Runs.ModelRunsNamed` | experiments/german-bert2.0-eval/eval.py:107-115 | for one model, run names are distinct and each reads back to that model and one of its configurations |
| `Runs.AllRunsNamed` | experiments/german-bert2.0-eval/eval.py:106-116 | with distinct models, every run has its own run name. Every run reports to `Electra` on the public tracking server, writes to `benchmarks`, and its name reads back to a configuration and to the run's own model |
| `Runs.ModelRunsCover` | experiments/german-bert2.0-eval/eval.py:107-116 | every experiment of every configuration is run for the model, under its own index |
| `Runs.AllRunsCover` | experiments/german-bert2.0-eval/eval.py:106-116 | every (model, configuration, experiment) triple is run, prepared with its own settings |
| `Runs.ModelRunsPrepared` | experiments/german-bert2.0-eval/eval.py:107-116 | every run for one model is the prepared run of one (configuration, experiment) pair |
| `Runs.AllRunsPrepared` | experiments/german-bert2.0-eval/eval.py:106-116 | every run is the prepared run of one (model, configuration, experiment) triple, the converse of `AllRunsCover` |
| `Runs.ModelRunsVisitAll` | experiments/german-bert2.0-eval/eval.py:107-116 | every experiment loaded for a model is run for it |
| `Runs.LastIndex` | experiments/german-bert2.0-eval/eval.py:111-115 | the position of the last run of `e`: a run of `e`, with no run of `e` after it, or -1 when there is none |
| `Runs.LastIndexUnique` | experiments/german-bert2.0-eval/eval.py:111-115 | any position holding a run of `e` with no run of `e` after it is the last position |
| `Runs.LastRun` | experiments/german-bert2.0-eval/eval.py:111-115 | the settings an experiment was last run with: `None` exactly when it was never run |
| `Runs.LastRunExists` | experiments/german-bert2.0-eval/eval.py:111-115 | an experiment has a last run exactly when some run in the list is a run of it |
| `Runs.LastRunPush` | experiments/german-bert2.0-eval/eval.py:111-115 | after one more run, an experiment's last run is that run if it is a run of that experiment, and otherwise what it was before |
| `Runs.LastRunAppend` | experiments/german-bert2.0-eval/eval.py:111-115 | the last run of `e` in `a + b` is its last run in `b`, or in `a` when `b` has none |
| `Runs.LastConfigRun` | experiments/german-bert2.0-eval/eval.py:109-115 | within one configuration, the j-th experiment, unless it recurs later in the list, was last run as run j |
| `Runs.LastRunsSettings` | experiments/german-bert2.0-eval/eval.py:106-116 | when every run experiment holds the settings of its last run, every loaded experiment was run and holds the settings of one of its (model, configuration, index) visits |
| `Runs.Configure` | experiments/german-bert2.0-eval/eval.py:111-115 | the five assignments of the loop body: afterwards the experiment holds the MLflow URL, `Electra`, the given run name, the given model and `benchmarks`, and only those five settings were written |
| `Runs.CarriedAfterPush` | experiments/german-bert2.0-eval/eval.py:109-116 | one more run of the inner loop keeps its invariant: every experiment handled so far holds the settings of its last run |
| `Runs.ConfiguredSettings` | experiments/german-bert2.0-eval/eval.py:109-115 | `Configured`: after one configuration's loop, the j-th experiment, unless it recurs later in the list, holds the tracking server URL, the experiment name, the run name `<conf>_<model>_<j>`, the model and the output directory of run j |
| `Runs.RunConfiguration` | experiments/german-bert2.0-eval/eval.py:109-116 | the inner loop runs each experiment in order with the five settings assigned. Afterwards, every experiment holds the settings of its last run, and (`Configured`) the j-th one, unless it recurs later, holds the MLflow URL, `Electra`, run name `f"{conf_name}_{model}_{j}"`, the model and `benchmarks`. Its other settings are unchanged |
| `Runs.RunModel` | experiments/german-bert2.0-eval/eval.py:107-116 | the middle loop gives the runs of `ModelRuns`. Afterwards, every experiment it ran holds the settings of its last run, and no other setting changes |
| `Runs.CarriedAfterAppend` | experiments/german-bert2.0-eval/eval.py:107-116 | one configuration's loop keeps the middle loop's invariant: an experiment it ran holds the settings of its last run there, any other keeps the settings of its last earlier run |
| `Runs.MainFromDownloaded` | experiments/german-bert2.0-eval/eval.py:103-117 | the runs are those of the nested model, configuration, experiment order given by `AllRuns`. Afterwards, every loaded experiment was run and holds the five settings of its last run, which are those of one of its (model, configuration, index) visits. No other setting of any experiment changes |

## Left out

- Filesystem access is not modelled. `os.listdir` is an input listing and `os.path.isdir` an input set of existing directories. `os.mkdir`, `copyfile` and the converter calls are entries of a returned effect trace.
- ConvertLoopFinishes and ConvertCheckpointsFinishes: `os.mkdir`, the converters and `copyfile` are assumed to return normally. In Python, `os.mkdir` raises `FileExistsError` when a regular file already has the dump directory's name and `FileNotFoundError` when `checkpoints_folder` is missing. A converter may raise, and `copyfile` raises `FileNotFoundError`, for instance when `vocab_file` does not exist. The two lemmas' "finishes exactly when" counts only the failures raised by the script's own code: the fetch's `IndexError` or `ValueError`, the `TypeError` of subscripting a failed regex match, and the unbound converter's `UnboundLocalError`.
- The three converters and `torch` are external code. The model records only the call: which converter, on which checkpoint, with which configuration file, and into which file.
- RunConfiguration, RunModel and MainFromDownloaded: `run_experiment` is assumed not to modify the experiment it receives. Their after-loop state rests on that assumption: every experiment holds the five settings of its last run, and no other setting changes. Its source is not part of this model.
- `load_experiments` and `run_experiment` are external code. What `load_experiments` returns for the c-th configuration in the m-th round is an input; a run is recorded as the experiment with the five settings it carries at that moment.
- The nested experiment object (`logging`, `parameter`, `general`) is flattened into one class. It has the five assigned settings plus one map for all other settings. The after-loop claims of `RunConfiguration`, `RunModel` and `MainFromDownloaded` therefore assume that no two loaded experiments share a `logging`, `parameter` or `general` object: flattening cannot express such sharing, and a write through one experiment would then show up in another.
- The MLflow service and `torch.cuda.empty_cache()` are external effects with no bearing on the values computed.
- The `print` calls are output only.
- The commented-out loop of `main_from_saved` is dead code.
- `main_from_downloaded` reads a module-level `models` that the script never defines, so it would raise `NameError` as written. The model takes `models` as a parameter.
- `fetch_pt_checkpoints` reads the module-level `model_type`; the model passes it as a parameter.
- `int()` and the regular expression's `\d` are restricted to ASCII digits. Python also accepts other Unicode decimal digits.
- PyInt: CPython's limit on the number of digits `int()` converts is not modelled. The limit is 4300 by default since 3.11 and in the 3.7–3.10 security releases. A step field longer than that parses in the model, where CPython raises `ValueError`. `FetchTfFails` and `FetchPtFails` therefore assume steps shorter than the limit.
- Python's `set` iterates in an unspecified order. The model keeps first-occurrence order. Contracts about `fetch_tf_checkpoints` state only order-independent facts (membership, no duplicates, non-increasing keys), so the relative order of names with equal keys is not claimed.
- The `regex` package stands in for `re`. For the pattern `-(\d+)$`, the two behave the same with ASCII input.
- JoinPath: pathlib normalisation is modelled only for a directory already in pathlib's normal form. Such a directory has no `//` and no `.` component; a trailing `/`, the whole directory `"."` and the empty directory are handled. Joining gives `dir + "/" + name`, and `"."` and the empty directory give the bare name. pathlib would also drop inner and trailing `.` components (`Path("a/./b") / "x"` is `a/b/x`); the model keeps them.
- `tokenizer_model` is an optional path. When it is set, its truthiness is assumed true, as for any `Path`.
- `hf_checkpoints` is a local the source never returns. The model returns it so that properties can be stated about it.
