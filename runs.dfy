/**
 * main_from_downloaded of eval.py: for every model, every configuration file of CONFIG_FILES
 * and every experiment that file loads, the experiment's tracking settings, model and output
 * directory are overwritten and the experiment is handed to the runner.
 */
module Runs {
  import opened Results
  import opened PyStrings
  import opened Seqs

  const MlflowUrl := "https://public-mlflow.deepset.ai/"
  const MlflowExperiment := "Electra"
  const OutputDir := "benchmarks"

  /** The keys of CONFIG_FILES in insertion order; the key k names the file `<k>_config.json`. */
  const ConfigNames := ["germEval18Fine", "germEval18Coarse", "germEval14"]

  // ---------------------------------------------------------------- run labels

  /** `f"{conf_name}_{model}_{j}"` */
  function RunLabel(confName: string, model: string, j: nat): string {
    confName + "_" + model + "_" + NatToString(j)
  }

  /**
   * Reads a run name back: the configuration name before the first "_", the experiment index
   * after the last "_", and the model in between.
   */
  function ParseRunLabel(runName: string): Option<(string, string, nat)> {
    var parts := Split(runName, '_');
    var confName := parts[0];
    var index := parts[|parts| - 1];
    if |parts| >= 3 && |confName| + |index| + 2 <= |runName| && index != [] && AllDigits(index) then
      Some((confName, runName[|confName| + 1..|runName| - |index| - 1], DecimalValue(index)))
    else
      None
  }

  /** The "_"-fields of a run name: the configuration, the model's own fields, the index. */
  lemma RunLabelFields(confName: string, model: string, j: nat)
    requires '_' !in confName
    ensures Split(RunLabel(confName, model, j), '_') == [confName] + Split(model, '_') + [NatToString(j)]
  {
    var index := NatToString(j);
    assert '_' !in index by {
      assert forall i :: 0 <= i < |index| ==> IsDigit(index[i]);
    }
    assert RunLabel(confName, model, j) == confName + ['_'] + (model + ['_'] + index);
    SplitAround(confName, model + ['_'] + index, '_');
    SplitAround(model, index, '_');
    SplitWithoutSeparator(confName, '_');
    SplitWithoutSeparator(index, '_');
  }

  /** A run name is read back as the configuration, model and index it was made from. */
  lemma RunLabelRoundTrip(confName: string, model: string, j: nat)
    requires '_' !in confName
    ensures ParseRunLabel(RunLabel(confName, model, j)) == Some((confName, model, j))
  {
    var runName := RunLabel(confName, model, j);
    var index := NatToString(j);
    RunLabelFields(confName, model, j);
    var parts := Split(runName, '_');
    assert parts[0] == confName && parts[|parts| - 1] == index;
    assert runName[|confName| + 1..|runName| - |index| - 1] == model;
    NatToStringRoundTrip(j);
  }

  /** With configuration names free of "_", different runs never share a run name. */
  lemma RunLabelInjective(c1: string, m1: string, j1: nat, c2: string, m2: string, j2: nat)
    requires '_' !in c1 && '_' !in c2
    requires RunLabel(c1, m1, j1) == RunLabel(c2, m2, j2)
    ensures c1 == c2 && m1 == m2 && j1 == j2
  {
    RunLabelRoundTrip(c1, m1, j1);
    RunLabelRoundTrip(c2, m2, j2);
  }

  /** None of the script's configuration names holds "_", and no name repeats. */
  lemma ConfigNamesShape()
    ensures forall c :: c in ConfigNames ==> '_' !in c
    ensures NoDuplicates(ConfigNames)
  {
  }

  // ---------------------------------------------------------------- experiments and runs

  /**
   * An experiment as load_experiments returns it: the five settings main_from_downloaded
   * assigns (`logging.mlflow_url`, `logging.mlflow_experiment`, `logging.mlflow_run_name`,
   * `parameter.model`, `general.output_dir`) and every other setting, keyed by its name.
   */
  class Experiment {
    var mlflowUrl: string
    var mlflowExperiment: string
    var mlflowRunName: string
    var model: string
    var outputDir: string
    var others: map<string, string>
  }

  /** A call `run_experiment(experiment)`: the experiment and the five settings it carries then. */
  datatype Run = Run(experiment: Experiment, mlflowUrl: string, mlflowExperiment: string,
                     mlflowRunName: string, model: string, outputDir: string)

  /** The run of the j-th experiment of configuration confName for model. */
  function Prepared(e: Experiment, confName: string, model: string, j: nat): Run {
    Run(e, MlflowUrl, MlflowExperiment, RunLabel(confName, model, j), model, OutputDir)
  }

  /** The innermost loop: the experiments of one configuration file, in order. */
  function ConfigRuns(confName: string, model: string, exps: seq<Experiment>): seq<Run> {
    seq(|exps|, j requires 0 <= j < |exps| => Prepared(exps[j], confName, model, j))
  }

  /** The middle loop: every configuration for one model; exps[c] is what the c-th file loads. */
  function ModelRuns(model: string, confNames: seq<string>, exps: seq<seq<Experiment>>): seq<Run>
    requires |exps| == |confNames|
  {
    if confNames == [] then []
    else ModelRuns(model, confNames[..|confNames| - 1], exps[..|exps| - 1])
         + ConfigRuns(confNames[|confNames| - 1], model, exps[|exps| - 1])
  }

  ghost predicate Loads(models: seq<string>, confNames: seq<string>, exps: seq<seq<seq<Experiment>>>) {
    |exps| == |models| && forall m :: 0 <= m < |exps| ==> |exps[m]| == |confNames|
  }

  /** The outer loop: every model; exps[m][c] is what the c-th file loads for the m-th model. */
  function AllRuns(models: seq<string>, confNames: seq<string>, exps: seq<seq<seq<Experiment>>>): seq<Run>
    requires Loads(models, confNames, exps)
  {
    if models == [] then []
    else AllRuns(models[..|models| - 1], confNames, exps[..|exps| - 1])
         + ModelRuns(models[|models| - 1], confNames, exps[|exps| - 1])
  }

  lemma ConfigRunsStep(confName: string, model: string, exps: seq<Experiment>, j: nat)
    requires j < |exps|
    ensures ConfigRuns(confName, model, exps[..j + 1]) ==
            ConfigRuns(confName, model, exps[..j]) + [Prepared(exps[j], confName, model, j)]
  {
  }

  lemma ModelRunsStep(model: string, confNames: seq<string>, exps: seq<seq<Experiment>>, c: nat)
    requires |exps| == |confNames| && c < |confNames|
    ensures ModelRuns(model, confNames[..c + 1], exps[..c + 1]) ==
            ModelRuns(model, confNames[..c], exps[..c]) + ConfigRuns(confNames[c], model, exps[c])
  {
    assert confNames[..c + 1][..c] == confNames[..c] && exps[..c + 1][..c] == exps[..c];
  }

  lemma AllRunsStep(models: seq<string>, confNames: seq<string>, exps: seq<seq<seq<Experiment>>>, m: nat)
    requires Loads(models, confNames, exps) && m < |models|
    ensures Loads(models[..m], confNames, exps[..m])
    ensures AllRuns(models[..m + 1], confNames, exps[..m + 1]) ==
            AllRuns(models[..m], confNames, exps[..m]) + ModelRuns(models[m], confNames, exps[m])
  {
    assert models[..m + 1][..m] == models[..m] && exps[..m + 1][..m] == exps[..m];
  }

  // ---------------------------------------------------------------- what the runs are

  ghost predicate DistinctRunNames(runs: seq<Run>) {
    forall i, k :: 0 <= i < k < |runs| ==> runs[i].mlflowRunName != runs[k].mlflowRunName
  }

  /**
   * Every run reports to the Electra experiment of the public tracking server, writes to
   * "benchmarks", and has a run name that reads back to a configuration of confNames and to the
   * run's own model, one of models.
   */
  ghost predicate NamedFor(runs: seq<Run>, confNames: seq<string>, models: seq<string>) {
    forall i :: 0 <= i < |runs| ==>
      && runs[i].mlflowUrl == MlflowUrl
      && runs[i].mlflowExperiment == MlflowExperiment
      && runs[i].outputDir == OutputDir
      && ParseRunLabel(runs[i].mlflowRunName).Some?
      && ParseRunLabel(runs[i].mlflowRunName).value.0 in confNames
      && ParseRunLabel(runs[i].mlflowRunName).value.1 == runs[i].model
      && runs[i].model in models
  }

  lemma DistinctAppend(a: seq<Run>, b: seq<Run>)
    requires DistinctRunNames(a) && DistinctRunNames(b)
    requires forall i, k :: 0 <= i < |a| && 0 <= k < |b| ==> a[i].mlflowRunName != b[k].mlflowRunName
    ensures DistinctRunNames(a + b)
  {
    var r := a + b;
    forall i, k | 0 <= i < k < |r|
      ensures r[i].mlflowRunName != r[k].mlflowRunName
    {
      if k < |a| {
        assert r[i] == a[i] && r[k] == a[k];
      } else if i < |a| {
        assert r[i] == a[i] && r[k] == b[k - |a|];
      } else {
        assert r[i] == b[i - |a|] && r[k] == b[k - |a|];
      }
    }
  }

  lemma NamedForAppend(a: seq<Run>, b: seq<Run>, confNames: seq<string>, models: seq<string>)
    requires NamedFor(a, confNames, models) && NamedFor(b, confNames, models)
    ensures NamedFor(a + b, confNames, models)
  {
    var r := a + b;
    assert forall i :: 0 <= i < |r| ==> r[i] == if i < |a| then a[i] else b[i - |a|];
  }

  /** The j-th run of a configuration is named for that configuration, the model and j. */
  lemma ConfigRunsNamed(confName: string, model: string, exps: seq<Experiment>)
    requires '_' !in confName
    ensures var runs := ConfigRuns(confName, model, exps);
      && DistinctRunNames(runs)
      && forall j :: 0 <= j < |runs| ==> ParseRunLabel(runs[j].mlflowRunName) == Some((confName, model, j))
  {
    var runs := ConfigRuns(confName, model, exps);
    forall j | 0 <= j < |runs|
      ensures ParseRunLabel(runs[j].mlflowRunName) == Some((confName, model, j))
    {
      RunLabelRoundTrip(confName, model, j);
    }
  }

  /** For one model, run names are distinct and read back to that model and one of its configurations. */
  lemma {:induction false} ModelRunsNamed(model: string, confNames: seq<string>, exps: seq<seq<Experiment>>)
    requires |exps| == |confNames| && NoDuplicates(confNames)
    requires forall c :: c in confNames ==> '_' !in c
    ensures DistinctRunNames(ModelRuns(model, confNames, exps))
    ensures NamedFor(ModelRuns(model, confNames, exps), confNames, [model])
    decreases |confNames|
  {
    if confNames != [] {
      var n := |confNames| - 1;
      var earlier := ModelRuns(model, confNames[..n], exps[..n]);
      var last := ConfigRuns(confNames[n], model, exps[n]);
      ModelRunsNamed(model, confNames[..n], exps[..n]);
      ConfigRunsNamed(confNames[n], model, exps[n]);
      assert confNames[n] !in confNames[..n];
      DistinctAppend(earlier, last);
      assert NamedFor(earlier, confNames, [model]);
      NamedForAppend(earlier, last, confNames, [model]);
    }
  }

  /**
   * With distinct models, every run of main_from_downloaded gets its own MLflow run name, and
   * every run name reads back to one of the configurations and one of the models.
   */
  lemma {:induction false} AllRunsNamed(models: seq<string>, exps: seq<seq<seq<Experiment>>>)
    requires Loads(models, ConfigNames, exps) && NoDuplicates(models)
    ensures DistinctRunNames(AllRuns(models, ConfigNames, exps))
    ensures NamedFor(AllRuns(models, ConfigNames, exps), ConfigNames, models)
    decreases |models|
  {
    if models != [] {
      var n := |models| - 1;
      var earlier := AllRuns(models[..n], ConfigNames, exps[..n]);
      var last := ModelRuns(models[n], ConfigNames, exps[n]);
      AllRunsNamed(models[..n], exps[..n]);
      ConfigNamesShape();
      ModelRunsNamed(models[n], ConfigNames, exps[n]);
      assert models[n] !in models[..n];
      DistinctAppend(earlier, last);
      assert NamedFor(earlier, ConfigNames, models);
      assert NamedFor(last, ConfigNames, models);
      NamedForAppend(earlier, last, ConfigNames, models);
    }
  }

  /** Each experiment the c-th configuration loads for a model is run, under its own index. */
  lemma {:induction false} ModelRunsCover(model: string, confNames: seq<string>, exps: seq<seq<Experiment>>,
                                          c: nat, j: nat)
    requires |exps| == |confNames| && c < |confNames| && j < |exps[c]|
    ensures Prepared(exps[c][j], confNames[c], model, j) in ModelRuns(model, confNames, exps)
    decreases |confNames|
  {
    var n := |confNames| - 1;
    var last := ConfigRuns(confNames[n], model, exps[n]);
    if c == n {
      assert last[j] == Prepared(exps[c][j], confNames[c], model, j);
    } else {
      ModelRunsCover(model, confNames[..n], exps[..n], c, j);
    }
  }

  /**
   * main_from_downloaded runs every experiment of every configuration for every model: the run
   * of the j-th experiment of the c-th configuration in the m-th round is among the runs.
   */
  lemma {:induction false} AllRunsCover(models: seq<string>, exps: seq<seq<seq<Experiment>>>, m: nat, c: nat, j: nat)
    requires Loads(models, ConfigNames, exps)
    requires m < |models| && c < |ConfigNames| && j < |exps[m][c]|
    ensures Prepared(exps[m][c][j], ConfigNames[c], models[m], j) in AllRuns(models, ConfigNames, exps)
    decreases |models|
  {
    var n := |models| - 1;
    var earlier := AllRuns(models[..n], ConfigNames, exps[..n]);
    var last := ModelRuns(models[n], ConfigNames, exps[n]);
    assert AllRuns(models, ConfigNames, exps) == earlier + last;
    if m == n {
      ModelRunsCover(models[m], ConfigNames, exps[m], c, j);
    } else {
      assert models[..n][m] == models[m] && exps[..n][m] == exps[m];
      AllRunsCover(models[..n], exps[..n], m, c, j);
    }
  }

  /** Each run of one model is the prepared run of one (configuration, experiment) pair. */
  lemma {:induction false} ModelRunsPrepared(model: string, confNames: seq<string>, exps: seq<seq<Experiment>>, i: nat)
    requires |exps| == |confNames| && i < |ModelRuns(model, confNames, exps)|
    ensures exists c, j :: 0 <= c < |confNames| && 0 <= j < |exps[c]| &&
                           ModelRuns(model, confNames, exps)[i] == Prepared(exps[c][j], confNames[c], model, j)
    decreases |confNames|
  {
    var n := |confNames| - 1;
    var earlier := ModelRuns(model, confNames[..n], exps[..n]);
    var last := ConfigRuns(confNames[n], model, exps[n]);
    if i < |earlier| {
      ModelRunsPrepared(model, confNames[..n], exps[..n], i);
      var c, j :| 0 <= c < n && 0 <= j < |exps[..n][c]| &&
                  earlier[i] == Prepared(exps[..n][c][j], confNames[..n][c], model, j);
      assert exps[..n][c] == exps[c] && confNames[..n][c] == confNames[c];
    } else {
      var j := i - |earlier|;
      assert last[j] == Prepared(exps[n][j], confNames[n], model, j);
    }
  }

  /**
   * Conversely to AllRunsCover, every run of main_from_downloaded is the prepared run of one
   * (model, configuration, experiment) triple.
   */
  lemma {:induction false} AllRunsPrepared(models: seq<string>, exps: seq<seq<seq<Experiment>>>, i: nat)
    requires Loads(models, ConfigNames, exps) && i < |AllRuns(models, ConfigNames, exps)|
    ensures exists m, c, j :: 0 <= m < |models| && 0 <= c < |ConfigNames| && 0 <= j < |exps[m][c]| &&
                              AllRuns(models, ConfigNames, exps)[i] == Prepared(exps[m][c][j], ConfigNames[c], models[m], j)
    decreases |models|
  {
    var n := |models| - 1;
    var earlier := AllRuns(models[..n], ConfigNames, exps[..n]);
    var last := ModelRuns(models[n], ConfigNames, exps[n]);
    assert AllRuns(models, ConfigNames, exps) == earlier + last;
    if i < |earlier| {
      AllRunsPrepared(models[..n], exps[..n], i);
      var m, c, j :| 0 <= m < n && 0 <= c < |ConfigNames| && 0 <= j < |exps[..n][m][c]| &&
                     earlier[i] == Prepared(exps[..n][m][c][j], ConfigNames[c], models[..n][m], j);
      assert exps[..n][m] == exps[m] && models[..n][m] == models[m];
    } else {
      ModelRunsPrepared(models[n], ConfigNames, exps[n], i - |earlier|);
    }
  }

  // ---------------------------------------------------------------- the experiments afterwards

  /** The five settings main_from_downloaded assigns. */
  datatype Assigned = Assigned(mlflowUrl: string, mlflowExperiment: string, mlflowRunName: string,
                               model: string, outputDir: string)

  ghost function AssignedOf(e: Experiment): Assigned
    reads e
  {
    Assigned(e.mlflowUrl, e.mlflowExperiment, e.mlflowRunName, e.model, e.outputDir)
  }

  function AssignedIn(r: Run): Assigned {
    Assigned(r.mlflowUrl, r.mlflowExperiment, r.mlflowRunName, r.model, r.outputDir)
  }

  /** The experiment holds the five settings of the run. */
  ghost predicate Carries(e: Experiment, r: Run)
    reads e
  {
    AssignedOf(e) == AssignedIn(r)
  }

  /** The position of the last run of experiment e among runs, or -1 when e was never run. */
  function LastIndex(runs: seq<Run>, e: Experiment): (k: int)
    ensures -1 <= k < |runs|
    ensures k >= 0 ==> runs[k].experiment == e
    ensures forall i :: k < i < |runs| ==> runs[i].experiment != e
    decreases |runs|
  {
    if runs == [] then -1
    else if runs[|runs| - 1].experiment == e then |runs| - 1
    else LastIndex(runs[..|runs| - 1], e)
  }

  /** The last run of e is the one at the largest position holding a run of e. */
  lemma LastIndexUnique(runs: seq<Run>, e: Experiment, k: int)
    requires -1 <= k < |runs| && (k >= 0 ==> runs[k].experiment == e)
    requires forall i :: k < i < |runs| ==> runs[i].experiment != e
    ensures LastIndex(runs, e) == k
  {
  }

  /** The last run of experiment e among runs: the settings it was last run with. */
  function LastRun(runs: seq<Run>, e: Experiment): Option<Run> {
    var k := LastIndex(runs, e);
    if k < 0 then None else Some(runs[k])
  }

  /** An experiment has a last run exactly when it was run. */
  lemma LastRunExists(runs: seq<Run>, e: Experiment)
    ensures LastRun(runs, e).None? <==> forall i :: 0 <= i < |runs| ==> runs[i].experiment != e
  {
  }

  /** Running one more experiment makes that run its last, and leaves every other experiment's. */
  lemma LastRunPush(runs: seq<Run>, run: Run, e: Experiment)
    ensures LastRun(runs + [run], e) == if run.experiment == e then Some(run) else LastRun(runs, e)
  {
    LastRunAppend(runs, [run], e);
  }

  lemma LastRunAppend(a: seq<Run>, b: seq<Run>, e: Experiment)
    ensures LastRun(a + b, e) == if LastRun(b, e).Some? then LastRun(b, e) else LastRun(a, e)
  {
    var r := a + b;
    var kb := LastIndex(b, e);
    var ka := LastIndex(a, e);
    if kb >= 0 {
      assert forall i :: |a| + kb < i < |r| ==> r[i] == b[i - |a|];
      LastIndexUnique(r, e, |a| + kb);
      assert r[|a| + kb] == b[kb];
    } else {
      assert forall i :: |a| <= i < |r| ==> r[i] == b[i - |a|];
      assert forall i :: ka < i < |a| ==> r[i] == a[i];
      LastIndexUnique(r, e, ka);
      if ka >= 0 {
        assert r[ka] == a[ka];
      }
    }
  }

  /**
   * Within one configuration, the j-th experiment, if it does not recur later in the list, was
   * last run as the j-th run.
   */
  lemma LastConfigRun(confName: string, model: string, exps: seq<Experiment>, j: nat)
    requires j < |exps| && exps[j] !in exps[j + 1..]
    ensures LastRun(ConfigRuns(confName, model, exps), exps[j]) == Some(Prepared(exps[j], confName, model, j))
  {
    var runs := ConfigRuns(confName, model, exps);
    assert forall i :: j < i < |runs| ==> runs[i].experiment == exps[j + 1..][i - j - 1];
    LastIndexUnique(runs, exps[j], j);
  }

  /** Every experiment object the loops visit. */
  function Visited(exps: seq<seq<seq<Experiment>>>): set<Experiment> {
    set m, c, j | 0 <= m < |exps| && 0 <= c < |exps[m]| && 0 <= j < |exps[m][c]| :: exps[m][c][j]
  }

  /**
   * When every run experiment holds the settings of its last run, every loaded experiment was
   * run and holds the settings of one of its (model, configuration, index) visits.
   */
  lemma LastRunsSettings(models: seq<string>, loaded: seq<seq<seq<Experiment>>>, runs: seq<Run>)
    requires Loads(models, ConfigNames, loaded) && runs == AllRuns(models, ConfigNames, loaded)
    requires forall e :: e in Visited(loaded) && LastRun(runs, e).Some? ==> Carries(e, LastRun(runs, e).value)
    ensures forall e :: e in Visited(loaded) ==> LastRun(runs, e).Some? && Carries(e, LastRun(runs, e).value)
    ensures forall e :: e in Visited(loaded) ==>
      exists m, c, j :: 0 <= m < |models| && 0 <= c < |ConfigNames| && 0 <= j < |loaded[m][c]| &&
                        loaded[m][c][j] == e && Carries(e, Prepared(e, ConfigNames[c], models[m], j))
  {
    forall e | e in Visited(loaded)
      ensures LastRun(runs, e).Some?
      ensures exists m, c, j :: 0 <= m < |models| && 0 <= c < |ConfigNames| && 0 <= j < |loaded[m][c]| &&
                                loaded[m][c][j] == e && Carries(e, Prepared(e, ConfigNames[c], models[m], j))
    {
      var m, c, j :| 0 <= m < |loaded| && 0 <= c < |loaded[m]| && 0 <= j < |loaded[m][c]| && loaded[m][c][j] == e;
      AllRunsCover(models, loaded, m, c, j);
      LastRunExists(runs, e);
      var i := LastIndex(runs, e);
      AllRunsPrepared(models, loaded, i);
      var m', c', j' :| 0 <= m' < |models| && 0 <= c' < |ConfigNames| && 0 <= j' < |loaded[m'][c']| &&
                        runs[i] == Prepared(loaded[m'][c'][j'], ConfigNames[c'], models[m'], j');
    }
  }

  /**
   * The settings one configuration's loop leaves behind: the j-th experiment, unless it recurs
   * later in the list, holds the tracking server URL, the tracking experiment, the run name
   * `<conf>_<model>_<j>`, the model and the output directory.
   */
  ghost predicate Configured(confName: string, model: string, experiments: seq<Experiment>)
    reads set e | e in experiments
  {
    forall j :: 0 <= j < |experiments| && experiments[j] !in experiments[j + 1..] ==>
      && experiments[j].mlflowUrl == MlflowUrl
      && experiments[j].mlflowExperiment == MlflowExperiment
      && experiments[j].mlflowRunName == RunLabel(confName, model, j)
      && experiments[j].model == model
      && experiments[j].outputDir == OutputDir
  }

  /**
   * When every experiment of one configuration holds the settings of its last run, the j-th one,
   * unless it recurs later in the list, holds the settings prepared for index j.
   */
  lemma ConfiguredSettings(confName: string, model: string, experiments: seq<Experiment>, runs: seq<Run>)
    requires runs == ConfigRuns(confName, model, experiments)
    requires forall e :: e in experiments ==> LastRun(runs, e).Some? && Carries(e, LastRun(runs, e).value)
    ensures Configured(confName, model, experiments)
  {
    forall j | 0 <= j < |experiments| && experiments[j] !in experiments[j + 1..]
      ensures AssignedOf(experiments[j]) == AssignedIn(Prepared(experiments[j], confName, model, j))
    {
      LastConfigRun(confName, model, experiments, j);
      assert experiments[j] in experiments;
    }
  }

  /**
   * One run of the innermost loop keeps its invariant: after the run of the last experiment in
   * `done`, every experiment of `done` holds the settings of its last run.
   */
  lemma CarriedAfterPush(done: seq<Experiment>, before: seq<Run>, run: Run)
    requires done != [] && run.experiment == done[|done| - 1] && Carries(run.experiment, run)
    requires forall e :: e in done[..|done| - 1] && e != run.experiment ==>
      LastRun(before, e).Some? && Carries(e, LastRun(before, e).value)
    ensures forall e :: e in done ==> LastRun(before + [run], e).Some? && Carries(e, LastRun(before + [run], e).value)
  {
    forall e | e in done
      ensures LastRun(before + [run], e).Some? && Carries(e, LastRun(before + [run], e).value)
    {
      LastRunPush(before, run, e);
      if e != run.experiment {
        assert e in done[..|done| - 1];
      }
    }
  }

  /**
   * The five assignments of the innermost loop's body: the tracking server, the tracking
   * experiment, the run name, the model and the output directory.
   */
  method Configure(experiment: Experiment, runName: string, model: string)
    modifies experiment`mlflowUrl, experiment`mlflowExperiment, experiment`mlflowRunName,
             experiment`model, experiment`outputDir
    ensures AssignedOf(experiment) == Assigned(MlflowUrl, MlflowExperiment, runName, model, OutputDir)
  {
    experiment.mlflowUrl := MlflowUrl;
    experiment.mlflowExperiment := MlflowExperiment;
    experiment.mlflowRunName := runName;
    experiment.model := model;
    experiment.outputDir := OutputDir;
  }

  /**
   * The innermost loop of main_from_downloaded: each experiment of one configuration file gets
   * the tracking settings, its run name, the model and the output directory, then is run.
   */
  method RunConfiguration(confName: string, model: string, experiments: seq<Experiment>) returns (runs: seq<Run>)
    modifies set e | e in experiments :: e`mlflowUrl, set e | e in experiments :: e`mlflowExperiment,
             set e | e in experiments :: e`mlflowRunName, set e | e in experiments :: e`model,
             set e | e in experiments :: e`outputDir
    ensures runs == ConfigRuns(confName, model, experiments)
    ensures forall e :: e in experiments ==> LastRun(runs, e).Some? && Carries(e, LastRun(runs, e).value)
    ensures Configured(confName, model, experiments)
    ensures forall e :: e in experiments ==> e.others == old(e.others)
  {
    runs := [];
    var j := 0;
    while j < |experiments|
      invariant 0 <= j <= |experiments|
      invariant runs == ConfigRuns(confName, model, experiments[..j])
      invariant forall e :: e in experiments[..j] ==> LastRun(runs, e).Some? && Carries(e, LastRun(runs, e).value)
    {
      var experiment := experiments[j];
      assert experiment in experiments;
      ghost var before := runs;
      Configure(experiment, RunLabel(confName, model, j), model);
      var run := Run(experiment, experiment.mlflowUrl, experiment.mlflowExperiment,
                     experiment.mlflowRunName, experiment.model, experiment.outputDir);
      runs := runs + [run];
      assert experiments[..j + 1][..j] == experiments[..j];
      CarriedAfterPush(experiments[..j + 1], before, run);
      ConfigRunsStep(confName, model, experiments, j);
      j := j + 1;
    }
    assert experiments[..j] == experiments;
    ConfiguredSettings(confName, model, experiments, runs);
  }

  /**
   * One configuration's loop keeps the middle loop's invariant: an experiment run in `later`
   * holds the settings of its last run there, and one outside it keeps those of `earlier`.
   */
  lemma CarriedAfterAppend(earlier: seq<Run>, later: seq<Run>, experiments: seq<Experiment>)
    requires forall e :: e !in experiments && LastRun(earlier, e).Some? ==> Carries(e, LastRun(earlier, e).value)
    requires forall e :: e in experiments ==> LastRun(later, e).Some? && Carries(e, LastRun(later, e).value)
    requires forall i :: 0 <= i < |later| ==> later[i].experiment in experiments
    ensures forall e :: LastRun(earlier + later, e).Some? ==> Carries(e, LastRun(earlier + later, e).value)
  {
    forall e | LastRun(earlier + later, e).Some?
      ensures Carries(e, LastRun(earlier + later, e).value)
    {
      LastRunAppend(earlier, later, e);
      if e !in experiments {
        LastRunExists(later, e);
      }
    }
  }

  /** Every experiment loaded for one model: exps[c] is what the c-th configuration file loads. */
  function ModelExperiments(exps: seq<seq<Experiment>>): set<Experiment> {
    set c, j | 0 <= c < |exps| && 0 <= j < |exps[c]| :: exps[c][j]
  }

  /** Every experiment loaded for a model is run for it. */
  lemma ModelRunsVisitAll(model: string, confNames: seq<string>, exps: seq<seq<Experiment>>, e: Experiment)
    requires |exps| == |confNames| && e in ModelExperiments(exps)
    ensures LastRun(ModelRuns(model, confNames, exps), e).Some?
  {
    var c, j :| 0 <= c < |exps| && 0 <= j < |exps[c]| && exps[c][j] == e;
    ModelRunsCover(model, confNames, exps, c, j);
    LastRunExists(ModelRuns(model, confNames, exps), e);
  }

  /**
   * The middle loop of main_from_downloaded: the configuration files in the order of
   * CONFIG_FILES, each with the experiments it loads for the model.
   */
  method RunModel(model: string, loaded: seq<seq<Experiment>>) returns (runs: seq<Run>)
    requires |loaded| == |ConfigNames|
    modifies ModelExperiments(loaded)`mlflowUrl, ModelExperiments(loaded)`mlflowExperiment,
             ModelExperiments(loaded)`mlflowRunName, ModelExperiments(loaded)`model,
             ModelExperiments(loaded)`outputDir
    ensures runs == ModelRuns(model, ConfigNames, loaded)
    ensures forall e :: LastRun(runs, e).Some? ==> Carries(e, LastRun(runs, e).value)
    ensures forall e :: e in ModelExperiments(loaded) ==> e.others == old(e.others)
  {
    runs := [];
    var c := 0;
    while c < |ConfigNames|
      invariant 0 <= c <= |ConfigNames|
      invariant runs == ModelRuns(model, ConfigNames[..c], loaded[..c])
      invariant forall e :: LastRun(runs, e).Some? ==> Carries(e, LastRun(runs, e).value)
    {
      var experiments := loaded[c];
      assert forall j :: 0 <= j < |experiments| ==> experiments[j] in ModelExperiments(loaded);
      ghost var earlier := runs;
      label BeforeCall:
      var configRuns := RunConfiguration(ConfigNames[c], model, experiments);
      runs := runs + configRuns;
      assert forall e :: e !in experiments && LastRun(earlier, e).Some? ==>
        old@BeforeCall(Carries(e, LastRun(earlier, e).value)) && Carries(e, LastRun(earlier, e).value);
      CarriedAfterAppend(earlier, configRuns, experiments);
      ModelRunsStep(model, ConfigNames, loaded, c);
      c := c + 1;
    }
    assert ConfigNames[..c] == ConfigNames && loaded[..c] == loaded;
  }

  /**
   * main_from_downloaded with `models` as a parameter; loaded[m][c] stands for what
   * `load_experiments` returns for the c-th configuration file in the m-th round. Only the five
   * settings are written; every other setting of every experiment is left as it was. Each
   * experiment ends up holding the settings of the last run it took part in.
   */
  method MainFromDownloaded(models: seq<string>, loaded: seq<seq<seq<Experiment>>>) returns (runs: seq<Run>)
    requires Loads(models, ConfigNames, loaded)
    modifies Visited(loaded)`mlflowUrl, Visited(loaded)`mlflowExperiment, Visited(loaded)`mlflowRunName,
             Visited(loaded)`model, Visited(loaded)`outputDir
    ensures runs == AllRuns(models, ConfigNames, loaded)
    ensures forall e :: e in Visited(loaded) ==> LastRun(runs, e).Some? && Carries(e, LastRun(runs, e).value)
    ensures forall e :: e in Visited(loaded) ==>
      exists m, c, j :: 0 <= m < |models| && 0 <= c < |ConfigNames| && 0 <= j < |loaded[m][c]| &&
                        loaded[m][c][j] == e && Carries(e, Prepared(e, ConfigNames[c], models[m], j))
    ensures forall e :: e in Visited(loaded) ==> e.others == old(e.others)
  {
    runs := [];
    var m := 0;
    while m < |models|
      invariant 0 <= m <= |models| && Loads(models[..m], ConfigNames, loaded[..m])
      invariant runs == AllRuns(models[..m], ConfigNames, loaded[..m])
      invariant forall e :: e in Visited(loaded) && LastRun(runs, e).Some? ==> Carries(e, LastRun(runs, e).value)
      invariant forall e :: e in Visited(loaded) ==> e.others == old(e.others)
    {
      assert forall e :: e in ModelExperiments(loaded[m]) ==> e in Visited(loaded);
      ghost var earlier := runs;
      label BeforeCall:
      var modelRuns := RunModel(models[m], loaded[m]);
      runs := runs + modelRuns;
      forall e | e in Visited(loaded) && LastRun(runs, e).Some?
        ensures Carries(e, LastRun(runs, e).value)
      {
        LastRunAppend(earlier, modelRuns, e);
        if LastRun(modelRuns, e).None? {
          if e in ModelExperiments(loaded[m]) {
            ModelRunsVisitAll(models[m], ConfigNames, loaded[m], e);
          }
          assert e !in ModelExperiments(loaded[m]);
          assert old@BeforeCall(Carries(e, LastRun(earlier, e).value));
        }
      }
      AllRunsStep(models, ConfigNames, loaded, m);
      m := m + 1;
    }
    assert models[..m] == models && loaded[..m] == loaded;
    LastRunsSettings(models, loaded, runs);
  }
}
