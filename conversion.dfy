/**
 * `convert_checkpoints` and `main_from_saved` of eval.py: every TensorFlow checkpoint found in a
 * directory is converted into a PyTorch checkpoint directory named after its training step.
 *
 * The directory listing is an input, the directories that already exist are an input set, and
 * the filesystem and converter calls the loop makes are returned as a trace of effects.
 */
module Conversion {
  import opened Results
  import opened PyStrings
  import opened Seqs
  import opened Checkpoints

  // ---------------------------------------------------------------- converter dispatch

  /** The three TensorFlow-to-PyTorch converters eval.py imports. */
  datatype Converter = BertConverter | AlbertConverter | ElectraConverter

  /**
   * The `if`/`elif` chain binding `convert_tf_to_pt`; None when no branch matches, in which
   * case the name stays unbound until its first use raises.
   */
  function SelectConverter(modelType: string): Option<Converter> {
    if modelType == "bert" then Some(BertConverter)
    else if modelType == "albert" then Some(AlbertConverter)
    else if modelType == "electra" then Some(ElectraConverter)
    else None
  }

  /** The model-type tag each converter is selected by. */
  function ConverterTag(c: Converter): string {
    match c
    case BertConverter => "bert"
    case AlbertConverter => "albert"
    case ElectraConverter => "electra"
  }

  /** Exactly the three tags select a converter, and each selects its own. */
  lemma SelectConverterExactly(modelType: string)
    ensures SelectConverter(modelType).Some? <==> modelType in ["bert", "albert", "electra"]
    ensures SelectConverter(modelType).Some? ==> ConverterTag(SelectConverter(modelType).value) == modelType
  {
  }

  lemma SelectConverterOfTag(c: Converter)
    ensures SelectConverter(ConverterTag(c)) == Some(c)
  {
  }

  // ---------------------------------------------------------------- step extraction

  predicate EndsWith(s: string, suffix: string) {
    |suffix| <= |s| && s[|s| - |suffix|..] == suffix
  }

  /** The longest run of ASCII digits at the end of s. */
  function TrailingDigits(s: string): string
    decreases |s|
  {
    if s == [] || !IsDigit(s[|s| - 1]) then [] else TrailingDigits(s[..|s| - 1]) + [s[|s| - 1]]
  }

  lemma {:induction false} TrailingDigitsShape(s: string)
    ensures var d := TrailingDigits(s);
      && EndsWith(s, d) && AllDigits(d)
      && (|d| < |s| ==> !IsDigit(s[|s| - |d| - 1]))
    decreases |s|
  {
    if s != [] && IsDigit(s[|s| - 1]) {
      var init := s[..|s| - 1];
      TrailingDigitsShape(init);
      var d := TrailingDigits(init);
      assert s == init + [s[|s| - 1]];
      assert s[|s| - |d| - 1..] == init[|init| - |d|..] + [s[|s| - 1]];
      if |d| + 1 < |s| {
        assert s[|s| - |d| - 2] == init[|init| - |d| - 1];
      }
    }
  }

  lemma {:induction false} TrailingDigitsOf(a: string, d: string)
    requires AllDigits(d) && (a == [] || !IsDigit(a[|a| - 1]))
    ensures TrailingDigits(a + d) == d
    decreases |d|
  {
    if d == [] {
      assert a + d == a;
    } else {
      var init := d[..|d| - 1];
      assert (a + d)[..|a + d| - 1] == a + init;
      TrailingDigitsOf(a, init);
    }
  }

  /** Where `$` may match: the path without one final newline. */
  function Chomp(path: string): string {
    if path != [] && path[|path| - 1] == '\n' then path[..|path| - 1] else path
  }

  /**
   * `re.search("-(\d+)$", path)[1]`: the digits after the last "-", when they run to the end
   * of the path or to a single final newline; None when the search finds no match.
   */
  function StepOf(path: string): Option<string> {
    var body := Chomp(path);
    var d := TrailingDigits(body);
    if 0 < |d| < |body| && body[|body| - |d| - 1] == '-' then Some(d) else None
  }

  /** The pattern `-(\d+)$` matches path with d as its group. */
  predicate StepMatch(path: string, d: string) {
    && |d| >= 1 && AllDigits(d)
    && (EndsWith(path, ['-'] + d) || EndsWith(path, ['-'] + d + ['\n']))
  }

  /** The step found is a match of the pattern. */
  lemma StepOfSound(path: string)
    ensures StepOf(path).Some? ==> StepMatch(path, StepOf(path).value)
  {
    var body := Chomp(path);
    var d := TrailingDigits(body);
    TrailingDigitsShape(body);
    if StepOf(path).Some? {
      var n := |body| - |d| - 1;
      assert body[n..] == [body[n]] + body[n + 1..];
      assert body[n..] == ['-'] + d;
      if body != path {
        assert path == body + ['\n'];
        assert path[n..] == body[n..] + ['\n'];
      }
    }
  }

  lemma StepOfDashDigits(a: string, d: string)
    requires |d| >= 1 && AllDigits(d)
    ensures StepOf(a + ['-'] + d) == Some(d)
    ensures StepOf(a + ['-'] + d + ['\n']) == Some(d)
  {
    var b := a + ['-'] + d;
    assert b == (a + ['-']) + d;
    TrailingDigitsOf(a + ['-'], d);
    assert b[|b| - |d| - 1] == '-';
    assert Chomp(b) == b by {
      assert b[|b| - 1] == d[|d| - 1];
    }
    assert Chomp(b + ['\n']) == b by {
      assert (b + ['\n'])[..|b|] == b;
    }
  }

  /** Every match of the pattern is the step found. */
  lemma StepOfComplete(path: string, d: string)
    requires StepMatch(path, d)
    ensures StepOf(path) == Some(d)
  {
    if EndsWith(path, ['-'] + d) {
      var a := path[..|path| - |d| - 1];
      assert path == a + ['-'] + d;
      StepOfDashDigits(a, d);
    } else {
      var a := path[..|path| - |d| - 2];
      assert path == a + ['-'] + d + ['\n'];
      StepOfDashDigits(a, d);
    }
  }

  /** StepOf finds exactly the group of the match, so the step is unique when there is one. */
  lemma StepOfIsMatch(path: string, d: string)
    ensures StepOf(path) == Some(d) <==> StepMatch(path, d)
  {
    StepOfSound(path);
    if StepMatch(path, d) {
      StepOfComplete(path, d);
    }
  }

  /** The step of the TensorFlow checkpoint of step d is d, whatever directory holds it. */
  lemma StepOfCheckpointPath(dir: string, d: string)
    requires |d| >= 1 && AllDigits(d)
    ensures StepOf(JoinPath(dir, TfMarker + d)) == Some(d)
  {
    var path := JoinPath(dir, TfMarker + d);
    assert path == DirPrefix(dir) + "model.ckpt" + ['-'] + d;
    StepOfDashDigits(DirPrefix(dir) + "model.ckpt", d);
  }

  // ---------------------------------------------------------------- dump directories

  /** `f"pt_{model_type}_" + step` */
  function DumpDirName(modelType: string, step: string): string {
    PtMarker + modelType + "_" + step
  }

  /** `checkpoints_folder / dump_dir_name` */
  function DumpDir(folder: string, modelType: string, step: string): string {
    JoinPath(folder, DumpDirName(modelType, step))
  }

  /** Removing a pattern that has no "/" leaves the last path component to the file name alone. */
  lemma ReplacedLastComponent(dir: string, name: string, pat: string)
    requires pat != [] && '/' !in pat && '/' !in ReplaceAll(name, pat, "")
    ensures var parts := Split(ReplaceAll(JoinPath(dir, name), pat, ""), '/');
      parts[|parts| - 1] == ReplaceAll(name, pat, "")
  {
    var r := ReplaceAll(name, pat, "");
    SplitWithoutSeparator(r, '/');
    var p := DirPrefix(dir);
    if p == "" {
      assert JoinPath(dir, name) == name;
    } else {
      var q := p[..|p| - 1];
      assert JoinPath(dir, name) == q + ['/'] + name;
      ReplaceAllAround(q, '/', name, pat, "");
      SplitAround(ReplaceAll(q, pat, ""), r, '/');
    }
  }

  /** Removing the pattern from the pattern followed by digits leaves the digits. */
  lemma ReplacePatternBeforeDigits(pat: string, d: string)
    requires pat != [] && !IsDigit(pat[0]) && AllDigits(d)
    ensures ReplaceAll(pat + d, pat, "") == d
  {
    var s := pat + d;
    assert s[..|pat|] == pat && s[|pat|..] == d;
    assert pat[0] !in d;
    ContainsFirstChar(d, pat);
    ReplaceAllAbsent(d, pat, "");
  }

  /** Every dump directory name contains "pt_". */
  lemma DumpDirNameSelected(modelType: string, d: string)
    ensures Contains(DumpDirName(modelType, d), PtMarker)
  {
    var rest := modelType + "_" + d;
    ContainsInside([], PtMarker, rest);
    assert [] + PtMarker + rest == DumpDirName(modelType, d);
  }

  /** The field fetch_pt_checkpoints parses out of a dump directory is its step. */
  lemma DumpDirStepField(folder: string, modelType: string, d: string)
    requires '/' !in modelType && |d| >= 1 && AllDigits(d)
    ensures PtKeyField(DumpDir(folder, modelType, d), modelType) == d
  {
    var pat := PtMarker + modelType + "_";
    var name := DumpDirName(modelType, d);
    assert name == pat + d;
    assert pat[0] == 'p' && '/' !in pat;
    ReplacePatternBeforeDigits(pat, d);
    assert '/' !in d && '-' !in d by {
      assert forall i :: 0 <= i < |d| ==> d[i] != '/' && d[i] != '-';
    }
    ReplacedLastComponent(folder, name, pat);
    SplitWithoutSeparator(d, '-');
  }

  /**
   * fetch_pt_checkpoints reads back the step a dump directory was named with: the directory
   * is selected (its name contains "pt_") and its sort key is the step's value.
   */
  lemma DumpDirReadBack(folder: string, modelType: string, d: string)
    requires '/' !in modelType && |d| >= 1 && AllDigits(d)
    ensures Contains(DumpDirName(modelType, d), PtMarker)
    ensures PtKey(DumpDir(folder, modelType, d), modelType) == Ok(DecimalValue(d))
  {
    DumpDirNameSelected(modelType, d);
    DumpDirStepField(folder, modelType, d);
    PtKeyOfDigits(DumpDir(folder, modelType, d), modelType);
  }

  /**
   * The checkpoint "model.ckpt-<d>" sorts by d's value, converts into the directory of step d,
   * and that directory sorts by the same value: both fetch functions order the same steps.
   */
  lemma ConvertedCheckpointKeepsItsStep(dir: string, folder: string, modelType: string, d: string)
    requires '/' !in modelType && |d| >= 1 && AllDigits(d)
    ensures TfKey(TfMarker + d) == Ok(DecimalValue(d))
    ensures StepOf(JoinPath(dir, TfMarker + d)) == Some(d)
    ensures PtKey(DumpDir(folder, modelType, d), modelType) == TfKey(TfMarker + d)
  {
    TfKeyOfCheckpointName(d);
    StepOfCheckpointPath(dir, d);
    DumpDirReadBack(folder, modelType, d);
  }

  // ---------------------------------------------------------------- the conversion loop

  /** The paths and optional tokenizer model the loop copies into every dump directory. */
  datatype Settings = Settings(
    checkpointsFolder: string,
    bertConfigFile: string,
    vocabFile: string,
    tokenizerModel: Option<string>)

  /** The module-level settings of eval.py. */
  const ScriptSettings := Settings(
    "../../saved_models/electra-base-german-dbmdz-fixed-cased",
    "../../saved_models/electra-base-german-dbmdz-fixed-cased/config.json",
    "../../saved_models/electra-base-german-dbmdz-fixed-cased/vocab.txt",
    None)

  const ScriptModelType := "electra"

  /** The files the loop writes into each dump directory. */
  datatype DumpFile = ModelWeights | ModelConfig | Vocabulary | TokenizerModel

  function FileName(f: DumpFile): string {
    match f
    case ModelWeights => "pytorch_model.bin"
    case ModelConfig => "config.json"
    case Vocabulary => "vocab.txt"
    case TokenizerModel => "spiece.model"
  }

  /** `dump_dir / FileName(file)` */
  function DumpFilePath(dump: string, file: DumpFile): string {
    JoinPath(dump, FileName(file))
  }

  /**
   * Each file lands in the dump directory under its own name, so the conversion and the copies
   * never overwrite one another.
   */
  lemma DumpFilesApart(dump: string, f1: DumpFile, f2: DumpFile)
    ensures var parts := Split(DumpFilePath(dump, f1), '/'); parts[|parts| - 1] == FileName(f1)
    ensures f1 != f2 ==> DumpFilePath(dump, f1) != DumpFilePath(dump, f2)
  {
    FileNameIsPlain(f1);
    JoinPathLastComponent(dump, FileName(f1));
    if f1 != f2 {
      FileNameIsPlain(f2);
      JoinPathLastComponent(dump, FileName(f2));
    }
  }

  /** Every dump file name is a single path component, and no two have the same length. */
  lemma FileNameIsPlain(f: DumpFile)
    ensures '/' !in FileName(f)
    ensures forall g :: g != f ==> |FileName(g)| != |FileName(f)|
  {
    var name := FileName(f);
    assert forall i :: 0 <= i < |name| ==> name[i] != '/';
  }

  /**
   * What the loop does to the filesystem, in the order it does it. A conversion or a copy
   * writes `file` inside the dump directory `dump`, at DumpFilePath(dump, file).
   */
  datatype Effect =
    | MakeDir(path: string)
    | Convert(converter: Converter, checkpoint: string, config: string, dump: string, file: DumpFile)
    | CopyFile(source: string, dump: string, file: DumpFile)

  /** The files copied into a dump directory: the configuration, the vocabulary, the tokenizer model. */
  function Copies(dump: string, cfg: Settings): (copies: seq<Effect>)
    ensures forall k :: 0 <= k < |copies| ==> copies[k].CopyFile?
  {
    [ CopyFile(cfg.bertConfigFile, dump, ModelConfig),
      CopyFile(cfg.vocabFile, dump, Vocabulary) ] +
    (match cfg.tokenizerModel
     case Some(t) => [CopyFile(t, dump, TokenizerModel)]
     case None => [])
  }

  /**
   * Every copy goes into the dump directory: the configuration and the vocabulary always, the
   * tokenizer model exactly when one is set.
   */
  lemma CopiesFiles(dump: string, cfg: Settings)
    ensures forall e :: e in Copies(dump, cfg) ==> e.CopyFile? && e.dump == dump
    ensures CopyFile(cfg.bertConfigFile, dump, ModelConfig) in Copies(dump, cfg)
    ensures CopyFile(cfg.vocabFile, dump, Vocabulary) in Copies(dump, cfg)
    ensures forall t :: CopyFile(t, dump, TokenizerModel) in Copies(dump, cfg) <==> cfg.tokenizerModel == Some(t)
  {
  }

  /** The conversion and the copies made for one checkpoint once its dump directory exists. */
  function Work(c: Converter, tfc: string, dump: string, cfg: Settings): seq<Effect> {
    [Convert(c, tfc, cfg.bertConfigFile, dump, ModelWeights)] + Copies(dump, cfg)
  }

  /** The dump directories appended, the effects, and the exception that ended the loop, if any. */
  datatype Outcome = Outcome(hf: seq<string>, effects: seq<Effect>, error: Option<PyError>)

  /** `[dir / tfcn for tfcn in tf_checkpoints_names]` */
  function TfCheckpointPaths(dir: string, names: seq<string>): (paths: seq<string>)
    ensures |paths| == |names|
    ensures forall k :: 0 <= k < |names| ==> paths[k] == JoinPath(dir, names[k])
  {
    if names == [] then [] else [JoinPath(dir, names[0])] + TfCheckpointPaths(dir, names[1..])
  }

  /**
   * `step = re.search(...)[1]` and `dump_dir = checkpoints_folder / f"pt_{model_type}_" + step`:
   * the dump directory of a checkpoint path, None when the path has no step.
   */
  function DumpDirOf(folder: string, modelType: string, tfc: string): Option<string> {
    match StepOf(tfc)
    case None => None
    case Some(step) => Some(DumpDir(folder, modelType, step))
  }

  function DumpDirFor(folder: string, modelType: string): string -> Option<string> {
    tfc => DumpDirOf(folder, modelType, tfc)
  }

  /**
   * The loop over tfcs, one checkpoint after another, for a given way dumpOf of naming each
   * checkpoint's dump directory and the directories that exist before it. A checkpoint without
   * a dump directory raises TypeError (subscripting None); an unbound converter raises
   * UnboundLocalError after the dump directory was made and appended.
   */
  function ConvertLoop(tfcs: seq<string>, conv: Option<Converter>, dumpOf: string -> Option<string>,
                       cfg: Settings, dirs: set<string>): Outcome
    decreases |tfcs|
  {
    if tfcs == [] then Outcome([], [], None)
    else
      match dumpOf(tfcs[0])
      case None => Outcome([], [], Some(TypeError(tfcs[0])))
      case Some(dump) =>
        var made := if dump in dirs then [] else [MakeDir(dump)];
        match conv
        case None => Outcome([dump], made, Some(UnboundLocalError("convert_tf_to_pt")))
        case Some(c) =>
          var rest := ConvertLoop(tfcs[1..], conv, dumpOf, cfg, dirs + {dump});
          Outcome([dump] + rest.hf, made + Work(c, tfcs[0], dump, cfg) + rest.effects, rest.error)
  }

  /** convert_checkpoints as a whole: the fetch, then the loop over the checkpoint paths. */
  function ConvertCheckpointsSpec(dir: string, modelType: string, listing: seq<string>,
                                  existing: set<string>, cfg: Settings): Outcome {
    match FetchTfCheckpoints(listing)
    case Err(e) => Outcome([], [], Some(e))
    case Ok(names) =>
      ConvertLoop(TfCheckpointPaths(dir, names), SelectConverter(modelType),
                  DumpDirFor(cfg.checkpointsFolder, modelType), cfg, existing)
  }

  /** A finished prefix of the loop followed by the rest of it. */
  function Then(done: Outcome, rest: Outcome): Outcome {
    Outcome(done.hf + rest.hf, done.effects + rest.effects, rest.error)
  }

  /**
   * The loop of convert_checkpoints over the checkpoint paths, with dumpOf naming each dump
   * directory and existing the directories already on disk.
   */
  method ConvertEach(tfcs: seq<string>, conv: Option<Converter>, dumpOf: string -> Option<string>,
                     cfg: Settings, existing: set<string>)
    returns (hf: seq<string>, effects: seq<Effect>, err: Option<PyError>)
    ensures Outcome(hf, effects, err) == ConvertLoop(tfcs, conv, dumpOf, cfg, existing)
  {
    hf, effects, err := [], [], None;
    var dirs := existing;
    var k := 0;
    while k < |tfcs|
      invariant 0 <= k <= |tfcs|
      invariant Then(Outcome(hf, effects, None), ConvertLoop(tfcs[k..], conv, dumpOf, cfg, dirs)) ==
                ConvertLoop(tfcs, conv, dumpOf, cfg, existing)
    {
      assert tfcs[k..][0] == tfcs[k] && tfcs[k..][1..] == tfcs[k + 1..];
      var dumpDir := dumpOf(tfcs[k]);
      if dumpDir.None? {
        err := Some(TypeError(tfcs[k]));
        assert hf + [] == hf && effects + [] == effects;
        return;
      }
      var dump := dumpDir.value;
      ghost var rest := ConvertLoop(tfcs[k + 1..], conv, dumpOf, cfg, dirs + {dump});
      var made := if dump in dirs then [] else [MakeDir(dump)];
      if conv.None? {
        effects, hf := effects + made, hf + [dump];
        err := Some(UnboundLocalError("convert_tf_to_pt"));
        return;
      }
      var work := Work(conv.value, tfcs[k], dump, cfg);
      AppendAssoc(hf, [dump], rest.hf);
      AppendAssoc(effects, made + work, rest.effects);
      AppendAssoc(made, work, rest.effects);
      AppendAssoc(effects, made, work);
      effects := effects + made + work;
      dirs := dirs + {dump};
      hf := hf + [dump];
      k := k + 1;
    }
    assert tfcs[k..] == [];
    assert hf + [] == hf && effects + [] == effects;
  }

  /**
   * convert_checkpoints(dir, model_type). Returns the dump directories the loop appended (the
   * source keeps them in a local list), the effects in order, and the exception raised, if any.
   */
  method ConvertCheckpoints(dir: string, modelType: string, listing: seq<string>,
                            existing: set<string>, cfg: Settings)
    returns (hf: seq<string>, effects: seq<Effect>, err: Option<PyError>)
    ensures Outcome(hf, effects, err) == ConvertCheckpointsSpec(dir, modelType, listing, existing, cfg)
  {
    var conv := SelectConverter(modelType);
    var names := FetchTfCheckpoints(listing);
    if names.Err? {
      return [], [], Some(names.error);
    }
    var tfcs := TfCheckpointPaths(dir, names.value);
    hf, effects, err := ConvertEach(tfcs, conv, DumpDirFor(cfg.checkpointsFolder, modelType), cfg, existing);
  }

  /** main_from_saved: the one live call, with the script's own settings. */
  method MainFromSaved(listing: seq<string>, existing: set<string>)
    returns (hf: seq<string>, effects: seq<Effect>, err: Option<PyError>)
    ensures Outcome(hf, effects, err) ==
            ConvertCheckpointsSpec(ScriptSettings.checkpointsFolder, ScriptModelType, listing, existing, ScriptSettings)
    ensures err.None? || !err.value.UnboundLocalError?
  {
    hf, effects, err := ConvertCheckpoints(ScriptSettings.checkpointsFolder, ScriptModelType, listing, existing, ScriptSettings);
    ScriptNeverUnbound(listing, existing);
  }

  // ---------------------------------------------------------------- what the loop does

  /**
   * The loop finishes exactly when every checkpoint has a dump directory and, unless there is
   * no checkpoint, a converter was selected.
   */
  lemma {:induction false} ConvertLoopFinishes(tfcs: seq<string>, conv: Option<Converter>,
                                                dumpOf: string -> Option<string>, cfg: Settings, dirs: set<string>)
    ensures ConvertLoop(tfcs, conv, dumpOf, cfg, dirs).error.None? <==>
            (tfcs == [] || conv.Some?) && forall k :: 0 <= k < |tfcs| ==> dumpOf(tfcs[k]).Some?
    decreases |tfcs|
  {
    if tfcs != [] && dumpOf(tfcs[0]).Some? && conv.Some? {
      ConvertLoopFinishes(tfcs[1..], conv, dumpOf, cfg, dirs + {dumpOf(tfcs[0]).value});
      assert forall k :: 1 <= k < |tfcs| ==> tfcs[k] == tfcs[1..][k - 1];
    }
  }

  /** A TypeError names a checkpoint without a dump directory; an UnboundLocalError means no converter. */
  lemma {:induction false} ConvertLoopErrors(tfcs: seq<string>, conv: Option<Converter>,
                                              dumpOf: string -> Option<string>, cfg: Settings, dirs: set<string>)
    ensures var e := ConvertLoop(tfcs, conv, dumpOf, cfg, dirs).error;
      e.Some? ==>
        || (e.value.TypeError? && e.value.subject in tfcs && dumpOf(e.value.subject).None?)
        || (e.value == UnboundLocalError("convert_tf_to_pt") && conv.None?)
    decreases |tfcs|
  {
    if tfcs != [] && dumpOf(tfcs[0]).Some? && conv.Some? {
      ConvertLoopErrors(tfcs[1..], conv, dumpOf, cfg, dirs + {dumpOf(tfcs[0]).value});
    }
  }

  /**
   * `hf_checkpoints` gets one dump directory per processed checkpoint, in checkpoint order;
   * all of them when the loop finishes.
   */
  lemma {:induction false} ConvertLoopDumpDirs(tfcs: seq<string>, conv: Option<Converter>,
                                                dumpOf: string -> Option<string>, cfg: Settings, dirs: set<string>)
    ensures var o := ConvertLoop(tfcs, conv, dumpOf, cfg, dirs);
      && |o.hf| <= |tfcs|
      && (o.error.None? ==> |o.hf| == |tfcs|)
      && forall k :: 0 <= k < |o.hf| ==> dumpOf(tfcs[k]) == Some(o.hf[k])
    decreases |tfcs|
  {
    if tfcs != [] && dumpOf(tfcs[0]).Some? && conv.Some? {
      var dump := dumpOf(tfcs[0]).value;
      ConvertLoopDumpDirs(tfcs[1..], conv, dumpOf, cfg, dirs + {dump});
      var o := ConvertLoop(tfcs, conv, dumpOf, cfg, dirs);
      var rest := ConvertLoop(tfcs[1..], conv, dumpOf, cfg, dirs + {dump});
      assert o.hf == [dump] + rest.hf;
      assert forall k :: 1 <= k < |o.hf| ==> o.hf[k] == rest.hf[k - 1] && tfcs[k] == tfcs[1..][k - 1];
    }
  }

  /** Copies make no call to the converter. */
  lemma {:induction false} ConversionsOfCopies(effects: seq<Effect>)
    requires forall k :: 0 <= k < |effects| ==> effects[k].CopyFile?
    ensures Conversions(effects) == []
  {
    if effects != [] {
      ConversionsOfCopies(effects[1..]);
    }
  }

  /**
   * The work for one checkpoint creates no directory and calls the converter once: on that
   * checkpoint, with `bert_config_file`, writing the model weights into the dump directory.
   */
  lemma WorkEffects(c: Converter, tfc: string, dump: string, cfg: Settings, d: string)
    ensures MakeDir(d) !in Work(c, tfc, dump, cfg)
    ensures multiset(Work(c, tfc, dump, cfg))[MakeDir(d)] == 0
    ensures Conversions(Work(c, tfc, dump, cfg)) == [Convert(c, tfc, cfg.bertConfigFile, dump, ModelWeights)]
  {
    var w := Work(c, tfc, dump, cfg);
    var copies := Copies(dump, cfg);
    assert w[1..] == copies;
    ConversionsOfCopies(copies);
    assert MakeDir(d) !in copies;
  }

  /**
   * A directory is created exactly when it is one of the dump directories and did not exist
   * before.
   */
  lemma {:induction false} ConvertLoopMakesMissingDirs(tfcs: seq<string>, conv: Option<Converter>,
                                                        dumpOf: string -> Option<string>, cfg: Settings,
                                                        dirs: set<string>, d: string)
    ensures var o := ConvertLoop(tfcs, conv, dumpOf, cfg, dirs);
      MakeDir(d) in o.effects <==> d in o.hf && d !in dirs
    decreases |tfcs|
  {
    var o := ConvertLoop(tfcs, conv, dumpOf, cfg, dirs);
    if tfcs == [] || dumpOf(tfcs[0]).None? {
      assert o.effects == [] && o.hf == [];
    } else {
      var dump := dumpOf(tfcs[0]).value;
      var made := if dump in dirs then [] else [MakeDir(dump)];
      if conv.None? {
        assert o.effects == made && o.hf == [dump];
      } else {
        ConvertLoopMakesMissingDirs(tfcs[1..], conv, dumpOf, cfg, dirs + {dump}, d);
        var work := Work(conv.value, tfcs[0], dump, cfg);
        assert MakeDir(d) !in work by {
          WorkEffects(conv.value, tfcs[0], dump, cfg, d);
        }
        var rest := ConvertLoop(tfcs[1..], conv, dumpOf, cfg, dirs + {dump});
        assert o.effects == made + work + rest.effects && o.hf == [dump] + rest.hf;
        assert MakeDir(d) in o.effects <==> MakeDir(d) in made || MakeDir(d) in rest.effects;
      }
    }
  }

  /** No directory is created twice, even when two checkpoints share a step. */
  lemma {:induction false} ConvertLoopMakesDirsOnce(tfcs: seq<string>, conv: Option<Converter>,
                                                     dumpOf: string -> Option<string>, cfg: Settings,
                                                     dirs: set<string>, d: string)
    ensures var o := ConvertLoop(tfcs, conv, dumpOf, cfg, dirs);
      multiset(o.effects)[MakeDir(d)] <= (if d in dirs then 0 else 1)
    decreases |tfcs|
  {
    var o := ConvertLoop(tfcs, conv, dumpOf, cfg, dirs);
    if tfcs == [] || dumpOf(tfcs[0]).None? {
      assert o.effects == [];
    } else {
      var dump := dumpOf(tfcs[0]).value;
      var made := if dump in dirs then [] else [MakeDir(dump)];
      if conv.None? {
        assert o.effects == made;
      } else {
        ConvertLoopMakesDirsOnce(tfcs[1..], conv, dumpOf, cfg, dirs + {dump}, d);
        var work := Work(conv.value, tfcs[0], dump, cfg);
        assert multiset(work)[MakeDir(d)] == 0 by {
          WorkEffects(conv.value, tfcs[0], dump, cfg, d);
        }
        var rest := ConvertLoop(tfcs[1..], conv, dumpOf, cfg, dirs + {dump});
        assert o.effects == made + work + rest.effects;
        MakesDirOnceStep(dump, dirs, work, rest.effects, d);
      }
    }
  }

  /** One step of ConvertLoopMakesDirsOnce: d is made here only if it is missing, and then never again. */
  lemma MakesDirOnceStep(dump: string, dirs: set<string>, work: seq<Effect>, rest: seq<Effect>, d: string)
    requires multiset(work)[MakeDir(d)] == 0
    requires multiset(rest)[MakeDir(d)] <= (if d in dirs + {dump} then 0 else 1)
    ensures var made := if dump in dirs then [] else [MakeDir(dump)];
      multiset(made + work + rest)[MakeDir(d)] <= (if d in dirs then 0 else 1)
  {
    var made := if dump in dirs then [] else [MakeDir(dump)];
    assert multiset(made + work + rest) == multiset(made) + multiset(work) + multiset(rest);
  }

  /** The calls to the converter among `effects`, in order. */
  function Conversions(effects: seq<Effect>): seq<Effect> {
    if effects == [] then []
    else (if effects[0].Convert? then [effects[0]] else []) + Conversions(effects[1..])
  }

  lemma {:induction false} ConversionsAppend(a: seq<Effect>, b: seq<Effect>)
    ensures Conversions(a + b) == Conversions(a) + Conversions(b)
  {
    if a != [] {
      ConversionsAppend(a[1..], b);
      assert (a + b)[0] == a[0] && (a + b)[1..] == a[1..] + b;
      var head := if a[0].Convert? then [a[0]] else [];
      assert Conversions(a + b) == head + Conversions(a[1..] + b);
      AppendAssoc(head, Conversions(a[1..]), Conversions(b));
    } else {
      assert a + b == b;
    }
  }

  /**
   * Each processed checkpoint is converted once, in the order of the checkpoints: by the selected
   * converter, with `bert_config_file`, into the dump directory appended for it.
   */
  lemma {:induction false} ConvertLoopConverts(tfcs: seq<string>, c: Converter, dumpOf: string -> Option<string>,
                                                cfg: Settings, dirs: set<string>)
    ensures var o := ConvertLoop(tfcs, Some(c), dumpOf, cfg, dirs);
      && |o.hf| <= |tfcs|
      && |Conversions(o.effects)| == |o.hf|
      && forall k :: 0 <= k < |o.hf| ==>
           Conversions(o.effects)[k] == Convert(c, tfcs[k], cfg.bertConfigFile, o.hf[k], ModelWeights)
    decreases |tfcs|
  {
    if tfcs != [] && dumpOf(tfcs[0]).Some? {
      var dump := dumpOf(tfcs[0]).value;
      ConvertLoopConverts(tfcs[1..], c, dumpOf, cfg, dirs + {dump});
      var rest := ConvertLoop(tfcs[1..], Some(c), dumpOf, cfg, dirs + {dump});
      var made := if dump in dirs then [] else [MakeDir(dump)];
      var work := Work(c, tfcs[0], dump, cfg);
      var o := ConvertLoop(tfcs, Some(c), dumpOf, cfg, dirs);
      assert o.hf == [dump] + rest.hf && o.effects == made + work + rest.effects;
      WorkEffects(c, tfcs[0], dump, cfg, dump);
      assert Conversions(made) == [];
      ConversionsStep(c, cfg, tfcs, dump, made, work, o, rest);
    }
  }

  /** One step of ConvertLoopConverts: the first checkpoint's conversion in front of the rest's. */
  lemma ConversionsStep(c: Converter, cfg: Settings, tfcs: seq<string>, dump: string,
                        made: seq<Effect>, work: seq<Effect>, o: Outcome, rest: Outcome)
    requires tfcs != [] && Conversions(made) == []
    requires Conversions(work) == [Convert(c, tfcs[0], cfg.bertConfigFile, dump, ModelWeights)]
    requires o.hf == [dump] + rest.hf && o.effects == made + work + rest.effects
    requires |rest.hf| <= |tfcs[1..]| && |Conversions(rest.effects)| == |rest.hf|
    requires forall k :: 0 <= k < |rest.hf| ==>
      Conversions(rest.effects)[k] == Convert(c, tfcs[1..][k], cfg.bertConfigFile, rest.hf[k], ModelWeights)
    ensures |o.hf| <= |tfcs| && |Conversions(o.effects)| == |o.hf|
    ensures forall k :: 0 <= k < |o.hf| ==>
      Conversions(o.effects)[k] == Convert(c, tfcs[k], cfg.bertConfigFile, o.hf[k], ModelWeights)
  {
    ConversionsAppend(made, work);
    ConversionsAppend(made + work, rest.effects);
    var calls := Conversions(o.effects);
    assert calls == [Convert(c, tfcs[0], cfg.bertConfigFile, dump, ModelWeights)] + Conversions(rest.effects);
    forall k | 1 <= k < |o.hf|
      ensures calls[k] == Convert(c, tfcs[k], cfg.bertConfigFile, o.hf[k], ModelWeights)
    {
      assert calls[k] == Conversions(rest.effects)[k - 1];
      assert tfcs[1..][k - 1] == tfcs[k] && rest.hf[k - 1] == o.hf[k];
    }
  }

  /**
   * Without a converter nothing is converted: the loop stops at the first checkpoint, with a
   * TypeError when it has no step and otherwise with UnboundLocalError once its dump directory
   * was made (if missing) and appended.
   */
  lemma ConvertLoopUnboundConvertsNothing(tfcs: seq<string>, dumpOf: string -> Option<string>, cfg: Settings,
                                          dirs: set<string>)
    ensures var o := ConvertLoop(tfcs, None, dumpOf, cfg, dirs);
      && Conversions(o.effects) == []
      && (tfcs == [] ==> o == Outcome([], [], None))
      && (tfcs != [] && dumpOf(tfcs[0]).None? ==> o == Outcome([], [], Some(TypeError(tfcs[0]))))
      && (tfcs != [] && dumpOf(tfcs[0]).Some? ==>
            var dump := dumpOf(tfcs[0]).value;
            && o.hf == [dump]
            && o.effects == (if dump in dirs then [] else [MakeDir(dump)])
            && o.error == Some(UnboundLocalError("convert_tf_to_pt")))
  {
    if tfcs != [] && dumpOf(tfcs[0]).Some? {
      var dump := dumpOf(tfcs[0]).value;
      var made := if dump in dirs then [] else [MakeDir(dump)];
      assert Conversions(made) == [];
    }
  }

  /**
   * convert_checkpoints finishes without an exception exactly when the checkpoints fetch, every
   * checkpoint path ends in "-<digits>", and a converter was selected or there is nothing to convert.
   */
  lemma ConvertCheckpointsFinishes(dir: string, modelType: string, listing: seq<string>,
                                   existing: set<string>, cfg: Settings)
    ensures ConvertCheckpointsSpec(dir, modelType, listing, existing, cfg).error.None? <==>
            && FetchTfCheckpoints(listing).Ok?
            && var paths := TfCheckpointPaths(dir, FetchTfCheckpoints(listing).value);
               && (paths == [] || SelectConverter(modelType).Some?)
               && forall k :: 0 <= k < |paths| ==> StepOf(paths[k]).Some?
  {
    if FetchTfCheckpoints(listing).Ok? {
      var paths := TfCheckpointPaths(dir, FetchTfCheckpoints(listing).value);
      var dumpOf := DumpDirFor(cfg.checkpointsFolder, modelType);
      assert ConvertCheckpointsSpec(dir, modelType, listing, existing, cfg)
          == ConvertLoop(paths, SelectConverter(modelType), dumpOf, cfg, existing);
      ConvertLoopFinishes(paths, SelectConverter(modelType), dumpOf, cfg, existing);
      forall k | 0 <= k < |paths|
        ensures dumpOf(paths[k]).Some? <==> StepOf(paths[k]).Some?
      {
        assert dumpOf(paths[k]) == DumpDirOf(cfg.checkpointsFolder, modelType, paths[k]);
      }
    }
  }

  /**
   * When convert_checkpoints finishes, `hf_checkpoints` holds the dump directory of every
   * checkpoint path, in order, and each checkpoint was converted once, in that order, by the
   * converter the model type selects, with `bert_config_file`, into its own dump directory.
   */
  lemma ConvertCheckpointsConvertsAll(dir: string, modelType: string, listing: seq<string>,
                                      existing: set<string>, cfg: Settings)
    requires ConvertCheckpointsSpec(dir, modelType, listing, existing, cfg).error.None?
    ensures FetchTfCheckpoints(listing).Ok?
    ensures var paths := TfCheckpointPaths(dir, FetchTfCheckpoints(listing).value);
            var o := ConvertCheckpointsSpec(dir, modelType, listing, existing, cfg);
      && |o.hf| == |paths|
      && (forall k :: 0 <= k < |paths| ==>
            StepOf(paths[k]).Some? && o.hf[k] == DumpDir(cfg.checkpointsFolder, modelType, StepOf(paths[k]).value))
      && (paths != [] ==> SelectConverter(modelType).Some?)
      && |Conversions(o.effects)| == |paths|
      && forall k :: 0 <= k < |paths| ==>
           Conversions(o.effects)[k] == Convert(SelectConverter(modelType).value, paths[k], cfg.bertConfigFile,
                                                o.hf[k], ModelWeights)
  {
    var paths := TfCheckpointPaths(dir, FetchTfCheckpoints(listing).value);
    var conv := SelectConverter(modelType);
    var dumpOf := DumpDirFor(cfg.checkpointsFolder, modelType);
    ConvertLoopDumpDirs(paths, conv, dumpOf, cfg, existing);
    ConvertLoopFinishes(paths, conv, dumpOf, cfg, existing);
    var o := ConvertLoop(paths, conv, dumpOf, cfg, existing);
    assert forall k :: 0 <= k < |paths| ==> dumpOf(paths[k]) == DumpDirOf(cfg.checkpointsFolder, modelType, paths[k]);
    if conv.Some? {
      ConvertLoopConverts(paths, conv.value, dumpOf, cfg, existing);
    }
  }

  /** The script's own model type always selects a converter, so it never hits the unbound name. */
  lemma ScriptNeverUnbound(listing: seq<string>, existing: set<string>)
    ensures var o := ConvertCheckpointsSpec(ScriptSettings.checkpointsFolder, ScriptModelType, listing,
                                            existing, ScriptSettings);
      o.error.None? || !o.error.value.UnboundLocalError?
  {
    assert SelectConverter(ScriptModelType) == Some(ElectraConverter);
    match FetchTfCheckpoints(listing)
    case Err(e) =>
      FetchTfFails(listing);
      var f :| f in listing && Contains(f, TfMarker) && TfKey(CheckpointPrefix(f)) == Err(e);
    case Ok(names) =>
      ConvertLoopErrors(TfCheckpointPaths(ScriptSettings.checkpointsFolder, names), Some(ElectraConverter),
                        DumpDirFor(ScriptSettings.checkpointsFolder, ScriptModelType), ScriptSettings, existing);
  }
}
