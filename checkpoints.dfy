/**
 * `fetch_tf_checkpoints` and `fetch_pt_checkpoints` of eval.py. The directory listing that
 * `os.listdir(dir)` returns is an input; the functions are otherwise pure.
 */
module Checkpoints {
  import opened Results
  import opened PyStrings
  import opened Seqs

  /** The substring that marks a TensorFlow checkpoint file. */
  const TfMarker := "model.ckpt-"

  /** The substring that marks a converted PyTorch checkpoint directory. */
  const PtMarker := "pt_"

  /** The error of the first element, in iteration order, whose sort key cannot be computed. */
  function FirstKeyError(s: seq<string>, key: string -> Result<int>): (e: Option<PyError>)
    ensures e.None? <==> forall i :: 0 <= i < |s| ==> key(s[i]).Ok?
    ensures e.Some? ==> exists i :: 0 <= i < |s| && key(s[i]) == Err(e.value)
  {
    if s == [] then None
    else if key(s[0]).Err? then Some(key(s[0]).error)
    else
      var e := FirstKeyError(s[1..], key);
      assert e.Some? ==> exists i :: 0 <= i < |s| - 1 && key(s[1..][i]) == Err(e.value);
      e
  }

  function SortKey(key: string -> Result<int>): string -> int {
    x => OkOrZero(key(x))
  }

  /**
   * `sorted(s, key=key, reverse=True)` for a key that may raise: Python computes every key
   * first, so the first failing key's exception is raised; otherwise the stable descending sort.
   */
  function SortedByKey(s: seq<string>, key: string -> Result<int>): Result<seq<string>> {
    match FirstKeyError(s, key)
    case Some(e) => Err(e)
    case None => Ok(SortDesc(s, SortKey(key)))
  }

  /** The sort succeeds exactly when every key can be computed, and then permutes its input. */
  lemma SortedByKeyOutcome(s: seq<string>, key: string -> Result<int>)
    ensures SortedByKey(s, key).Ok? <==> forall i :: 0 <= i < |s| ==> key(s[i]).Ok?
    ensures SortedByKey(s, key).Ok? ==> multiset(SortedByKey(s, key).value) == multiset(s)
    ensures SortedByKey(s, key).Err? ==> exists i :: 0 <= i < |s| && key(s[i]) == Err(SortedByKey(s, key).error)
  {
  }

  /** Every key of r can be computed, and the keys do not increase along r. */
  ghost predicate KeysDescending(r: seq<string>, key: string -> Result<int>) {
    && (forall i :: 0 <= i < |r| ==> key(r[i]).Ok?)
    && (forall i, j :: 0 <= i < j < |r| ==> key(r[i]).Ok? && key(r[j]).Ok? && key(r[i]).value >= key(r[j]).value)
  }

  /** A successful sort lists its elements in non-increasing order of their keys. */
  lemma SortedByKeyDescending(s: seq<string>, key: string -> Result<int>)
    requires SortedByKey(s, key).Ok?
    ensures KeysDescending(SortedByKey(s, key).value, key)
  {
    var r := SortedByKey(s, key).value;
    forall i | 0 <= i < |r|
      ensures key(r[i]).Ok?
    {
      assert r[i] in multiset(s);
    }
    assert SortedDesc(r, SortKey(key));
  }

  // ---------------------------------------------------------------- fetch_tf_checkpoints

  /** `".".join(f.split(".")[:2])`: the file name cut at its second ".". */
  function CheckpointPrefix(f: string): string {
    var parts := Split(f, '.');
    Join('.', parts[..if |parts| < 2 then |parts| else 2])
  }

  /** Two dot-free fields joined by "." hold exactly one ".". */
  lemma OneDot(h: string, h2: string)
    requires '.' !in h && '.' !in h2
    ensures var p := h + ['.'] + h2; forall k :: 0 <= k < |p| && p[k] == '.' ==> k == |h|
  {
    var p := h + ['.'] + h2;
    assert forall k :: 0 <= k < |h| ==> p[k] == h[k];
    assert forall k :: |h| < k < |p| ==> p[k] == h2[k - |h| - 1];
  }

  lemma DotJoinedPrefix(h: string, h2: string, f: string)
    requires IsPrefix(h, f) && |h| < |f| && f[|h|] == '.' && IsPrefix(h2, f[|h| + 1..])
    ensures IsPrefix(h + ['.'] + h2, f)
  {
    var p := h + ['.'] + h2;
    assert f[..|p|] == f[..|h|] + [f[|h|]] + f[|h| + 1..][..|h2|];
  }

  /**
   * The prefix is the longest beginning of f with at most one "."; when it is shorter than f,
   * it stopped at a second ".".
   */
  lemma CheckpointPrefixShape(f: string)
    ensures var p := CheckpointPrefix(f);
      && IsPrefix(p, f)
      && (forall i, j :: 0 <= i < j < |p| ==> p[i] != '.' || p[j] != '.')
      && (|p| < |f| ==> f[|p|] == '.' && '.' in p)
  {
    var parts := Split(f, '.');
    SplitFirstField(f, '.');
    SplitFirstFieldFree(f, '.');
    var h := parts[0];
    if |h| < |f| {
      var rest := f[|h| + 1..];
      SplitFirstField(rest, '.');
      SplitFirstFieldFree(rest, '.');
      var h2 := Split(rest, '.')[0];
      assert parts[1] == h2;
      assert |parts| >= 2;
      assert parts[..2] == [h, h2];
      JoinTwo('.', h, h2);
      var p := CheckpointPrefix(f);
      assert p == h + ['.'] + h2;
      DotJoinedPrefix(h, h2, f);
      OneDot(h, h2);
      if |p| < |f| {
        assert rest[|h2|] == f[|p|];
      }
    }
  }

  /** `int(x.split("-")[1])`, the sort key of a checkpoint name. */
  function TfKey(x: string): Result<int> {
    var fields := Split(x, '-');
    if |fields| < 2 then Err(IndexError(x))
    else
      match PyInt(fields[1])
      case Some(v) => Ok(v)
      case None => Err(ValueError(fields[1]))
  }

  /** `(".".join(f.split(".")[:2]) for f in [f for f in files if "model.ckpt-" in f])` */
  function TruncatedTfFiles(listing: seq<string>): seq<string> {
    if listing == [] then []
    else
      (if Contains(listing[0], TfMarker) then [CheckpointPrefix(listing[0])] else []) +
      TruncatedTfFiles(listing[1..])
  }

  lemma {:induction false} TruncatedTfFilesMembers(listing: seq<string>, x: string)
    ensures x in TruncatedTfFiles(listing) <==>
            exists f :: f in listing && Contains(f, TfMarker) && CheckpointPrefix(f) == x
  {
    if listing != [] {
      TruncatedTfFilesMembers(listing[1..], x);
      assert listing == [listing[0]] + listing[1..];
      if exists f :: f in listing[1..] && Contains(f, TfMarker) && CheckpointPrefix(f) == x {
        var f :| f in listing[1..] && Contains(f, TfMarker) && CheckpointPrefix(f) == x;
        assert f in listing;
      }
    }
  }

  /** `set(...)` of those names, in first-occurrence order. */
  function CheckpointPrefixes(listing: seq<string>): seq<string> {
    Dedup(TruncatedTfFiles(listing))
  }

  /** fetch_tf_checkpoints: the distinct checkpoint names, largest step first. */
  function FetchTfCheckpoints(listing: seq<string>): Result<seq<string>> {
    SortedByKey(CheckpointPrefixes(listing), TfKey)
  }

  lemma CheckpointPrefixesMembers(listing: seq<string>, x: string)
    ensures x in CheckpointPrefixes(listing) <==>
            exists f :: f in listing && Contains(f, TfMarker) && CheckpointPrefix(f) == x
  {
    TruncatedTfFilesMembers(listing, x);
  }

  /**
   * The names returned are exactly the truncated names of the listing entries that contain
   * "model.ckpt-": nothing else is added and none of them is lost.
   */
  lemma FetchTfKeepsExactlyCheckpointPrefixes(listing: seq<string>, x: string)
    requires FetchTfCheckpoints(listing).Ok?
    ensures x in FetchTfCheckpoints(listing).value <==>
            exists f :: f in listing && Contains(f, TfMarker) && CheckpointPrefix(f) == x
  {
    var names := CheckpointPrefixes(listing);
    SortedByKeyOutcome(names, TfKey);
    var r := FetchTfCheckpoints(listing).value;
    assert x in r <==> x in multiset(r);
    CheckpointPrefixesMembers(listing, x);
  }

  /** Sibling files of one checkpoint (.index, .meta, .data-...) collapse to a single name. */
  lemma FetchTfNoDuplicates(listing: seq<string>)
    requires FetchTfCheckpoints(listing).Ok?
    ensures NoDuplicates(FetchTfCheckpoints(listing).value)
  {
    var names := CheckpointPrefixes(listing);
    SortedByKeyOutcome(names, TfKey);
    NoDuplicatesPermutation(names, FetchTfCheckpoints(listing).value);
  }

  /** The names come in non-increasing order of `int(x.split("-")[1])`. */
  lemma FetchTfDescending(listing: seq<string>)
    requires FetchTfCheckpoints(listing).Ok?
    ensures KeysDescending(FetchTfCheckpoints(listing).value, TfKey)
  {
    SortedByKeyDescending(CheckpointPrefixes(listing), TfKey);
  }

  /** The sort over the checkpoint names fails exactly when the key of one of them fails. */
  lemma CheckpointPrefixesFail(listing: seq<string>, key: string -> Result<int>)
    ensures SortedByKey(CheckpointPrefixes(listing), key).Err? <==>
            exists f :: f in listing && Contains(f, TfMarker) && key(CheckpointPrefix(f)).Err?
    ensures SortedByKey(CheckpointPrefixes(listing), key).Err? ==>
            exists f :: f in listing && Contains(f, TfMarker) &&
                        key(CheckpointPrefix(f)) == Err(SortedByKey(CheckpointPrefixes(listing), key).error)
  {
    var names := CheckpointPrefixes(listing);
    SortedByKeyOutcome(names, key);
    if exists f :: f in listing && Contains(f, TfMarker) && key(CheckpointPrefix(f)).Err? {
      var f :| f in listing && Contains(f, TfMarker) && key(CheckpointPrefix(f)).Err?;
      CheckpointPrefixesMembers(listing, CheckpointPrefix(f));
    }
    var r := SortedByKey(names, key);
    if r.Err? {
      var i :| 0 <= i < |names| && key(names[i]) == Err(r.error);
      CheckpointPrefixesMembers(listing, names[i]);
    }
  }

  /**
   * fetch_tf_checkpoints raises exactly when some kept entry truncates to a name without a "-"
   * (IndexError) or with a non-integer after its first "-" (ValueError); the exception raised is
   * that of one such name.
   */
  lemma FetchTfFails(listing: seq<string>)
    ensures FetchTfCheckpoints(listing).Err? <==>
            exists f :: f in listing && Contains(f, TfMarker) && TfKey(CheckpointPrefix(f)).Err?
    ensures FetchTfCheckpoints(listing).Err? ==>
            exists f :: f in listing && Contains(f, TfMarker) &&
                        TfKey(CheckpointPrefix(f)) == Err(FetchTfCheckpoints(listing).error)
  {
    CheckpointPrefixesFail(listing, TfKey);
  }

  /** `".".join(f.split(".")[:2])` of a name whose first two fields are a and b. */
  lemma CheckpointPrefixOfFields(a: string, b: string, rest: string)
    requires '.' !in a && '.' !in b
    ensures CheckpointPrefix(a + ['.'] + b) == a + ['.'] + b
    ensures CheckpointPrefix(a + ['.'] + b + ['.'] + rest) == a + ['.'] + b
  {
    SplitWithoutSeparator(a, '.');
    SplitWithoutSeparator(b, '.');
    JoinTwo('.', a, b);
    var two := a + ['.'] + b;
    SplitAround(a, b, '.');
    assert Split(two, '.')[..2] == [a, b];
    var three := a + ['.'] + b + ['.'] + rest;
    SplitAround(b, rest, '.');
    assert three == a + ['.'] + (b + ['.'] + rest);
    SplitAround(a, b + ['.'] + rest, '.');
    var parts := Split(three, '.');
    assert parts == [a] + ([b] + Split(rest, '.'));
    assert |parts| >= 2 && parts[..2] == [a, b];
  }

  /** `int(x.split("-")[1])` of a name made of a and the digits d, joined by "-". */
  lemma TfKeyOfFields(a: string, d: string)
    requires '-' !in a && |d| >= 1 && AllDigits(d)
    ensures TfKey(a + ['-'] + d) == Ok(DecimalValue(d))
  {
    assert '-' !in d by {
      assert forall i :: 0 <= i < |d| ==> d[i] != '-';
    }
    SplitWithoutSeparator(a, '-');
    SplitWithoutSeparator(d, '-');
    SplitAround(a, d, '-');
    assert Split(a + ['-'] + d, '-') == [a, d];
    PyIntOfDigits(d);
  }

  /**
   * A step field that starts with one of the separators U+001C to U+001F is not an integer to
   * `int()`, so the key raises ValueError (for instance on "model.ckpt-\x1c5").
   */
  lemma TfKeyRejectsSeparator(a: string, x: string)
    requires '-' !in a && '-' !in x && x != [] && '\U{1C}' <= x[0] <= '\U{1F}'
    ensures TfKey(a + ['-'] + x) == Err(ValueError(x))
  {
    SplitWithoutSeparator(a, '-');
    SplitWithoutSeparator(x, '-');
    SplitAround(a, x, '-');
    assert Split(a + ['-'] + x, '-') == [a, x];
    PyIntRejectsSeparator(x);
  }

  /** A step written in digits contains no "." and no "-". */
  lemma DigitsHaveNoSeparators(d: string)
    requires AllDigits(d)
    ensures '.' !in d && '-' !in d
  {
    assert forall i :: 0 <= i < |d| ==> d[i] != '.' && d[i] != '-';
  }

  /**
   * The files TensorFlow writes for the checkpoint of step d ("model.ckpt-<d>.index",
   * ".meta", ".data-00000-of-00001") all truncate to "model.ckpt-<d>".
   */
  lemma TfFileNamePrefix(d: string, ext: string)
    requires AllDigits(d)
    ensures CheckpointPrefix(TfMarker + d + "." + ext) == TfMarker + d
    ensures CheckpointPrefix(TfMarker + d) == TfMarker + d
  {
    DigitsHaveNoSeparators(d);
    var model, b := "model", "ckpt-" + d;
    assert '.' !in b;
    assert TfMarker + d == model + ['.'] + b;
    assert TfMarker + d + "." + ext == model + ['.'] + b + ['.'] + ext;
    CheckpointPrefixOfFields(model, b, ext);
  }

  /** The key of the checkpoint name of step d is d's value. */
  lemma TfKeyOfCheckpointName(d: string)
    requires |d| >= 1 && AllDigits(d)
    ensures TfKey(TfMarker + d) == Ok(DecimalValue(d))
  {
    var stem := "model.ckpt";
    assert '-' !in stem;
    assert TfMarker == stem + ['-'];
    TfKeyOfFields(stem, d);
  }

  /** `".".join(f.split(".")[:2])` of a name that carries the marker after its first ".". */
  lemma EmbeddedMarkerPrefix(a: string, rest: string)
    requires '.' !in a
    ensures Contains(a + "." + TfMarker + rest, TfMarker)
    ensures CheckpointPrefix(a + "." + TfMarker + rest) == a + ".model"
  {
    ContainsInside(a + ".", TfMarker, rest);
    assert a + "." + TfMarker + rest == a + ['.'] + "model" + ['.'] + ("ckpt-" + rest);
    CheckpointPrefixOfFields(a, "model", "ckpt-" + rest);
  }

  /**
   * Such a name truncates to a name without "-", so the whole fetch raises IndexError (for
   * instance "x.model.ckpt-5.index" gives "x.model").
   */
  lemma EmbeddedMarkerFails(a: string, rest: string)
    requires '.' !in a && '-' !in a
    ensures Contains(a + "." + TfMarker + rest, TfMarker)
    ensures CheckpointPrefix(a + "." + TfMarker + rest) == a + ".model"
    ensures TfKey(a + ".model") == Err(IndexError(a + ".model"))
    ensures FetchTfCheckpoints([a + "." + TfMarker + rest]) == Err(IndexError(a + ".model"))
  {
    var f := a + "." + TfMarker + rest;
    EmbeddedMarkerPrefix(a, rest);
    assert '-' !in a + ".model";
    SplitWithoutSeparator(a + ".model", '-');
    assert [f][1..] == [];
    assert TruncatedTfFiles([f]) == [a + ".model"];
    var name := a + ".model";
    assert [name][..|[name]| - 1] == [];
    assert Dedup([name]) == [name];
  }

  // ---------------------------------------------------------------- fetch_pt_checkpoints

  /** `str(x).replace(f"pt_{model_type}_", "").split("/")[-1].split("-")[0]` */
  function PtKeyField(path: string, modelType: string): string {
    var stripped := ReplaceAll(path, PtMarker + modelType + "_", "");
    var components := Split(stripped, '/');
    Split(components[|components| - 1], '-')[0]
  }

  /** `int(...)` of that field, the sort key of a converted checkpoint directory. */
  function PtKey(path: string, modelType: string): Result<int> {
    var field := PtKeyField(path, modelType);
    match PyInt(field)
    case Some(v) => Ok(v)
    case None => Err(ValueError(field))
  }

  /** A step field of plain digits gives its value as the key. */
  lemma PtKeyOfDigits(path: string, modelType: string)
    requires |PtKeyField(path, modelType)| >= 1 && AllDigits(PtKeyField(path, modelType))
    ensures PtKey(path, modelType) == Ok(DecimalValue(PtKeyField(path, modelType)))
  {
    PyIntOfDigits(PtKeyField(path, modelType));
  }

  function PtKeyFor(modelType: string): string -> Result<int> {
    path => PtKey(path, modelType)
  }

  /** `[dir / f for f in files if "pt_" in f]` */
  function PtCandidates(dir: string, listing: seq<string>): seq<string> {
    if listing == [] then []
    else
      (if Contains(listing[0], PtMarker) then [JoinPath(dir, listing[0])] else []) +
      PtCandidates(dir, listing[1..])
  }

  /** fetch_pt_checkpoints: the converted checkpoint directories, largest step first. */
  function FetchPtCheckpoints(dir: string, listing: seq<string>, modelType: string): Result<seq<string>> {
    SortedByKey(PtCandidates(dir, listing), PtKeyFor(modelType))
  }

  lemma {:induction false} PtCandidatesMembers(dir: string, listing: seq<string>, x: string)
    ensures x in PtCandidates(dir, listing) <==>
            exists f :: f in listing && Contains(f, PtMarker) && JoinPath(dir, f) == x
  {
    if listing != [] {
      PtCandidatesMembers(dir, listing[1..], x);
      assert listing == [listing[0]] + listing[1..];
      if exists f :: f in listing[1..] && Contains(f, PtMarker) && JoinPath(dir, f) == x {
        var f :| f in listing[1..] && Contains(f, PtMarker) && JoinPath(dir, f) == x;
        assert f in listing;
      }
    }
  }

  /**
   * The result holds the path of every listing entry containing "pt_", as often as it is
   * listed, and nothing else.
   */
  lemma FetchPtSelectsPtEntries(dir: string, listing: seq<string>, modelType: string, x: string)
    requires FetchPtCheckpoints(dir, listing, modelType).Ok?
    ensures multiset(FetchPtCheckpoints(dir, listing, modelType).value) == multiset(PtCandidates(dir, listing))
    ensures x in FetchPtCheckpoints(dir, listing, modelType).value <==>
            exists f :: f in listing && Contains(f, PtMarker) && JoinPath(dir, f) == x
  {
    SortedByKeyOutcome(PtCandidates(dir, listing), PtKeyFor(modelType));
    var r := FetchPtCheckpoints(dir, listing, modelType).value;
    assert x in r <==> x in multiset(r);
    PtCandidatesMembers(dir, listing, x);
  }

  /** The paths come in non-increasing order of their parsed step. */
  lemma FetchPtDescending(dir: string, listing: seq<string>, modelType: string)
    requires FetchPtCheckpoints(dir, listing, modelType).Ok?
    ensures KeysDescending(FetchPtCheckpoints(dir, listing, modelType).value, PtKeyFor(modelType))
  {
    SortedByKeyDescending(PtCandidates(dir, listing), PtKeyFor(modelType));
  }

  /** Paths with equal steps keep the order of the listing (the sort is stable). */
  lemma FetchPtStable(dir: string, listing: seq<string>, modelType: string, step: int)
    requires FetchPtCheckpoints(dir, listing, modelType).Ok?
    ensures WithKey(FetchPtCheckpoints(dir, listing, modelType).value, SortKey(PtKeyFor(modelType)), step) ==
            WithKey(PtCandidates(dir, listing), SortKey(PtKeyFor(modelType)), step)
  {
    SortDescStable(PtCandidates(dir, listing), SortKey(PtKeyFor(modelType)), step);
  }

  /** The sort over the selected paths fails exactly when the key of one of them fails. */
  lemma PtCandidatesFail(dir: string, listing: seq<string>, key: string -> Result<int>)
    ensures SortedByKey(PtCandidates(dir, listing), key).Err? <==>
            exists f :: f in listing && Contains(f, PtMarker) && key(JoinPath(dir, f)).Err?
    ensures SortedByKey(PtCandidates(dir, listing), key).Err? ==>
            exists f :: f in listing && Contains(f, PtMarker) &&
                        key(JoinPath(dir, f)) == Err(SortedByKey(PtCandidates(dir, listing), key).error)
  {
    var paths := PtCandidates(dir, listing);
    SortedByKeyOutcome(paths, key);
    if exists f :: f in listing && Contains(f, PtMarker) && key(JoinPath(dir, f)).Err? {
      var f :| f in listing && Contains(f, PtMarker) && key(JoinPath(dir, f)).Err?;
      PtCandidatesMembers(dir, listing, JoinPath(dir, f));
    }
    var r := SortedByKey(paths, key);
    if r.Err? {
      var i :| 0 <= i < |paths| && key(paths[i]) == Err(r.error);
      PtCandidatesMembers(dir, listing, paths[i]);
    }
  }

  /** fetch_pt_checkpoints raises ValueError exactly when some selected path has no integer step field. */
  lemma FetchPtFails(dir: string, listing: seq<string>, modelType: string)
    ensures FetchPtCheckpoints(dir, listing, modelType).Err? <==>
            exists f :: f in listing && Contains(f, PtMarker) && PtKey(JoinPath(dir, f), modelType).Err?
    ensures FetchPtCheckpoints(dir, listing, modelType).Err? ==>
            FetchPtCheckpoints(dir, listing, modelType).error.ValueError?
  {
    var key := PtKeyFor(modelType);
    PtCandidatesFail(dir, listing, key);
    if exists f :: f in listing && Contains(f, PtMarker) && PtKey(JoinPath(dir, f), modelType).Err? {
      var f :| f in listing && Contains(f, PtMarker) && PtKey(JoinPath(dir, f), modelType).Err?;
      assert key(JoinPath(dir, f)) == PtKey(JoinPath(dir, f), modelType);
    }
    var r := FetchPtCheckpoints(dir, listing, modelType);
    if r.Err? {
      var f :| f in listing && Contains(f, PtMarker) && key(JoinPath(dir, f)) == Err(r.error);
      assert key(JoinPath(dir, f)) == PtKey(JoinPath(dir, f), modelType);
    }
  }
}
