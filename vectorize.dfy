/** The vectorisation driver: read the text column, pick the configured models
    to run, skip those whose vector file already exists, embed the texts with
    the model's provider, and save the vectors next to a metadata file that is
    written only once. */
module Vectorize {

  import opened Paths
  import opened Environment

  /** A pandas DataFrame: named columns, all `height` cells long. */
  datatype Frame = Frame(columns: map<string, seq<Cell>>, height: nat)

  predicate WellFormed(df: Frame) {
    forall c :: c in df.columns ==> |df.columns[c]| == df.height
  }

  /** One entry of the `models` list of the configuration file. */
  datatype ModelConfig = ModelConfig(name: string, kind: string, huggingfaceName: Option<string>)

  /** The configuration keys the driver reads. */
  datatype Config = Config(textColumn: string, metadataColumns: seq<string>, outputDir: string, models: seq<ModelConfig>)

  /** The command line: `--model NAME` and `--force`. */
  datatype Args = Args(model: Option<string>, force: bool)

  /** The `KeyError`s the driver can raise once it has started writing. */
  datatype Error = MissingHuggingFaceName(model: string) | MissingMetadataColumn

  /** How a run ends: one of the early returns, normal completion, or an
      uncaught exception that stops the whole run. */
  datatype Outcome = InputMissing | TextColumnMissing | ModelNotFound | Completed | Raised(error: Error)

  const Ollama := "ollama"
  const SentenceTransformers := "sentence-transformers"

  // ---------------------------------------------------------------- texts

  function TextOf(c: Cell): string {
    match c
    case Missing => ""
    case Value(t) => t
  }

  /** `column.fillna('').tolist()`. */
  function FillNa(cells: seq<Cell>): (texts: seq<string>)
    ensures |texts| == |cells|
    ensures forall i :: 0 <= i < |cells| ==> texts[i] == if cells[i].Missing? then "" else cells[i].text
  {
    if cells == [] then [] else [TextOf(cells[0])] + FillNa(cells[1..])
  }

  /** `get_texts_to_embed`: no list when the column is absent; otherwise one
      text per row, in row order, missing cells as "" and the rest unchanged. */
  function GetTextsToEmbed(df: Frame, textColumn: string): (texts: Option<seq<string>>)
    ensures texts.None? <==> textColumn !in df.columns
    ensures texts.Some? ==>
      var column := df.columns[textColumn];
      && |texts.value| == |column|
      && (forall i :: 0 <= i < |column| && column[i].Missing? ==> texts.value[i] == "")
      && (forall i :: 0 <= i < |column| && column[i].Value? ==> texts.value[i] == column[i].text)
  {
    if textColumn !in df.columns then None else Some(FillNa(df.columns[textColumn]))
  }

  // ---------------------------------------------------------------- names

  /** `f"vectors_{model_name.replace('/', '_')}.npy"`. */
  function OutputName(modelName: string): (name: string)
    ensures '/' !in name
    ensures |name| == |modelName| + 12
    ensures name[..8] == "vectors_" && EndsWith(name, ".npy")
    ensures forall i :: 0 <= i < |modelName| ==> name[8 + i] == if modelName[i] == '/' then '_' else modelName[i]
  {
    "vectors_" + Replace(modelName, '/', "_") + ".npy"
  }

  /** Two model names share a vector file exactly when they agree after every
      '/' is turned into '_'. */
  lemma OutputNameSame(a: string, b: string)
    ensures OutputName(a) == OutputName(b) <==> Replace(a, '/', "_") == Replace(b, '/', "_")
  {
    var ra, rb := Replace(a, '/', "_"), Replace(b, '/', "_");
    assert OutputName(a) == "vectors_" + ra + ".npy";
    assert OutputName(b) == "vectors_" + rb + ".npy";
    if OutputName(a) == OutputName(b) {
      assert ra == OutputName(a)[8..|OutputName(a)| - 4];
      assert rb == OutputName(b)[8..|OutputName(b)| - 4];
    }
  }

  /** So the rule is not injective: "a/b" and "a_b" write the same file, and
      whichever runs second is skipped as already done. */
  lemma OutputNameCollides()
    ensures "a/b" != "a_b" && OutputName("a/b") == OutputName("a_b")
  {
    assert Replace("a/b", '/', "_") == "a_b" by {
      assert Replace("a/b", '/', "_") == "a" + Replace("/b", '/', "_");
      assert Replace("/b", '/', "_") == "_" + Replace("b", '/', "_");
      assert Replace("b", '/', "_") == "b" + Replace("", '/', "_");
    }
    assert Replace("a_b", '/', "_") == "a_b";
    OutputNameSame("a/b", "a_b");
  }

  /** `os.path.join(output_dir, output_filename)`: the one path both the skip
      check and the save use. */
  function VectorPath(outputDir: string, modelName: string): (p: string)
    ensures EndsWith(p, OutputName(modelName)) && NpSavePath(p) == p
  {
    var name := OutputName(modelName);
    var p := Join(outputDir, name);
    EndsWithTrans(p, name, ".npy");
    p
  }

  function MetadataPath(outputDir: string): (p: string)
    ensures EndsWith(p, "metadata.json")
  {
    Join(outputDir, "metadata.json")
  }

  /** The vector file and the metadata file never coincide. */
  lemma VectorPathIsNotMetadata(outputDir: string, modelName: string)
    ensures VectorPath(outputDir, modelName) != MetadataPath(outputDir)
  {
    var name := OutputName(modelName);
    assert name[0] != "metadata.json"[0];
    JoinInjective(outputDir, name, "metadata.json");
  }

  /** Two models write the same vector file only when their names agree
      after the '/' substitution. */
  lemma VectorPathSame(outputDir: string, a: string, b: string)
    ensures VectorPath(outputDir, a) == VectorPath(outputDir, b) <==> Replace(a, '/', "_") == Replace(b, '/', "_")
  {
    OutputNameSame(a, b);
    assert OutputName(a)[0] == 'v' && OutputName(b)[0] == 'v';
    JoinInjective(outputDir, OutputName(a), OutputName(b));
  }

  // ---------------------------------------------------------------- metadata

  /** `df[metadata_columns].to_dict(orient='records')`: one record per row, in
      row order, holding exactly the listed columns; a listed column that the
      table lacks raises `KeyError` (here: no records). An empty column list
      selects a frame with no columns, whose record list is empty. */
  function Records(df: Frame, cols: seq<string>): (recs: Option<seq<Record>>)
    requires WellFormed(df)
    ensures recs.None? <==> exists c :: c in cols && c !in df.columns
    ensures cols == [] ==> recs == Some([])
    ensures recs.Some? && cols != [] ==>
      && |recs.value| == df.height
      && forall i :: 0 <= i < df.height ==>
           && recs.value[i].Keys == (set c | c in cols)
           && forall c :: c in cols ==> recs.value[i][c] == df.columns[c][i]
  {
    if cols == [] then
      Some([])
    else if forall c :: c in cols ==> c in df.columns then
      Some(seq(df.height, i requires 0 <= i < df.height => map c | c in cols :: df.columns[c][i]))
    else
      None
  }

  /** The metadata records are row-aligned with the texts that are embedded
      whenever at least one metadata column is listed; with none, there are no
      records at all. */
  lemma RecordsAlignWithTexts(df: Frame, textColumn: string, cols: seq<string>)
    requires WellFormed(df)
    requires GetTextsToEmbed(df, textColumn).Some? && Records(df, cols).Some?
    ensures cols != [] ==> |Records(df, cols).value| == |GetTextsToEmbed(df, textColumn).value|
    ensures cols == [] ==> |Records(df, cols).value| == 0
  {
  }

  // ---------------------------------------------------------------- embedding

  /** What `vectorize_with_ollama` returns: one vector per text, vector i
      computed from text i. */
  function RemoteAll(remote: (string, string) -> Vector, model: string, texts: seq<string>): (vs: seq<Vector>)
    ensures |vs| == |texts|
    ensures forall i :: 0 <= i < |texts| ==> vs[i] == remote(model, texts[i])
  {
    if texts == [] then [] else [remote(model, texts[0])] + RemoteAll(remote, model, texts[1..])
  }

  /** The requests `vectorize_with_ollama` makes: one per text, in order. */
  function RemoteCalls(model: string, texts: seq<string>): (cs: seq<Call>)
    ensures |cs| == |texts|
    ensures forall i :: 0 <= i < |texts| ==> cs[i] == Remote(model, texts[i])
  {
    if texts == [] then [] else [Remote(model, texts[0])] + RemoteCalls(model, texts[1..])
  }

  /** One more text, one more request and one more vector at the end. */
  lemma RemoteSnoc(remote: (string, string) -> Vector, model: string, texts: seq<string>, i: nat)
    requires i < |texts|
    ensures RemoteAll(remote, model, texts[..i + 1]) == RemoteAll(remote, model, texts[..i]) + [remote(model, texts[i])]
    ensures RemoteCalls(model, texts[..i + 1]) == RemoteCalls(model, texts[..i]) + [Remote(model, texts[i])]
  {
    var a, b := RemoteAll(remote, model, texts[..i + 1]), RemoteAll(remote, model, texts[..i]) + [remote(model, texts[i])];
    assert |a| == |b|;
    forall k | 0 <= k < |a|
      ensures a[k] == b[k]
    {
      assert texts[..i + 1][k] == texts[k];
      if k < i { assert texts[..i][k] == texts[k]; }
    }
    var ca, cb := RemoteCalls(model, texts[..i + 1]), RemoteCalls(model, texts[..i]) + [Remote(model, texts[i])];
    assert |ca| == |cb|;
    forall k | 0 <= k < |ca|
      ensures ca[k] == cb[k]
    {
      assert texts[..i + 1][k] == texts[k];
      if k < i { assert texts[..i][k] == texts[k]; }
    }
  }

  /** `vectorize_with_ollama`: a loop with one request per text. */
  method VectorizeWithOllama(h: Host, model: string, texts: seq<string>) returns (vectors: seq<Vector>)
    modifies h
    ensures vectors == RemoteAll(h.backends.remote, model, texts)
    ensures h.State() == old(h.State()).Called(RemoteCalls(model, texts))
  {
    vectors := [];
    var i := 0;
    while i < |texts|
      invariant 0 <= i <= |texts|
      invariant vectors == RemoteAll(h.backends.remote, model, texts[..i])
      invariant h.State() == old(h.State()).Called(RemoteCalls(model, texts[..i]))
    {
      RemoteSnoc(h.backends.remote, model, texts, i);
      var v := h.EmbedRemote(model, texts[i]);
      vectors := vectors + [v];
      i := i + 1;
    }
    assert texts[..i] == texts;
  }

  /** `vectorize_with_st`: load the model, then one `encode` of all texts. */
  method VectorizeWithSt(h: Host, huggingfaceName: string, texts: seq<string>) returns (vectors: seq<Vector>)
    modifies h
    ensures vectors == h.backends.local(huggingfaceName, texts)
    ensures h.State() == old(h.State()).Called([Local(huggingfaceName, texts)])
  {
    vectors := h.EncodeLocal(huggingfaceName, texts);
  }

  // ---------------------------------------------------------------- saving

  /** What `save_results` does to the host: the vector file is always
      (over)written; `metadata.json` is written only when it does not exist
      yet, and never overwritten. */
  function SaveSpec(w: World, outputDir: string, modelName: string, vectors: seq<Vector>, df: Frame, cols: seq<string>)
    : (r: (World, Option<Error>))
    requires WellFormed(df)
    ensures var vp := VectorPath(outputDir, modelName);
      vp in r.0.files && r.0.files[vp] == Vectors(vectors)
    ensures var mp := MetadataPath(outputDir);
      mp in w.files ==> r.1.None? && mp in r.0.files && r.0.files[mp] == w.files[mp]
    ensures var mp := MetadataPath(outputDir);
      mp !in w.files ==>
        && (r.1.None? <==> Records(df, cols).Some?)
        && (Records(df, cols).Some? ==> mp in r.0.files && r.0.files[mp] == Metadata(Records(df, cols).value))
        && (Records(df, cols).None? ==> mp !in r.0.files && r.1 == Some(MissingMetadataColumn))
    ensures forall p :: p in w.files && p != VectorPath(outputDir, modelName) && p != MetadataPath(outputDir) ==>
      p in r.0.files && r.0.files[p] == w.files[p]
    ensures r.0.files.Keys <= w.files.Keys + {VectorPath(outputDir, modelName), MetadataPath(outputDir)}
    ensures w.files.Keys <= r.0.files.Keys
    ensures r.0.calls == w.calls
    ensures |r.0.ops| > |w.ops| && r.0.ops[..|w.ops| + 1] == w.ops + [Save(VectorPath(outputDir, modelName))]
  {
    var vp := VectorPath(outputDir, modelName);
    var mp := MetadataPath(outputDir);
    VectorPathIsNotMetadata(outputDir, modelName);
    var w1 := w.Saved(NpSavePath(vp), Vectors(vectors));
    if mp in w1.files then (w1, None)
    else match Records(df, cols)
      case None => (w1, Some(MissingMetadataColumn))
      case Some(recs) =>
        var w2 := w1.Saved(mp, Metadata(recs));
        assert w2.ops[..|w.ops| + 1] == w1.ops;
        (w2, None)
  }

  /** `save_results`. */
  method SaveResults(h: Host, outputDir: string, modelName: string, vectors: seq<Vector>, df: Frame, cols: seq<string>)
    returns (err: Option<Error>)
    requires WellFormed(df)
    modifies h
    ensures (h.State(), err) == SaveSpec(old(h.State()), outputDir, modelName, vectors, df, cols)
  {
    var vectorPath := VectorPath(outputDir, modelName);
    h.NpSave(vectorPath, vectors);
    var metadataPath := MetadataPath(outputDir);
    if !h.Exists(metadataPath) {
      var recs := Records(df, cols);
      if recs.None? {
        return Some(MissingMetadataColumn);
      }
      h.Write(metadataPath, Metadata(recs.value));
    }
    return None;
  }

  // ---------------------------------------------------------------- the run

  /** `if args.model:` -- an empty name counts as no filter. */
  predicate FilterActive(model: Option<string>) {
    model.Some? && model.value != ""
  }

  /** `[m for m in models if m['name'] == name]`. */
  function Selected(models: seq<ModelConfig>, name: string): (r: seq<ModelConfig>)
    ensures |r| <= |models|
    ensures forall m :: m in r ==> m in models && m.name == name
    ensures forall m :: m in models && m.name == name ==> m in r
  {
    if models == [] then []
    else (if models[0].name == name then [models[0]] else []) + Selected(models[1..], name)
  }

  /** The filter keeps the configuration order: it distributes over `+`. */
  lemma {:induction false} SelectedAppend(a: seq<ModelConfig>, b: seq<ModelConfig>, name: string)
    ensures Selected(a + b, name) == Selected(a, name) + Selected(b, name)
  {
    if a == [] {
      assert a + b == b;
    } else {
      assert (a + b)[0] == a[0] && (a + b)[1..] == a[1..] + b;
      SelectedAppend(a[1..], b, name);
    }
  }

  /** `models_to_run`: every configuration when no filter is given, and
      otherwise exactly those with the given name. */
  function ModelsToRun(models: seq<ModelConfig>, model: Option<string>): (ms: seq<ModelConfig>)
    ensures !FilterActive(model) ==> ms == models
    ensures FilterActive(model) ==> forall m :: m in ms <==> m in models && m.name == model.value
  {
    if FilterActive(model) then Selected(models, model.value) else models
  }

  predicate KnownKind(kind: string) {
    kind == Ollama || kind == SentenceTransformers
  }

  /** One pass of the per-model loop body. */
  function Step(w: World, b: Backends, cfg: Config, force: bool, df: Frame, texts: seq<string>, m: ModelConfig)
    : (World, Option<Error>)
    requires WellFormed(df)
  {
    var path := VectorPath(cfg.outputDir, m.name);
    if path in w.files && !force then (w, None)
    else if m.kind == Ollama then
      var vectors := RemoteAll(b.remote, m.name, texts);
      SaveSpec(w.Called(RemoteCalls(m.name, texts)), cfg.outputDir, m.name, vectors, df, cfg.metadataColumns)
    else if m.kind == SentenceTransformers then
      match m.huggingfaceName
      case None => (w, Some(MissingHuggingFaceName(m.name)))
      case Some(hf) =>
        var vectors := b.local(hf, texts);
        SaveSpec(w.Called([Local(hf, texts)]), cfg.outputDir, m.name, vectors, df, cfg.metadataColumns)
    else (w, None)
  }

  /** Skip: when the vector file exists and `--force` is not given, the model
      makes no provider call and the host is unchanged. */
  lemma StepSkipsExisting(w: World, b: Backends, cfg: Config, df: Frame, texts: seq<string>, m: ModelConfig)
    requires WellFormed(df)
    requires VectorPath(cfg.outputDir, m.name) in w.files
    ensures Step(w, b, cfg, false, df, texts, m) == (w, None)
  {
  }

  /** An unknown model type is only warned about: no call, no save. */
  lemma StepUnknownKind(w: World, b: Backends, cfg: Config, force: bool, df: Frame, texts: seq<string>, m: ModelConfig)
    requires WellFormed(df)
    requires !KnownKind(m.kind)
    ensures Step(w, b, cfg, force, df, texts, m) == (w, None)
  {
  }

  /** An Ollama model that is not skipped makes one request per text and its
      vector file then holds exactly those vectors, in text order. */
  lemma StepOllama(w: World, b: Backends, cfg: Config, force: bool, df: Frame, texts: seq<string>, m: ModelConfig)
    requires WellFormed(df)
    requires m.kind == Ollama && (force || VectorPath(cfg.outputDir, m.name) !in w.files)
    ensures var w' := Step(w, b, cfg, force, df, texts, m).0;
      && w'.calls == w.calls + RemoteCalls(m.name, texts)
      && VectorPath(cfg.outputDir, m.name) in w'.files
      && w'.files[VectorPath(cfg.outputDir, m.name)] == Vectors(RemoteAll(b.remote, m.name, texts))
  {
  }

  /** A Sentence-Transformers model that is not skipped needs its
      `huggingface_name` (else `KeyError` before any call); with it, one
      `encode` of all texts, whose result is saved. */
  lemma StepSentenceTransformers(w: World, b: Backends, cfg: Config, force: bool, df: Frame, texts: seq<string>, m: ModelConfig)
    requires WellFormed(df)
    requires m.kind == SentenceTransformers && (force || VectorPath(cfg.outputDir, m.name) !in w.files)
    ensures var r := Step(w, b, cfg, force, df, texts, m);
      if m.huggingfaceName.None? then r == (w, Some(MissingHuggingFaceName(m.name)))
      else
        && r.0.calls == w.calls + [Local(m.huggingfaceName.value, texts)]
        && VectorPath(cfg.outputDir, m.name) in r.0.files
        && r.0.files[VectorPath(cfg.outputDir, m.name)] == Vectors(b.local(m.huggingfaceName.value, texts))
  {
  }

  /** `w'` differs from `w` only by added files, changes to the files in
      `touched`, a new `metadata.json` at `mp` (an existing one is kept), and
      provider calls appended to the log. */
  predicate OnlyTouches(w: World, w': World, touched: set<string>, mp: string) {
    && w.files.Keys <= w'.files.Keys
    && w'.files.Keys <= w.files.Keys + touched + {mp}
    && (forall p :: p in w.files && p !in touched && p != mp ==> w'.files[p] == w.files[p])
    && (mp in w.files ==> w'.files[mp] == w.files[mp])
    && |w.calls| <= |w'.calls| && w'.calls[..|w.calls|] == w.calls
  }

  lemma OnlyTouchesTrans(w0: World, w1: World, w2: World, t1: set<string>, t2: set<string>, mp: string)
    requires OnlyTouches(w0, w1, t1, mp) && OnlyTouches(w1, w2, t2, mp)
    ensures OnlyTouches(w0, w2, t1 + t2, mp)
  {
    assert w2.calls[..|w0.calls|] == w2.calls[..|w1.calls|][..|w0.calls|];
  }

  /** What one model can change: only its own vector file and a missing
      `metadata.json`; and when it completes, its vector file -- the one the
      skip check looks for -- exists. */
  lemma StepFrame(w: World, b: Backends, cfg: Config, force: bool, df: Frame, texts: seq<string>, m: ModelConfig)
    requires WellFormed(df)
    ensures var r := Step(w, b, cfg, force, df, texts, m);
      && OnlyTouches(w, r.0, {VectorPath(cfg.outputDir, m.name)}, MetadataPath(cfg.outputDir))
      && (r.1.None? && KnownKind(m.kind) ==> VectorPath(cfg.outputDir, m.name) in r.0.files)
  {
    var vp, mp := VectorPath(cfg.outputDir, m.name), MetadataPath(cfg.outputDir);
    if vp in w.files && !force {
    } else if m.kind == Ollama {
      var w1 := w.Called(RemoteCalls(m.name, texts));
      var r := SaveSpec(w1, cfg.outputDir, m.name, RemoteAll(b.remote, m.name, texts), df, cfg.metadataColumns);
      assert r.0.calls[..|w.calls|] == w.calls;
      assert OnlyTouches(w, r.0, {vp}, mp);
    } else if m.kind == SentenceTransformers && m.huggingfaceName.Some? {
      var hf := m.huggingfaceName.value;
      var w1 := w.Called([Local(hf, texts)]);
      var r := SaveSpec(w1, cfg.outputDir, m.name, b.local(hf, texts), df, cfg.metadataColumns);
      assert r.0.calls[..|w.calls|] == w.calls;
      assert OnlyTouches(w, r.0, {vp}, mp);
    }
  }

  /** The `for model_config in models_to_run` loop; an exception ends it. */
  function RunModels(w: World, b: Backends, cfg: Config, force: bool, df: Frame, texts: seq<string>, ms: seq<ModelConfig>)
    : (r: (World, Outcome))
    requires WellFormed(df)
    decreases |ms|
    ensures r.1 == Completed || r.1.Raised?
  {
    if ms == [] then (w, Completed)
    else
      var (w1, err) := Step(w, b, cfg, force, df, texts, ms[0]);
      if err.Some? then (w1, Raised(err.value))
      else RunModels(w1, b, cfg, force, df, texts, ms[1..])
  }

  /** One pass of the per-model loop, from model `i` on: a failing step ends
      the run with its error, a good one leaves the rest of the list to run. */
  lemma RunModelsCons(w: World, b: Backends, cfg: Config, force: bool, df: Frame, texts: seq<string>,
                      ms: seq<ModelConfig>, i: nat, w1: World, err: Option<Error>)
    requires WellFormed(df) && i < |ms|
    requires (w1, err) == Step(w, b, cfg, force, df, texts, ms[i])
    ensures err.Some? ==> RunModels(w, b, cfg, force, df, texts, ms[i..]) == (w1, Raised(err.value))
    ensures err.None? ==> RunModels(w, b, cfg, force, df, texts, ms[i..]) == RunModels(w1, b, cfg, force, df, texts, ms[i + 1..])
  {
    assert ms[i..][0] == ms[i];
    assert ms[i..][1..] == ms[i + 1..];
  }

  /** `main` after argument parsing and configuration loading; `df` is `None`
      when the input file does not exist. */
  function Run(w: World, b: Backends, cfg: Config, args: Args, df: Option<Frame>): (World, Outcome)
    requires df.Some? ==> WellFormed(df.value)
  {
    if df.None? then (w, InputMissing)
    else
      var texts := GetTextsToEmbed(df.value, cfg.textColumn);
      if texts.None? then (w, TextColumnMissing)
      else
        var ms := ModelsToRun(cfg.models, args.model);
        if FilterActive(args.model) && ms == [] then (w, ModelNotFound)
        else RunModels(w, b, cfg, args.force, df.value, texts.value, ms)
  }

  /** The body of the per-model loop of `main`: skip, dispatch on the model
      type, vectorise and save. */
  method RunModel(h: Host, cfg: Config, force: bool, df: Frame, texts: seq<string>, modelConfig: ModelConfig)
    returns (err: Option<Error>)
    requires WellFormed(df)
    modifies h
    ensures (h.State(), err) == Step(old(h.State()), h.backends, cfg, force, df, texts, modelConfig)
  {
    var outputPath := VectorPath(cfg.outputDir, modelConfig.name);
    if h.Exists(outputPath) && !force {
      return None;
    }
    var vectors;
    if modelConfig.kind == Ollama {
      vectors := VectorizeWithOllama(h, modelConfig.name, texts);
    } else if modelConfig.kind == SentenceTransformers {
      if modelConfig.huggingfaceName.None? {
        return Some(MissingHuggingFaceName(modelConfig.name));
      }
      vectors := VectorizeWithSt(h, modelConfig.huggingfaceName.value, texts);
    } else {
      return None;
    }
    err := SaveResults(h, cfg.outputDir, modelConfig.name, vectors, df, cfg.metadataColumns);
  }

  /** `main` of the vectorisation driver, from the point where the
      configuration, the arguments and the table have been loaded. */
  method RunDriver(h: Host, cfg: Config, args: Args, df: Option<Frame>) returns (outcome: Outcome)
    requires df.Some? ==> WellFormed(df.value)
    modifies h
    ensures (h.State(), outcome) == Run(old(h.State()), h.backends, cfg, args, df)
  {
    if df.None? {
      return InputMissing;
    }
    var texts := GetTextsToEmbed(df.value, cfg.textColumn);
    if texts.None? {
      return TextColumnMissing;
    }
    var modelsToRun := cfg.models;
    if FilterActive(args.model) {
      modelsToRun := Selected(modelsToRun, args.model.value);
      if modelsToRun == [] {
        return ModelNotFound;
      }
    }
    outcome := RunModelLoop(h, cfg, args.force, df.value, texts.value, modelsToRun);
  }

  /** The per-model loop of `main`: run the models in order, stopping at the
      first one that raises. */
  method RunModelLoop(h: Host, cfg: Config, force: bool, df: Frame, texts: seq<string>, modelsToRun: seq<ModelConfig>)
    returns (outcome: Outcome)
    requires WellFormed(df)
    modifies h
    ensures (h.State(), outcome) == RunModels(old(h.State()), h.backends, cfg, force, df, texts, modelsToRun)
  {
    ghost var w0 := h.State();
    for i := 0 to |modelsToRun|
      invariant RunModels(w0, h.backends, cfg, force, df, texts, modelsToRun)
             == RunModels(h.State(), h.backends, cfg, force, df, texts, modelsToRun[i..])
    {
      ghost var w := h.State();
      var err := RunModel(h, cfg, force, df, texts, modelsToRun[i]);
      RunModelsCons(w, h.backends, cfg, force, df, texts, modelsToRun, i, h.State(), err);
      if err.Some? {
        return Raised(err.value);
      }
    }
    assert modelsToRun[|modelsToRun|..] == [];
    return Completed;
  }
}
