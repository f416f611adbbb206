/** Properties of whole runs of the vectorisation driver: what a run may
    write, that metadata survives, that a finished run is a fixed point of the
    skip policy, and the early returns that leave the host untouched. */
module VectorizeProperties {

  import opened Paths
  import opened Environment
  import opened Vectorize

  /** The vector files the models of `ms` would write. */
  function Targets(outputDir: string, ms: seq<ModelConfig>): set<string> {
    set m | m in ms :: VectorPath(outputDir, m.name)
  }

  /** A run of the model loop touches no file but the listed models' vector
      files and a missing `metadata.json`, and only appends to the call log. */
  lemma {:induction false} RunModelsFrame(w: World, b: Backends, cfg: Config, force: bool, df: Frame, texts: seq<string>, ms: seq<ModelConfig>)
    requires WellFormed(df)
    decreases |ms|
    ensures OnlyTouches(w, RunModels(w, b, cfg, force, df, texts, ms).0, Targets(cfg.outputDir, ms), MetadataPath(cfg.outputDir))
  {
    var mp := MetadataPath(cfg.outputDir);
    if ms == [] {
      assert w.calls[..|w.calls|] == w.calls;
    } else {
      var (w1, err) := Step(w, b, cfg, force, df, texts, ms[0]);
      StepFrame(w, b, cfg, force, df, texts, ms[0]);
      var head := {VectorPath(cfg.outputDir, ms[0].name)};
      assert Targets(cfg.outputDir, ms) == head + Targets(cfg.outputDir, ms[1..]) by {
        assert forall m :: m in ms <==> m == ms[0] || m in ms[1..];
      }
      if err.None? {
        RunModelsFrame(w1, b, cfg, force, df, texts, ms[1..]);
        var w' := RunModels(w1, b, cfg, force, df, texts, ms[1..]).0;
        OnlyTouchesTrans(w, w1, w', head, Targets(cfg.outputDir, ms[1..]), mp);
      }
    }
  }

  /** Skip on exists: when every model's vector file is already there and
      `--force` is not given, the loop makes no provider call and changes
      nothing. */
  lemma {:induction false} RunModelsAllExisting(w: World, b: Backends, cfg: Config, df: Frame, texts: seq<string>, ms: seq<ModelConfig>)
    requires WellFormed(df)
    requires forall m :: m in ms ==> VectorPath(cfg.outputDir, m.name) in w.files
    decreases |ms|
    ensures RunModels(w, b, cfg, false, df, texts, ms) == (w, Completed)
  {
    if ms != [] {
      assert ms[0] in ms;
      StepSkipsExisting(w, b, cfg, df, texts, ms[0]);
      assert forall m :: m in ms[1..] ==> m in ms;
      RunModelsAllExisting(w, b, cfg, df, texts, ms[1..]);
    }
  }

  /** A completed run without `--force` leaves every model it went over either
      skipped for good or with its vector file written, so running the same
      loop again changes nothing and calls no provider. */
  lemma {:induction false} RunModelsRerunIsNoOp(w: World, b: Backends, cfg: Config, df: Frame, texts: seq<string>, ms: seq<ModelConfig>)
    requires WellFormed(df)
    requires RunModels(w, b, cfg, false, df, texts, ms).1 == Completed
    decreases |ms|
    ensures var w' := RunModels(w, b, cfg, false, df, texts, ms).0;
      RunModels(w', b, cfg, false, df, texts, ms) == (w', Completed)
  {
    if ms != [] {
      var (w1, err) := Step(w, b, cfg, false, df, texts, ms[0]);
      StepFrame(w, b, cfg, false, df, texts, ms[0]);
      assert err.None?;
      var w' := RunModels(w1, b, cfg, false, df, texts, ms[1..]).0;
      assert RunModels(w, b, cfg, false, df, texts, ms).0 == w';
      RunModelsRerunIsNoOp(w1, b, cfg, df, texts, ms[1..]);
      RunModelsFrame(w1, b, cfg, false, df, texts, ms[1..]);
      if KnownKind(ms[0].kind) {
        StepSkipsExisting(w', b, cfg, df, texts, ms[0]);
      } else {
        StepUnknownKind(w', b, cfg, false, df, texts, ms[0]);
      }
    }
  }

  /** The same at the level of `main`: a second run without `--force` after
      a completed one is a no-op. */
  lemma RunRerunIsNoOp(w: World, b: Backends, cfg: Config, args: Args, df: Option<Frame>)
    requires df.Some? ==> WellFormed(df.value)
    requires !args.force && Run(w, b, cfg, args, df).1 == Completed
    ensures var w' := Run(w, b, cfg, args, df).0;
      Run(w', b, cfg, args, df) == (w', Completed)
  {
    var texts := GetTextsToEmbed(df.value, cfg.textColumn).value;
    RunModelsRerunIsNoOp(w, b, cfg, df.value, texts, ModelsToRun(cfg.models, args.model));
  }

  /** An existing `metadata.json` is never overwritten by a run, whatever
      the models, the flags or the outcome. */
  lemma RunKeepsMetadata(w: World, b: Backends, cfg: Config, args: Args, df: Option<Frame>)
    requires df.Some? ==> WellFormed(df.value)
    requires MetadataPath(cfg.outputDir) in w.files
    ensures var w' := Run(w, b, cfg, args, df).0;
      MetadataPath(cfg.outputDir) in w'.files && w'.files[MetadataPath(cfg.outputDir)] == w.files[MetadataPath(cfg.outputDir)]
  {
    RunFrame(w, b, cfg, args, df);
  }

  /** With `--model NAME`, the only vector file a run can create or replace is
      NAME's; every other file except a missing `metadata.json` is left as it
      was. */
  lemma RunWithModelTouchesOnlyIt(w: World, b: Backends, cfg: Config, args: Args, df: Option<Frame>)
    requires df.Some? ==> WellFormed(df.value)
    requires FilterActive(args.model)
    ensures OnlyTouches(w, Run(w, b, cfg, args, df).0, {VectorPath(cfg.outputDir, args.model.value)}, MetadataPath(cfg.outputDir))
  {
    var named := VectorPath(cfg.outputDir, args.model.value);
    var ms := ModelsToRun(cfg.models, args.model);
    RunFrame(w, b, cfg, args, df);
    TargetsOfSelected(cfg.outputDir, cfg.models, args.model.value);
    OnlyTouchesWiden(w, Run(w, b, cfg, args, df).0, Targets(cfg.outputDir, ms), {named}, MetadataPath(cfg.outputDir));
  }

  /** A run of `main` touches no file but the vector files of the models it
      selects and a missing `metadata.json`. */
  lemma RunFrame(w: World, b: Backends, cfg: Config, args: Args, df: Option<Frame>)
    requires df.Some? ==> WellFormed(df.value)
    ensures OnlyTouches(w, Run(w, b, cfg, args, df).0, Targets(cfg.outputDir, ModelsToRun(cfg.models, args.model)), MetadataPath(cfg.outputDir))
  {
    var ms := ModelsToRun(cfg.models, args.model);
    if df.Some? && GetTextsToEmbed(df.value, cfg.textColumn).Some? && !(FilterActive(args.model) && ms == []) {
      var texts := GetTextsToEmbed(df.value, cfg.textColumn).value;
      RunModelsFrame(w, b, cfg, args.force, df.value, texts, ms);
    } else {
      OnlyTouchesRefl(w, Targets(cfg.outputDir, ms), MetadataPath(cfg.outputDir));
    }
  }

  /** The models the filter keeps all write the named model's file. */
  lemma TargetsOfSelected(outputDir: string, models: seq<ModelConfig>, name: string)
    ensures Targets(outputDir, Selected(models, name)) <= {VectorPath(outputDir, name)}
  {
  }

  lemma OnlyTouchesWiden(w: World, w': World, t: set<string>, t': set<string>, mp: string)
    requires OnlyTouches(w, w', t, mp) && t <= t'
    ensures OnlyTouches(w, w', t', mp)
  {
  }

  lemma OnlyTouchesRefl(w: World, t: set<string>, mp: string)
    ensures OnlyTouches(w, w, t, mp)
  {
    assert w.calls[..|w.calls|] == w.calls;
  }

  /** With `--model NAME` and no configuration of that name, `main` reports
      the error and returns before vectorising or saving anything. */
  lemma RunNoMatchingModel(w: World, b: Backends, cfg: Config, args: Args, df: Frame)
    requires WellFormed(df) && cfg.textColumn in df.columns
    requires FilterActive(args.model)
    requires forall m :: m in cfg.models ==> m.name != args.model.value
    ensures Run(w, b, cfg, args, Some(df)) == (w, ModelNotFound)
  {
  }

  /** The early returns of `main` leave the host untouched. */
  lemma RunEarlyReturns(w: World, b: Backends, cfg: Config, args: Args, df: Option<Frame>)
    requires df.Some? ==> WellFormed(df.value)
    ensures var (w', outcome) := Run(w, b, cfg, args, df);
      && (outcome == InputMissing <==> df.None?)
      && (outcome == TextColumnMissing <==> df.Some? && cfg.textColumn !in df.value.columns)
      && (outcome in {InputMissing, TextColumnMissing, ModelNotFound} ==> w' == w)
  {
  }
}
