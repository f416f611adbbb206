/** Resumable batch embedding (`process_in_batches`): partial vectors for one
    model live in a `.npy.tmp` file that grows batch by batch; a run resumes
    from it and ends by renaming it to the final vector file. */
module Checkpoint {

  import opened Paths
  import opened Environment
  import opened Vectorize

  // ---------------------------------------------------------------- names

  /** `str(name).replace('/', '__').replace('.', '_')`. */
  function CheckpointStem(modelName: string): (stem: string)
    ensures '/' !in stem && '.' !in stem
  {
    Replace(Replace(modelName, '/', "__"), '.', "_")
  }

  /** `f"vectors_{model_filename}.npy.tmp"`: where the partial vectors live. */
  function PartialName(modelName: string): (name: string)
    ensures '/' !in name && EndsWith(name, ".tmp")
  {
    "vectors_" + CheckpointStem(modelName) + ".npy.tmp"
  }

  /** The file the partial vectors are renamed to: the partial name without
      its ".tmp". */
  function FinalName(modelName: string): (name: string)
    ensures '/' !in name
    ensures PartialName(modelName) == name + ".tmp"
  {
    "vectors_" + CheckpointStem(modelName) + ".npy"
  }

  /** The two substitution rules agree exactly on names without '/' and '.'. */
  lemma StemIsSlashRule(modelName: string)
    ensures CheckpointStem(modelName) == Replace(modelName, '/', "_") <==> '/' !in modelName && '.' !in modelName
  {
    var once := Replace(modelName, '/', "__");
    var out := Replace(modelName, '/', "_");
    if '/' in modelName {
      ReplaceLength(modelName, '/', "__");
      var k := Count(modelName, '/');
      assert |once| == |modelName| + k * 1 && k > 0;
      assert |CheckpointStem(modelName)| == |once|;
      assert |out| == |modelName|;
    } else {
      assert once == modelName && out == modelName;
      assert CheckpointStem(modelName) == Replace(modelName, '.', "_");
    }
  }

  /** The checkpoint naming rule gives the driver's output name exactly for
      model names without '/' and '.'. */
  lemma FinalNameIsOutputName(modelName: string)
    ensures FinalName(modelName) == OutputName(modelName) <==> '/' !in modelName && '.' !in modelName
  {
    var stem, out := CheckpointStem(modelName), Replace(modelName, '/', "_");
    var f, o := FinalName(modelName), OutputName(modelName);
    assert f == "vectors_" + stem + ".npy";
    assert o == "vectors_" + out + ".npy";
    StemIsSlashRule(modelName);
    if f == o {
      assert stem == f[8..|f| - 4];
      assert out == o[8..|o| - 4];
    }
  }

  /** The paths of one model's partial and final files differ. */
  lemma PartialIsNotFinal(outputDir: string, modelName: string)
    ensures Join(outputDir, PartialName(modelName)) != Join(outputDir, FinalName(modelName))
  {
    JoinInjective(outputDir, PartialName(modelName), FinalName(modelName));
  }

  /** `np.save` appends ".npy" to a path ending in ".tmp", so
      `np.save(tmp_path, ...)` does not create `tmp_path` itself. */
  lemma NpSaveMissesPartial(outputDir: string, modelName: string)
    ensures NpSavePath(Join(outputDir, PartialName(modelName))) == Join(outputDir, PartialName(modelName)) + ".npy"
  {
    var tmp := Join(outputDir, PartialName(modelName));
    EndsWithTrans(tmp, PartialName(modelName), ".tmp");
    assert ".tmp"[1] != ".npy"[1];
    assert !EndsWith(tmp, ".npy");
  }

  // ---------------------------------------------------------------- the run

  /** A model the run can embed with. */
  predicate Runnable(m: ModelConfig) {
    m.kind == Ollama || (m.kind == SentenceTransformers && m.huggingfaceName.Some?)
  }

  /** The partial vectors a run starts from: the saved array when it is one
      and is not longer than the corpus, nothing otherwise. */
  function LoadPartial(w: World, tmp: string, n: nat): (done: seq<Vector>)
    ensures |done| <= n
    ensures tmp in w.files && w.files[tmp].Vectors? && |w.files[tmp].vs| <= n ==> done == w.files[tmp].vs
    ensures !(tmp in w.files && w.files[tmp].Vectors?) ==> done == []
  {
    if tmp in w.files && w.files[tmp].Vectors? && |w.files[tmp].vs| <= n then w.files[tmp].vs else []
  }

  /** The vectors and provider calls of one batch: one request per text for
      the remote service, one `encode` for a local model. */
  function EmbedBatch(b: Backends, m: ModelConfig, batch: seq<string>): (r: (seq<Vector>, seq<Call>))
    requires Runnable(m)
  {
    if m.kind == Ollama then (RemoteAll(b.remote, m.name, batch), RemoteCalls(m.name, batch))
    else (b.local(m.huggingfaceName.value, batch), [Local(m.huggingfaceName.value, batch)])
  }

  function BatchEnd(i: nat, batchSize: nat, n: nat): (j: nat)
    requires i < n && batchSize > 0
    ensures i < j <= n && j - i <= batchSize
  {
    if i + batchSize < n then i + batchSize else n
  }

  /** The batch loop from text `i` on, with `done` the vectors of texts
      `[0, i)`: embed the next batch, append it, save the partial file, and go
      on; a batch that comes back with the wrong number of vectors stops the
      loop. */
  function BatchLoop(w: World, b: Backends, m: ModelConfig, texts: seq<string>, batchSize: nat, tmp: string,
                     done: seq<Vector>, i: nat): (World, seq<Vector>, bool)
    requires batchSize > 0 && Runnable(m) && i <= |texts|
    decreases |texts| - i
  {
    if i == |texts| then (w, done, true)
    else
      var j := BatchEnd(i, batchSize, |texts|);
      var (vs, cs) := EmbedBatch(b, m, texts[i..j]);
      var w1 := w.Called(cs);
      if |vs| != j - i then (w1, done, false)
      else BatchLoop(w1.Saved(tmp, Vectors(done + vs)), b, m, texts, batchSize, tmp, done + vs, j)
  }

  /** `process_in_batches`: resume from the partial file, run the batch loop,
      make sure the partial file holds every vector, and rename it to the
      final name. */
  function ProcessSpec(w: World, b: Backends, texts: seq<string>, m: ModelConfig, batchSize: nat, outputDir: string)
    : (World, bool)
    requires batchSize > 0
  {
    if !Runnable(m) then (w, false)
    else
      var tmp := Join(outputDir, PartialName(m.name));
      var final := Join(outputDir, FinalName(m.name));
      var done0 := LoadPartial(w, tmp, |texts|);
      var (w1, done, ok) := BatchLoop(w, b, m, texts, batchSize, tmp, done0, |done0|);
      if !ok then (w1, false)
      else
        var w2 := if tmp in w1.files && w1.files[tmp] == Vectors(done) then w1 else w1.Saved(tmp, Vectors(done));
        (w2.Renamed(tmp, final), true)
  }

  /** `process_in_batches` on the host. */
  method ProcessInBatches(h: Host, texts: seq<string>, modelConfig: ModelConfig, batchSize: nat, outputDir: string)
    returns (ok: bool)
    requires batchSize > 0
    modifies h
    ensures (h.State(), ok) == ProcessSpec(old(h.State()), h.backends, texts, modelConfig, batchSize, outputDir)
  {
    if !Runnable(modelConfig) {
      return false;
    }
    var tmpPath := Join(outputDir, PartialName(modelConfig.name));
    var finalPath := Join(outputDir, FinalName(modelConfig.name));
    var done := LoadPartial(h.State(), tmpPath, |texts|);
    ghost var w0, done0 := h.State(), done;
    var i := |done|;
    while i < |texts|
      invariant i <= |texts|
      invariant BatchLoop(w0, h.backends, modelConfig, texts, batchSize, tmpPath, done0, |done0|)
             == BatchLoop(h.State(), h.backends, modelConfig, texts, batchSize, tmpPath, done, i)
      decreases |texts| - i
    {
      var end := BatchEnd(i, batchSize, |texts|);
      var batch := texts[i..end];
      var vectors;
      if modelConfig.kind == Ollama {
        vectors := VectorizeWithOllama(h, modelConfig.name, batch);
      } else {
        vectors := VectorizeWithSt(h, modelConfig.huggingfaceName.value, batch);
      }
      if |vectors| != |batch| {
        return false;
      }
      done := done + vectors;
      h.Write(tmpPath, Vectors(done));
      i := end;
    }
    if !(tmpPath in h.files && h.files[tmpPath] == Vectors(done)) {
      h.Write(tmpPath, Vectors(done));
    }
    h.RenameFile(tmpPath, finalPath);
    return true;
  }
}
