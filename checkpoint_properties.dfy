/** Properties of the resumable batch run: the partial file always holds a
    prefix of the corpus' vectors, a successful run ends with the vectors
    saved and renamed to the final name, resuming gives what an uninterrupted
    run gives, and the scenarios the unit tests set up succeed. */
module CheckpointProperties {

  import opened Paths
  import opened Environment
  import opened Vectorize
  import opened Checkpoint

  /** Between `w` and `w'` only the partial file `tmp` changed, the only file
      operations were saves of it, and provider calls were appended. */
  ghost predicate CheckpointFrame(w: World, w': World, tmp: string) {
    && (forall p :: p != tmp ==> (p in w.files <==> p in w'.files))
    && (forall p :: p in w.files && p != tmp ==> w'.files[p] == w.files[p])
    && |w.ops| <= |w'.ops| && w'.ops[..|w.ops|] == w.ops
    && (forall k :: |w.ops| <= k < |w'.ops| ==> w'.ops[k] == Save(tmp))
    && |w.calls| <= |w'.calls| && w'.calls[..|w.calls|] == w.calls
  }

  lemma CheckpointFrameTrans(w0: World, w1: World, w2: World, tmp: string)
    requires CheckpointFrame(w0, w1, tmp) && CheckpointFrame(w1, w2, tmp)
    ensures CheckpointFrame(w0, w2, tmp)
  {
    assert w2.ops[..|w0.ops|] == w2.ops[..|w1.ops|][..|w0.ops|];
    assert w2.calls[..|w0.calls|] == w2.calls[..|w1.calls|][..|w0.calls|];
    forall k | |w0.ops| <= k < |w2.ops|
      ensures w2.ops[k] == Save(tmp)
    {
      if k < |w1.ops| {
        assert w2.ops[k] == w2.ops[..|w1.ops|][k];
      }
    }
  }

  /** The prefix invariant of the batch loop: starting with the vectors of
      texts `[0, i)`, it ends with an extension of them that is never longer
      than the corpus and covers all of it when the loop succeeds; whenever a
      batch was added the partial file holds exactly the vectors so far, and
      nothing else on the host changes. */
  lemma {:induction false} BatchLoopPrefix(w: World, b: Backends, m: ModelConfig, texts: seq<string>, batchSize: nat,
                                           tmp: string, done: seq<Vector>, i: nat)
    requires batchSize > 0 && Runnable(m) && i <= |texts| && |done| == i
    decreases |texts| - i
    ensures var (w', done', ok) := BatchLoop(w, b, m, texts, batchSize, tmp, done, i);
      && |done| <= |done'| <= |texts| && done'[..|done|] == done
      && (ok ==> |done'| == |texts|)
      && (|done'| > |done| ==> tmp in w'.files && w'.files[tmp] == Vectors(done') && |w'.ops| > |w.ops|)
      && (|done'| == |done| ==> w'.files == w.files && w'.ops == w.ops)
      && CheckpointFrame(w, w', tmp)
  {
    if i < |texts| {
      var j := BatchEnd(i, batchSize, |texts|);
      var (vs, cs) := EmbedBatch(b, m, texts[i..j]);
      var w1 := w.Called(cs);
      assert w1.calls[..|w.calls|] == w.calls;
      assert w1.ops[..|w.ops|] == w.ops;
      if |vs| == j - i {
        var w2 := w1.Saved(tmp, Vectors(done + vs));
        assert w2.ops[..|w.ops|] == w.ops;
        assert CheckpointFrame(w, w2, tmp);
        BatchLoopPrefix(w2, b, m, texts, batchSize, tmp, done + vs, j);
        var (w', done', ok) := BatchLoop(w2, b, m, texts, batchSize, tmp, done + vs, j);
        CheckpointFrameTrans(w, w2, w', tmp);
        assert done'[..|done|] == done'[..|done + vs|][..|done|];
      } else {
        assert CheckpointFrame(w, w1, tmp);
      }
    } else {
      assert w.ops[..|w.ops|] == w.ops && w.calls[..|w.calls|] == w.calls;
    }
  }

  lemma RemoteAllAppend(remote: (string, string) -> Vector, model: string, a: seq<string>, c: seq<string>)
    ensures RemoteAll(remote, model, a + c) == RemoteAll(remote, model, a) + RemoteAll(remote, model, c)
    ensures RemoteCalls(model, a + c) == RemoteCalls(model, a) + RemoteCalls(model, c)
  {
    RemoteVectorsAppend(remote, model, a, c);
    RemoteCallsAppend(model, a, c);
  }

  lemma RemoteVectorsAppend(remote: (string, string) -> Vector, model: string, a: seq<string>, c: seq<string>)
    ensures RemoteAll(remote, model, a + c) == RemoteAll(remote, model, a) + RemoteAll(remote, model, c)
  {
    var l, ra, rc := RemoteAll(remote, model, a + c), RemoteAll(remote, model, a), RemoteAll(remote, model, c);
    var r := ra + rc;
    assert |l| == |r|;
    forall k | 0 <= k < |l| ensures l[k] == r[k] {
      if k < |a| {
        assert (a + c)[k] == a[k];
        assert r[k] == ra[k];
      } else {
        assert (a + c)[k] == c[k - |a|];
        assert r[k] == rc[k - |a|];
      }
    }
  }

  lemma RemoteCallsAppend(model: string, a: seq<string>, c: seq<string>)
    ensures RemoteCalls(model, a + c) == RemoteCalls(model, a) + RemoteCalls(model, c)
  {
    var l, ra, rc := RemoteCalls(model, a + c), RemoteCalls(model, a), RemoteCalls(model, c);
    var r := ra + rc;
    assert |l| == |r|;
    forall k | 0 <= k < |l| ensures l[k] == r[k] {
      if k < |a| {
        assert (a + c)[k] == a[k];
        assert r[k] == ra[k];
      } else {
        assert (a + c)[k] == c[k - |a|];
        assert r[k] == rc[k - |a|];
      }
    }
  }

  /** One turn of the batch loop. */
  lemma BatchLoopStep(w: World, b: Backends, m: ModelConfig, texts: seq<string>, batchSize: nat,
                      tmp: string, done: seq<Vector>, i: nat)
    requires batchSize > 0 && Runnable(m) && i < |texts|
    ensures var j := BatchEnd(i, batchSize, |texts|);
      var (vs, cs) := EmbedBatch(b, m, texts[i..j]);
      BatchLoop(w, b, m, texts, batchSize, tmp, done, i)
        == if |vs| == j - i then BatchLoop(w.Called(cs).Saved(tmp, Vectors(done + vs)), b, m, texts, batchSize, tmp, done + vs, j)
           else (w.Called(cs), done, false)
  {
  }

  lemma RemoteAllSplit(remote: (string, string) -> Vector, model: string, texts: seq<string>, i: nat, j: nat)
    requires i <= j <= |texts|
    ensures RemoteAll(remote, model, texts[i..]) == RemoteAll(remote, model, texts[i..j]) + RemoteAll(remote, model, texts[j..])
    ensures RemoteCalls(model, texts[i..]) == RemoteCalls(model, texts[i..j]) + RemoteCalls(model, texts[j..])
  {
    assert texts[i..] == texts[i..j] + texts[j..];
    RemoteAllAppend(remote, model, texts[i..j], texts[j..]);
  }

  /** With the remote service the loop always succeeds: the texts from `i` on
      get one request each, in order, and their vectors are appended in text
      order -- whatever the batch size. */
  lemma {:induction false} BatchLoopRemote(w: World, b: Backends, m: ModelConfig, texts: seq<string>, batchSize: nat,
                                           tmp: string, done: seq<Vector>, i: nat)
    requires batchSize > 0 && m.kind == Ollama && i <= |texts|
    decreases |texts| - i
    ensures var r := BatchLoop(w, b, m, texts, batchSize, tmp, done, i);
      && r.2
      && r.1 == done + RemoteAll(b.remote, m.name, texts[i..])
      && r.0.calls == w.calls + RemoteCalls(m.name, texts[i..])
  {
    if i < |texts| {
      var j := BatchEnd(i, batchSize, |texts|);
      var vs := RemoteAll(b.remote, m.name, texts[i..j]);
      var cs := RemoteCalls(m.name, texts[i..j]);
      var w2 := w.Called(cs).Saved(tmp, Vectors(done + vs));
      var r := BatchLoop(w, b, m, texts, batchSize, tmp, done, i);
      var r2 := BatchLoop(w2, b, m, texts, batchSize, tmp, done + vs, j);
      assert r == r2 by {
        assert EmbedBatch(b, m, texts[i..j]) == (vs, cs);
        BatchLoopStep(w, b, m, texts, batchSize, tmp, done, i);
      }
      BatchLoopRemote(w2, b, m, texts, batchSize, tmp, done + vs, j);
      RemoteAllSplit(b.remote, m.name, texts, i, j);
      var rest, restCalls := RemoteAll(b.remote, m.name, texts[j..]), RemoteCalls(m.name, texts[j..]);
      AppendAssoc(done, vs, rest);
      AppendAssoc(w.calls, cs, restCalls);
    } else {
      assert texts[i..] == [];
    }
  }

  /** With a local model whose `encode` returns one vector per text, the loop
      succeeds. */
  lemma {:induction false} BatchLoopLocalExact(w: World, b: Backends, m: ModelConfig, texts: seq<string>, batchSize: nat,
                                               tmp: string, done: seq<Vector>, i: nat)
    requires batchSize > 0 && m.kind == SentenceTransformers && m.huggingfaceName.Some? && i <= |texts|
    requires forall s :: |b.local(m.huggingfaceName.value, s)| == |s|
    decreases |texts| - i
    ensures BatchLoop(w, b, m, texts, batchSize, tmp, done, i).2
  {
    if i < |texts| {
      var j := BatchEnd(i, batchSize, |texts|);
      var hf := m.huggingfaceName.value;
      var vs := b.local(hf, texts[i..j]);
      assert |vs| == j - i;
      BatchLoopLocalExact(w.Called([Local(hf, texts[i..j])]).Saved(tmp, Vectors(done + vs)), b, m, texts, batchSize, tmp, done + vs, j);
    }
  }

  /** The outcome of `process_in_batches`. On success the final file holds one
      vector per text, starting with the vectors it resumed from, the partial
      file is gone and the run's last file operation is the rename of the
      partial file to the final one, after saves of the partial file only; a
      run that had work to do saved the partial file (`np.save`) before the
      rename. On failure there is no rename and the final file is untouched. */
  lemma ProcessOutcome(w: World, b: Backends, texts: seq<string>, m: ModelConfig, batchSize: nat, outputDir: string)
    requires batchSize > 0
    ensures var (w', ok) := ProcessSpec(w, b, texts, m, batchSize, outputDir);
      var tmp, final := Join(outputDir, PartialName(m.name)), Join(outputDir, FinalName(m.name));
      var done0 := LoadPartial(w, tmp, |texts|);
      && |w.ops| <= |w'.ops| && w'.ops[..|w.ops|] == w.ops
      && (ok ==>
            && final in w'.files && w'.files[final].Vectors?
            && |w'.files[final].vs| == |texts| && w'.files[final].vs[..|done0|] == done0
            && tmp !in w'.files
            && w'.ops[|w'.ops| - 1] == Rename(tmp, final)
            && (forall k :: |w.ops| <= k < |w'.ops| - 1 ==> w'.ops[k] == Save(tmp))
            && (|done0| < |texts| ==> exists k :: |w.ops| <= k < |w'.ops| && w'.ops[k] == Save(tmp))
            && (forall p :: p in w.files && p != tmp && p != final ==> p in w'.files && w'.files[p] == w.files[p]))
      && (!ok ==>
            && (final in w'.files <==> final in w.files)
            && (final in w.files ==> w'.files[final] == w.files[final])
            && (forall k :: |w.ops| <= k < |w'.ops| ==> w'.ops[k] == Save(tmp)))
  {
    var tmp, final := Join(outputDir, PartialName(m.name)), Join(outputDir, FinalName(m.name));
    PartialIsNotFinal(outputDir, m.name);
    if Runnable(m) {
      var done0 := LoadPartial(w, tmp, |texts|);
      BatchLoopPrefix(w, b, m, texts, batchSize, tmp, done0, |done0|);
      var (w1, done, ok) := BatchLoop(w, b, m, texts, batchSize, tmp, done0, |done0|);
      if ok {
        FinishOutcome(w, w1, tmp, final, done0, done);
      }
    } else {
      assert w.ops[..|w.ops|] == w.ops;
    }
  }

  /** The end of a successful run: the partial file is brought up to date if
      need be and renamed to the final name. */
  lemma FinishOutcome(w: World, w1: World, tmp: string, final: string, done0: seq<Vector>, done: seq<Vector>)
    requires tmp != final && CheckpointFrame(w, w1, tmp)
    requires |done0| <= |done| && done[..|done0|] == done0
    requires |done| > |done0| ==> tmp in w1.files && w1.files[tmp] == Vectors(done) && |w1.ops| > |w.ops|
    ensures var w2 := if tmp in w1.files && w1.files[tmp] == Vectors(done) then w1 else w1.Saved(tmp, Vectors(done));
      var w' := w2.Renamed(tmp, final);
      && |w.ops| <= |w'.ops| && w'.ops[..|w.ops|] == w.ops
      && final in w'.files && w'.files[final] == Vectors(done)
      && tmp !in w'.files
      && w'.ops[|w'.ops| - 1] == Rename(tmp, final)
      && (forall k :: |w.ops| <= k < |w'.ops| - 1 ==> w'.ops[k] == Save(tmp))
      && (|done0| < |done| ==> exists k :: |w.ops| <= k < |w'.ops| && w'.ops[k] == Save(tmp))
      && (forall p :: p in w.files && p != tmp && p != final ==> p in w'.files && w'.files[p] == w.files[p])
  {
    var w2 := if tmp in w1.files && w1.files[tmp] == Vectors(done) then w1 else w1.Saved(tmp, Vectors(done));
    assert w2.ops[..|w1.ops|] == w1.ops;
    var w' := w2.Renamed(tmp, final);
    assert w'.ops[..|w2.ops|] == w2.ops;
    assert w'.ops[..|w.ops|] == w'.ops[..|w2.ops|][..|w1.ops|][..|w.ops|];
    forall k | |w.ops| <= k < |w'.ops| - 1
      ensures w'.ops[k] == Save(tmp)
    {
      assert w'.ops[k] == w2.ops[k];
      if k < |w1.ops| { assert w2.ops[k] == w1.ops[k]; }
    }
    if |done0| < |done| {
      assert w'.ops[|w.ops|] == w1.ops[|w.ops|];
    }
  }

  /** With the remote service a run always succeeds, asks for each text not
      yet in the partial file exactly once and in order, and its final file is
      the resumed vectors followed by those texts' vectors. */
  lemma ProcessRemote(w: World, b: Backends, texts: seq<string>, m: ModelConfig, batchSize: nat, outputDir: string)
    requires batchSize > 0 && m.kind == Ollama
    ensures var (w', ok) := ProcessSpec(w, b, texts, m, batchSize, outputDir);
      var final := Join(outputDir, FinalName(m.name));
      var done0 := LoadPartial(w, Join(outputDir, PartialName(m.name)), |texts|);
      && ok
      && w'.calls == w.calls + RemoteCalls(m.name, texts[|done0|..])
      && final in w'.files
      && w'.files[final] == Vectors(done0 + RemoteAll(b.remote, m.name, texts[|done0|..]))
  {
    var tmp := Join(outputDir, PartialName(m.name));
    var done0 := LoadPartial(w, tmp, |texts|);
    BatchLoopRemote(w, b, m, texts, batchSize, tmp, done0, |done0|);
  }

  /** Resuming gives what an uninterrupted run gives: when the partial file
      holds the vectors of the first texts, the final file is exactly the
      vectors of all texts, vector i from text i. */
  lemma ResumeEqualsFreshRun(w: World, b: Backends, texts: seq<string>, m: ModelConfig, batchSize: nat, outputDir: string)
    requires batchSize > 0 && m.kind == Ollama
    requires var done0 := LoadPartial(w, Join(outputDir, PartialName(m.name)), |texts|);
      done0 == RemoteAll(b.remote, m.name, texts[..|done0|])
    ensures var (w', ok) := ProcessSpec(w, b, texts, m, batchSize, outputDir);
      ok && w'.files[Join(outputDir, FinalName(m.name))] == Vectors(RemoteAll(b.remote, m.name, texts))
  {
    var done0 := LoadPartial(w, Join(outputDir, PartialName(m.name)), |texts|);
    ProcessRemote(w, b, texts, m, batchSize, outputDir);
    assert texts == texts[..|done0|] + texts[|done0|..];
    RemoteAllAppend(b.remote, m.name, texts[..|done0|], texts[|done0|..]);
  }

  /** A local model whose `encode` returns as many vectors as texts makes the
      run succeed. */
  lemma ProcessLocalExact(w: World, b: Backends, texts: seq<string>, m: ModelConfig, batchSize: nat, outputDir: string)
    requires batchSize > 0 && m.kind == SentenceTransformers && m.huggingfaceName.Some?
    requires forall s :: |b.local(m.huggingfaceName.value, s)| == |s|
    ensures ProcessSpec(w, b, texts, m, batchSize, outputDir).1
  {
    var tmp := Join(outputDir, PartialName(m.name));
    var done0 := LoadPartial(w, tmp, |texts|);
    BatchLoopLocalExact(w, b, m, texts, batchSize, tmp, done0, |done0|);
  }

  // ---------------------------------------------------------------- the unit tests' scenarios

  /** Resume: four texts, batch size two, a partial file with two vectors.
      The run succeeds, asks only for texts 2 and 3, keeps the two saved
      vectors in front, saves once and then renames. */
  lemma ResumeScenario(w: World, b: Backends, texts: seq<string>, m: ModelConfig, outputDir: string, v0: Vector, v1: Vector)
    requires |texts| == 4 && m.kind == Ollama
    requires var tmp := Join(outputDir, PartialName(m.name));
      tmp in w.files && w.files[tmp] == Vectors([v0, v1])
    ensures var (w', ok) := ProcessSpec(w, b, texts, m, 2, outputDir);
      var tmp, final := Join(outputDir, PartialName(m.name)), Join(outputDir, FinalName(m.name));
      && ok
      && w'.calls == w.calls + [Remote(m.name, texts[2]), Remote(m.name, texts[3])]
      && w'.files[final] == Vectors([v0, v1, b.remote(m.name, texts[2]), b.remote(m.name, texts[3])])
      && w'.ops == w.ops + [Save(tmp), Rename(tmp, final)]
  {
    ProcessRemote(w, b, texts, m, 2, outputDir);
    var tmp := Join(outputDir, PartialName(m.name));
    var batch := texts[2..4];
    assert texts[2..] == batch;
    var w1 := w.Called(RemoteCalls(m.name, batch)).Saved(tmp, Vectors([v0, v1] + RemoteAll(b.remote, m.name, batch)));
    assert BatchLoop(w, b, m, texts, 2, tmp, [v0, v1], 2) == BatchLoop(w1, b, m, texts, 2, tmp, [v0, v1] + RemoteAll(b.remote, m.name, batch), 4);
  }

  /** Four texts in batches of two, from scratch, when both batches come back
      with two vectors: two provider rounds, each followed by a save. */
  lemma TwoBatches(w: World, b: Backends, m: ModelConfig, texts: seq<string>, tmp: string)
    requires |texts| == 4 && Runnable(m)
    requires |EmbedBatch(b, m, texts[0..2]).0| == 2 && |EmbedBatch(b, m, texts[2..4]).0| == 2
    ensures var (vs1, cs1) := EmbedBatch(b, m, texts[0..2]);
      var (vs2, cs2) := EmbedBatch(b, m, texts[2..4]);
      BatchLoop(w, b, m, texts, 2, tmp, [], 0)
        == (w.Called(cs1).Saved(tmp, Vectors(vs1)).Called(cs2).Saved(tmp, Vectors(vs1 + vs2)), vs1 + vs2, true)
  {
    var (vs1, cs1) := EmbedBatch(b, m, texts[0..2]);
    var (vs2, cs2) := EmbedBatch(b, m, texts[2..4]);
    var w1 := w.Called(cs1).Saved(tmp, Vectors(vs1));
    assert BatchLoop(w, b, m, texts, 2, tmp, [], 0) == BatchLoop(w1, b, m, texts, 2, tmp, vs1, 2) by {
      assert BatchEnd(0, 2, 4) == 2;
      assert [] + vs1 == vs1;
      BatchLoopStep(w, b, m, texts, 2, tmp, [], 0);
    }
    assert BatchEnd(2, 2, 4) == 4;
    BatchLoopStep(w1, b, m, texts, 2, tmp, vs1, 2);
  }

  /** A whole first run over four texts in batches of two when both batches
      come back with two vectors: both batches' calls, two saves of the
      partial file and the rename, and the final file holds both batches. */
  lemma TwoBatchRun(w: World, b: Backends, texts: seq<string>, m: ModelConfig, outputDir: string)
    requires |texts| == 4 && Runnable(m)
    requires |EmbedBatch(b, m, texts[0..2]).0| == 2 && |EmbedBatch(b, m, texts[2..4]).0| == 2
    requires Join(outputDir, PartialName(m.name)) !in w.files
    ensures var (w', ok) := ProcessSpec(w, b, texts, m, 2, outputDir);
      var tmp, final := Join(outputDir, PartialName(m.name)), Join(outputDir, FinalName(m.name));
      var (vs1, cs1) := EmbedBatch(b, m, texts[0..2]);
      var (vs2, cs2) := EmbedBatch(b, m, texts[2..4]);
      && ok
      && w'.calls == w.calls + cs1 + cs2
      && final in w'.files && w'.files[final] == Vectors(vs1 + vs2)
      && w'.ops == w.ops + [Save(tmp), Save(tmp), Rename(tmp, final)]
  {
    var tmp, final := Join(outputDir, PartialName(m.name)), Join(outputDir, FinalName(m.name));
    assert LoadPartial(w, tmp, 4) == [];
    TwoBatches(w, b, m, texts, tmp);
    var (vs1, cs1) := EmbedBatch(b, m, texts[0..2]);
    var (vs2, cs2) := EmbedBatch(b, m, texts[2..4]);
    var w2 := w.Called(cs1).Saved(tmp, Vectors(vs1)).Called(cs2).Saved(tmp, Vectors(vs1 + vs2));
    assert ProcessSpec(w, b, texts, m, 2, outputDir) == (w2.Renamed(tmp, final), true);
    assert w2.Renamed(tmp, final).ops == w.ops + [Save(tmp)] + [Save(tmp)] + [Rename(tmp, final)];
  }

  /** First run with the remote service: four texts, batch size two, no
      partial file. The run succeeds with two saves of the partial file
      followed by the rename, and the final file holds every text's vector. */
  lemma FreshRemoteScenario(w: World, b: Backends, texts: seq<string>, m: ModelConfig, outputDir: string)
    requires |texts| == 4 && m.kind == Ollama
    requires Join(outputDir, PartialName(m.name)) !in w.files
    ensures var (w', ok) := ProcessSpec(w, b, texts, m, 2, outputDir);
      var tmp, final := Join(outputDir, PartialName(m.name)), Join(outputDir, FinalName(m.name));
      && ok
      && w'.calls == w.calls + RemoteCalls(m.name, texts)
      && w'.files[final] == Vectors(RemoteAll(b.remote, m.name, texts))
      && w'.ops == w.ops + [Save(tmp), Save(tmp), Rename(tmp, final)]
  {
    assert EmbedBatch(b, m, texts[0..2]) == (RemoteAll(b.remote, m.name, texts[0..2]), RemoteCalls(m.name, texts[0..2]));
    assert EmbedBatch(b, m, texts[2..4]) == (RemoteAll(b.remote, m.name, texts[2..4]), RemoteCalls(m.name, texts[2..4]));
    TwoBatchRun(w, b, texts, m, outputDir);
    RemoteAllSplit(b.remote, m.name, texts, 0, 2);
    assert texts[0..] == texts && texts[2..] == texts[2..4];
    AppendAssoc(w.calls, RemoteCalls(m.name, texts[0..2]), RemoteCalls(m.name, texts[2..4]));
  }

  /** First run with a local model whose every `encode` returns two vectors:
      four texts, batch size two. The run makes two `encode` calls, succeeds,
      and the final file holds both batches' vectors in order. */
  lemma LocalScenario(w: World, b: Backends, texts: seq<string>, m: ModelConfig, outputDir: string, x: Vector, y: Vector)
    requires |texts| == 4 && m.kind == SentenceTransformers && m.huggingfaceName.Some?
    requires forall s :: b.local(m.huggingfaceName.value, s) == [x, y]
    requires Join(outputDir, PartialName(m.name)) !in w.files
    ensures var (w', ok) := ProcessSpec(w, b, texts, m, 2, outputDir);
      var tmp, final := Join(outputDir, PartialName(m.name)), Join(outputDir, FinalName(m.name));
      var hf := m.huggingfaceName.value;
      && ok
      && w'.calls == w.calls + [Local(hf, texts[0..2]), Local(hf, texts[2..4])]
      && w'.files[final] == Vectors([x, y, x, y])
      && w'.ops == w.ops + [Save(tmp), Save(tmp), Rename(tmp, final)]
  {
    var hf := m.huggingfaceName.value;
    assert EmbedBatch(b, m, texts[0..2]) == ([x, y], [Local(hf, texts[0..2])]);
    assert EmbedBatch(b, m, texts[2..4]) == ([x, y], [Local(hf, texts[2..4])]);
    TwoBatchRun(w, b, texts, m, outputDir);
    assert [x, y] + [x, y] == [x, y, x, y];
  }

  /** A remote run that finds no usable partial file asks for every text. */
  lemma ProcessRemoteFromScratch(w: World, b: Backends, texts: seq<string>, m: ModelConfig, batchSize: nat, outputDir: string)
    requires batchSize > 0 && m.kind == Ollama
    requires LoadPartial(w, Join(outputDir, PartialName(m.name)), |texts|) == []
    ensures var (w', ok) := ProcessSpec(w, b, texts, m, batchSize, outputDir);
      && ok
      && w'.calls == w.calls + RemoteCalls(m.name, texts)
      && w'.files[Join(outputDir, FinalName(m.name))] == Vectors(RemoteAll(b.remote, m.name, texts))
  {
    var done0 := LoadPartial(w, Join(outputDir, PartialName(m.name)), |texts|);
    var r := ProcessSpec(w, b, texts, m, batchSize, outputDir);
    ProcessRemote(w, b, texts, m, batchSize, outputDir);
    assert r.0.calls == w.calls + RemoteCalls(m.name, texts[|done0|..]);
    assert texts[|done0|..] == texts;
    assert r.0.calls == w.calls + RemoteCalls(m.name, texts);
    assert texts[..|done0|] == [];
    ResumeEqualsFreshRun(w, b, texts, m, batchSize, outputDir);
  }

  /** The resume test's fixture as written: `np.save(tmp_path, ...)` on the
      partial path puts the two vectors at `tmp_path + ".npy"`, so the run
      finds no partial file, asks the remote service for all four texts and
      still succeeds -- the resume branch is never taken. */
  lemma FixtureDoesNotResume(w: World, b: Backends, texts: seq<string>, m: ModelConfig, outputDir: string, v0: Vector, v1: Vector)
    requires |texts| == 4 && m.kind == Ollama
    requires Join(outputDir, PartialName(m.name)) !in w.files
    ensures var tmp := Join(outputDir, PartialName(m.name));
      var w1 := w.Saved(NpSavePath(tmp), Vectors([v0, v1]));
      var (w', ok) := ProcessSpec(w1, b, texts, m, 2, outputDir);
      && ok
      && w'.calls == w1.calls + RemoteCalls(m.name, texts)
      && w'.files[Join(outputDir, FinalName(m.name))] == Vectors(RemoteAll(b.remote, m.name, texts))
  {
    var tmp := Join(outputDir, PartialName(m.name));
    var w1 := w.Saved(NpSavePath(tmp), Vectors([v0, v1]));
    assert LoadPartial(w1, tmp, 4) == [] by {
      NpSaveMissesPartial(outputDir, m.name);
      assert |tmp + ".npy"| != |tmp|;
      assert tmp !in w1.files;
    }
    ProcessRemoteFromScratch(w1, b, texts, m, 2, outputDir);
  }
}
