# Similar-question finder: vectorisation driver, resumable batches, report list

This project models three pieces of the similar-question finder. Each piece
is written in Dafny and its properties are proved.

- **The vectorisation driver** (`02_vectorize/main.py`). It reads one text
  column with missing cells turned into `""`. It keeps the configured models
  that `--model` selects. It skips a model whose vector file
  `vectors_<name with '/' as '_'>.npy` already exists, unless `--force` is
  given. It embeds the texts with the model's provider: one request per text
  for Ollama, one `encode` of every text for Sentence-Transformers. Then it
  saves the vectors, and writes `metadata.json` only if that file does not
  exist yet.
- **`process_in_batches`**, the resumable batch run that
  `02_vectorize/test_vectorize.py` imports and exercises. Its source is not
  part of this model. The tests assert only that it returns true, that
  `np.save` was called and that `os.rename` was called. It is modelled as
  follows. Partial vectors live in `vectors_<stem>.npy.tmp`, where the stem
  is the model name with '/' replaced by `__` and then '.' replaced by `_`
  (the test's own rule). A run resumes from that file and embeds the
  remaining texts batch by batch, saving the partial file after every
  batch. Finally it renames the file to the final name.
- **`generate_question_list_html`** (`03_html_output/main.py`). It builds the
  report's question list: one `<li class="question-item">` snippet per row,
  with the fields pasted in verbatim.

The host is a value `World`. It holds a map from path to file contents, a
log of provider calls and a log of whole-file operations (save, rename). The
logs make statements like "no embedding call was made" or "the partial file
was saved, then renamed" expressible. The `Host` class holds the same three
fields, updated in place, plus the embedding providers (`backends`), which
never change. The driver, `save_results`, `vectorize_with_ollama` and
`process_in_batches` are module-level methods (`RunDriver`, `SaveResults`,
`VectorizeWithOllama`, `ProcessInBatches`) that take a `Host` and modify it.
Each is proved to produce exactly the state a pure function of the old state
describes (`Run`, `SaveSpec`, `RemoteAll`/`RemoteCalls`, `ProcessSpec`). The
properties are then lemmas about those functions. The two providers are
opaque total functions in `Backends`:

- the remote service maps (model, text) to one vector;
- a local model maps (model, texts) to the list its `encode` returns.

Vectors are opaque values.

Notable behaviours of `main`:

- **An error in one model ends the whole run.** `main` has no exception
  handling, so a `KeyError` for a missing `huggingface_name` or metadata
  column stops everything. This is `Outcome.Raised`.
- **`--force` deletes nothing.** It only bypasses the skip check, and the
  save overwrites the vector file.
- **The remote provider is not warmed up.** `vectorize_with_ollama` issues
  one request per text and nothing else.

Files:

- `paths.dfy`: `str.replace` of one character, POSIX `os.path.join`, and the
  suffix rule of `np.save`.
- `environment.dfy`: the host, its logs and the providers.
- `vectorize.dfy` and `vectorize_properties.dfy`: the driver.
- `checkpoint.dfy` and `checkpoint_properties.dfy`: the batch run.
- `report.dfy`: the list builder.

## Model

| member | source | states |
|---|---|---|
| Paths.Replace | 02_vectorize/main.py:56 | `s.replace(c, rep)`: no `c` is left when `rep` has none; a string without `c` is unchanged; a one-character `rep` keeps the length and substitutes position by position |
| Paths.ReplaceLength | 02_vectorize/test_vectorize.py:139 | every occurrence of `c` lengthens the result by `\|rep\| - 1`, so `'/'` → `"__"` grows the name by one character per slash |
| Paths.ReplaceKeepsOther | 02_vectorize/test_vectorize.py:139 | a character other than `c` that does not occur in `rep` occurs in the result exactly when it occurs in the input |
| Paths.Join | 02_vectorize/main.py:107 | `os.path.join(dir, name)` always ends with `name` |
| Paths.JoinInjective | 02_vectorize/main.py:107 | two relative names joined to one directory give the same path exactly when the names are equal |
| Paths.NpSavePath | 02_vectorize/main.py:57 | `np.save` writes to a path ending in ".npy": the path itself when it already ends so, and a different path otherwise |
| Environment.Host.Exists | 02_vectorize/main.py:112 | `os.path.exists(path)`: true exactly when the file map has the path; both the skip check (:112) and the metadata check (:62) use it |
| Environment.Host.NpSave | 02_vectorize/main.py:57 | the host after `np.save(path, vs)` stores `vs` at `NpSavePath(path)` and logs one save |
| Environment.Host.Write | 02_vectorize/main.py:64-65 | writing a whole file replaces whatever was at the path, leaves every other file alone and logs one save |
| Environment.Host.RenameFile | 02_vectorize/test_vectorize.py:82 | `os.rename(src, dst)` of an existing file: `dst` now holds what `src` held, `src` is gone, one rename is logged |
| Environment.Host.EmbedRemote | 02_vectorize/main.py:38 | one request to the remote service: its vector is returned and the request is logged, nothing else changes |
| Environment.Host.EncodeLocal | 02_vectorize/main.py:47 | one `encode` of a whole list: its result is returned and the call is logged, nothing else changes |
| Vectorize.FillNa | 02_vectorize/main.py:31 | `fillna('').tolist()`: one text per cell, in order; a missing cell is `""` and any other cell is its own text |
| Vectorize.GetTextsToEmbed | 02_vectorize/main.py:24-31 | no list exactly when the text column is absent; otherwise one text per row in row order, `""` for missing cells, other values unchanged |
| Vectorize.OutputName | 02_vectorize/main.py:106 | the name has no '/', is 12 characters longer than the model name, starts with "vectors_", ends with ".npy", and character i of the model name appears at offset 8 + i with '/' turned into '_' |
| Vectorize.OutputNameSame | 02_vectorize/main.py:106 | two models have the same file name exactly when their names agree after the '/' substitution |
| Vectorize.OutputNameCollides | 02_vectorize/main.py:106 | the rule is not injective: "a/b" and "a_b" get the same vector file |
| Vectorize.VectorPath | 02_vectorize/main.py:105-107 | the one path used by both the skip check and the save ends with the output name, and `np.save` writes to that path unchanged |
| Vectorize.MetadataPath | 02_vectorize/main.py:61 | `os.path.join(output_dir, "metadata.json")`: the path ends with "metadata.json" |
| Vectorize.VectorPathIsNotMetadata | 02_vectorize/main.py:56-61 | a vector file is never `metadata.json` |
| Vectorize.VectorPathSame | 02_vectorize/main.py:107 | two models share a vector path exactly when their names agree after the '/' substitution |
| Vectorize.Records | 02_vectorize/main.py:63 | `to_dict(orient='records')`: no records (a `KeyError`) exactly when a listed column is missing; an empty column list gives an empty record list; otherwise one record per row, each with exactly the listed columns and that row's cells |
| Vectorize.RecordsAlignWithTexts | 02_vectorize/main.py:63 | with at least one metadata column there are as many metadata records as texts to embed; with none there are no records |
| Vectorize.RemoteAll | 02_vectorize/main.py:36-40 | one vector per text, and vector i comes from text i |
| Vectorize.RemoteCalls | 02_vectorize/main.py:37-38 | one request per text, in text order |
| Vectorize.RemoteSnoc | 02_vectorize/main.py:37-39 | one more loop turn appends exactly one request and one vector at the end |
| Vectorize.VectorizeWithOllama | 02_vectorize/main.py:33-40 | the loop returns `RemoteAll` of the texts, and the only change to the host is the `RemoteCalls` requests appended to the call log |
| Vectorize.VectorizeWithSt | 02_vectorize/main.py:42-48 | one `encode` of the whole list; its result is returned and the call is logged |
| Vectorize.SaveSpec | 02_vectorize/main.py:50-66 | the vector file always holds the vectors, and its save comes first; an existing `metadata.json` is kept as it was; a missing one is written from the records, or is left missing when a column is absent (`KeyError`); no other file changes; no provider call |
| Vectorize.SaveResults | 02_vectorize/main.py:50-66 | `save_results` on the host produces exactly `SaveSpec`'s state and error |
| Vectorize.Selected | 02_vectorize/main.py:95 | the filter keeps exactly the configurations whose name equals the argument |
| Vectorize.SelectedAppend | 02_vectorize/main.py:95 | the filter keeps configuration order: it distributes over concatenation |
| Vectorize.FilterActive | 02_vectorize/main.py:94 | the truthiness of `args.model`: a filter applies only when `--model` is given and not empty, so `--model ""` runs every model |
| Vectorize.ModelsToRun | 02_vectorize/main.py:93-95 | without an active filter, every configured model in configuration order; with one, exactly the models of that name |
| Vectorize.Step | 02_vectorize/main.py:101-128 | one pass of the loop body: an existing vector file without `--force` leaves the host as it is; an Ollama model adds one request per text and saves `RemoteAll`; a Sentence-Transformers model raises `MissingHuggingFaceName` without `huggingface_name`, otherwise adds one `encode` call and saves its result; any other type changes nothing; a save may raise `MissingMetadataColumn` |
| Vectorize.StepSkipsExisting | 02_vectorize/main.py:112-115 | an existing vector file without `--force`: no call, the host is unchanged, go on to the next model |
| Vectorize.StepUnknownKind | 02_vectorize/main.py:123-125 | an unknown model type: no call, no save, go on |
| Vectorize.StepOllama | 02_vectorize/main.py:118-119 | an Ollama model that is not skipped makes one request per text, and its vector file then holds those vectors in text order |
| Vectorize.StepSentenceTransformers | 02_vectorize/main.py:120-122 | without `huggingface_name`, a `KeyError` is raised before any call; with it, one `encode` whose result is saved |
| Vectorize.StepFrame | 02_vectorize/main.py:101-128 | one model changes only its own vector file and a missing `metadata.json`, and only appends to the call log; when it completes with a known type, its vector file exists |
| Vectorize.RunModels | 02_vectorize/main.py:101-128 | the `for` loop: `Step` for each selected model in order, stopping at the first error, which becomes the outcome; the loop ends only with `Completed` or `Raised`, never with an early-return outcome |
| Vectorize.Run | 02_vectorize/main.py:84-130 | `main`: `InputMissing` without a table, `TextColumnMissing` without the text column, `ModelNotFound` when an active filter selects nothing, each with the host untouched; otherwise `RunModels` over `ModelsToRun` |
| Vectorize.RunModel | 02_vectorize/main.py:101-128 | one pass of the loop body on the host equals `Step` |
| Vectorize.RunModelLoop | 02_vectorize/main.py:101-128 | the loop on the host equals `RunModels`: models run in order, and the first error ends the run |
| Vectorize.RunDriver | 02_vectorize/main.py:84-130 | `main` on the host equals `Run`: the three early returns, then the model loop |
| VectorizeProperties.RunModelsFrame | 02_vectorize/main.py:101-128 | the loop touches only the listed models' vector files and a missing `metadata.json`, and only appends to the call log |
| VectorizeProperties.RunFrame | 02_vectorize/main.py:93-128 | a run of `main` touches only the vector files of the models it selects and a missing `metadata.json` |
| VectorizeProperties.RunModelsAllExisting | 02_vectorize/main.py:112-115 | when every model's vector file exists and `--force` is off, the loop completes with no call and no change |
| VectorizeProperties.RunModelsRerunIsNoOp | 02_vectorize/main.py:111-115 | after a completed loop without `--force`, the same loop again completes and changes nothing |
| VectorizeProperties.RunRerunIsNoOp | 02_vectorize/main.py:111-115 | the same for `main`: a second run without `--force` after a completed one is a no-op |
| VectorizeProperties.RunKeepsMetadata | 02_vectorize/main.py:61-62 | an existing `metadata.json` survives any run unchanged |
| VectorizeProperties.TargetsOfSelected | 02_vectorize/main.py:95 | every model the filter keeps writes the named model's vector file |
| VectorizeProperties.RunWithModelTouchesOnlyIt | 02_vectorize/main.py:94-95 | with `--model NAME`, the only vector file a run may create or replace is NAME's |
| VectorizeProperties.RunNoMatchingModel | 02_vectorize/main.py:94-98 | with `--model NAME` and no such configuration, `main` returns without any call or write |
| VectorizeProperties.RunEarlyReturns | 02_vectorize/main.py:84-98 | the run stops because the input is missing exactly when there is no table, and because the text column is missing exactly when the column is absent; every early return leaves the host unchanged |
| Checkpoint.CheckpointStem | 02_vectorize/test_vectorize.py:139 | the stem contains neither '/' nor '.' |
| Checkpoint.PartialName | 02_vectorize/test_vectorize.py:140 | the partial file name has no '/' and ends with ".tmp" |
| Checkpoint.FinalName | 02_vectorize/test_vectorize.py:140 | the final name is the partial name without its ".tmp" |
| Checkpoint.StemIsSlashRule | 02_vectorize/test_vectorize.py:139 | the checkpoint stem equals the driver's '/'→'_' rule exactly when the name has no '/' and no '.' |
| Checkpoint.FinalNameIsOutputName | 02_vectorize/test_vectorize.py:139-140 | the final checkpoint name equals the driver's vector file name exactly when the model name has no '/' and no '.' |
| Checkpoint.PartialIsNotFinal | 02_vectorize/test_vectorize.py:140 | the partial and final paths of a model differ |
| Checkpoint.NpSaveMissesPartial | 02_vectorize/test_vectorize.py:144 | `np.save` on the partial path writes `tmp_path + ".npy"`, not `tmp_path` |
| Checkpoint.LoadPartial | 02_vectorize/test_vectorize.py:143-144 | a run resumes from the saved vector array when it is no longer than the corpus, and from nothing when there is no such file |
| Checkpoint.BatchEnd | 02_vectorize/test_vectorize.py:15 | each batch is non-empty, has at most `batch_size` texts and stays within the corpus |
| Checkpoint.Runnable | 02_vectorize/test_vectorize.py:16-22 | the model can be embedded with: an Ollama model, or a Sentence-Transformers model with a `huggingface_name` |
| Checkpoint.EmbedBatch | 02_vectorize/test_vectorize.py:84-85 | one batch: for Ollama, one request per text and their vectors in order; for Sentence-Transformers, one `encode` of the whole batch and its result |
| Checkpoint.BatchLoop | 02_vectorize/test_vectorize.py:143-161 | the batch loop from text `i`: embed the next batch of at most `batch_size` texts, append its vectors, save the partial file, go on; a batch with the wrong number of vectors stops the loop with failure |
| Checkpoint.ProcessSpec | 02_vectorize/test_vectorize.py:87-99 | `process_in_batches` as modelled: false with no effect for a model that is not runnable; otherwise resume from `LoadPartial`, run `BatchLoop`, and on success save the partial file if it is not up to date, rename it to the final name and return true |
| Checkpoint.ProcessInBatches | 02_vectorize/test_vectorize.py:87-99 | the resumable run on the host equals `ProcessSpec` |
| CheckpointProperties.BatchLoopPrefix | 02_vectorize/test_vectorize.py:138-161 | the loop only extends the resumed vectors, never past the corpus, and reaches the full corpus when it succeeds; after any batch the partial file holds exactly the vectors so far; only the partial file changes, and every new file operation is a save of it |
| CheckpointProperties.BatchLoopRemote | 02_vectorize/test_vectorize.py:146-161 | with the remote service the loop succeeds, asks for each remaining text once and in order, and appends their vectors in text order, whatever the batch size |
| CheckpointProperties.BatchLoopLocalExact | 02_vectorize/test_vectorize.py:111-124 | a local model whose `encode` returns one vector per text makes the loop succeed |
| CheckpointProperties.ProcessOutcome | 02_vectorize/test_vectorize.py:94-99 | on success: one vector per text, starting with the resumed ones; the partial file is gone; the last operation is the rename, preceded only by saves of the partial file, with at least one save when there was work; no other file changes. On failure: no rename, and the final file is untouched |
| CheckpointProperties.FinishOutcome | 02_vectorize/test_vectorize.py:96-99 | finishing saves the partial file only if it is not up to date, then renames it: the final file holds all the vectors and the partial file is gone |
| CheckpointProperties.ProcessRemote | 02_vectorize/test_vectorize.py:146-161 | a remote run succeeds, asks only for the texts after the resumed prefix, and its final file is the prefix followed by their vectors |
| CheckpointProperties.ResumeEqualsFreshRun | 02_vectorize/test_vectorize.py:138-161 | with the remote service, resuming from a correct prefix gives the same final file as a run that embeds every text |
| CheckpointProperties.ProcessRemoteFromScratch | 02_vectorize/test_vectorize.py:71-99 | a remote run without a usable partial file asks for every text and saves all their vectors |
| CheckpointProperties.ProcessLocalExact | 02_vectorize/test_vectorize.py:114-124 | a local model whose `encode` returns as many vectors as texts makes the run succeed |
| CheckpointProperties.ResumeScenario | 02_vectorize/test_vectorize.py:143-166 | resume test, partial file at `tmp_path`: success; only texts 2 and 3 are requested; the final file is the two saved vectors followed by theirs; one save, then the rename |
| CheckpointProperties.TwoBatchRun | 02_vectorize/test_vectorize.py:87-99 | four texts in batches of two, from scratch, both batches answered in full: both batches' calls, two saves of the partial file, the rename, and the final file holds both batches |
| CheckpointProperties.FreshRemoteScenario | 02_vectorize/test_vectorize.py:71-99 | Ollama test: the run succeeds and saves, then renames, which is all the test asserts. In the model there are exactly two saves of the partial file, one request per text, and a final file that holds every text's vector |
| CheckpointProperties.LocalScenario | 02_vectorize/test_vectorize.py:102-128 | Sentence-Transformers test, with `encode` returning two vectors: the run succeeds and saves, then renames, which is all the test asserts. In the model there are exactly two `encode` calls, two saves, then the rename, and the final file holds both batches in order |
| CheckpointProperties.FixtureDoesNotResume | 02_vectorize/test_vectorize.py:144 | the resume fixture as written puts the vectors at `tmp_path + ".npy"`, so the run asks for all four texts: the resume branch is never taken |
| Report.Item | 03_html_output/main.py:34-40 | the f-string snippet of one row: the `question-item` list element holding the `question-id` div, the anchor and the `source` div, with the template's exact whitespace |
| Report.ListHtml | 03_html_output/main.py:30-41 | the list is empty exactly when there are no rows |
| Report.GenerateQuestionListHtml | 03_html_output/main.py:30-41 | the `+=` loop returns the rows' snippets concatenated in row order |
| Report.ListHtmlAppend | 03_html_output/main.py:33-40 | the list of two tables one after the other is the two lists one after the other |
| Report.ItemAt | 03_html_output/main.py:33-40 | the list is the snippets of rows before i, then row i's snippet, then the snippets of the rows after it |
| Report.ItemInList | 03_html_output/main.py:33-40 | row i's snippet appears verbatim, starting right after the snippets of rows `[0, i)` |
| Report.ItemShowsFields | 03_html_output/main.py:35-38 | inside a row's snippet, at fixed offsets: the `question-id` div with `問題番号`, the anchor with `href` = `リンク` and text `問題名`, and the `source` div with `出典`, all verbatim |

## Left out

- Configuration loading, CSV reading, JSON dumping and argparse are library I/O. The model receives the parsed configuration, arguments and table. A missing input file is `df = None`.
- `os.makedirs` is left out. Directories are not modelled; a path is a key of the file map.
- `print` logging and `tqdm` progress bars are output only and are left out.
- The response shape of `ollama.embed` and `SentenceTransformer(...)` loading are foreign calls. They are opaque provider functions, and vectors are opaque values.
- `np.array(vectors)` is the identity on the list of vectors.
- The source of `process_in_batches` is not part of this model. The tests assert only that the result is true, that `np.save` was called and that `os.rename` was called; everything beyond that in `ProcessSpec` is a modelling choice. The tests never name the renamed file, so the final name is taken to be the partial name without ".tmp".
- Checkpoint.ProcessSpec: saving the partial file after every batch is assumed. The tests check only that `np.save` was called, not how often, so the exact save counts in `FreshRemoteScenario` and `LocalScenario` hold of the model, not of anything the tests check.
- Checkpoint.ProcessSpec: one remote request per text is assumed, by analogy with `vectorize_with_ollama`. The tests mock `ollama.Client`, not the `ollama.embed` that `main.py` uses, and they do not count requests.
- Checkpoint.Runnable: an unknown model type, and a Sentence-Transformers model without `huggingface_name`, make `ProcessSpec` return false with no call and no file change. Neither the tests nor `main.py` pin this down. For the second case, `main`'s loop raises `KeyError` instead (`MissingHuggingFaceName`), and the model does not claim that `process_in_batches` behaves the same way.
- The tests mock `np.save` and `os.rename`. The model lets them act on the file map. Inside `ProcessInBatches`, the partial file is written at its own path.
- A local batch that comes back with the wrong number of vectors fails the run in the model.
- Corruption recovery, retries, timeouts, provider warm-up and concurrent writers are left out. Neither `main.py` nor the tests implement or exercise them.
- `save_metadata` is imported by the tests but never exercised; it is not part of this model.
- The report models cells as already formatted. Python's `str()` of a cell, and the `KeyError` for a missing column there, are left out.
- The report's HTML shell, its CSS/JS template and `main` of `03_html_output/main.py` are static markup around the list builder.
- The following are left out: the clipboard harness and the clipboard-on-error test, the live-server smoke tests, and the interactive chat test.
- Report.ListHtml: "exactly as many items as rows" is stated as one snippet per row at a known position (`ItemAt`, `ItemInList`). The number of `<li` tags in the string is not counted.
- The output-name collision of `OutputNameCollides` is a property of the rule as written, not a defect. Two configured names like "a/b" and "a_b" share one vector file.

## Findings

| source | as written | input that shows it | evidently intended | confidence | as-written member | corrected member |
|---|---|---|---|---|---|---|
| 02_vectorize/test_vectorize.py:144 | `np.save(tmp_path, ...)` with `tmp_path` ending in ".npy.tmp" writes the file `tmp_path + ".npy"`, so `process_in_batches` finds no partial file and embeds all four texts; the test passes without exercising resume | four texts, batch size 2, fixture saved via `np.save(tmp_path, [v0, v1])` | the two vectors stored at `tmp_path` itself (for example through an open file handle), so that only texts 2 and 3 are embedded | low; not executed | CheckpointProperties.FixtureDoesNotResume | CheckpointProperties.ResumeScenario |
