/** What the vectorisation driver runs against: a directory tree seen as a
    finite map from path to file contents, and two embedding providers seen as
    opaque total functions. Every provider call and every whole-file write or
    rename is logged, so that "no embedding call was made" or "the file was
    saved and then renamed" can be stated about a run. */
module Environment {

  import opened Paths

  datatype Option<T> = None | Some(value: T)

  /** An embedding. Only its identity matters to the driver. */
  type Vector(==)

  /** One cell of the input table; `Missing` is pandas' NaN/None. */
  datatype Cell = Missing | Value(text: string)

  /** One metadata record: column name to cell. */
  type Record = map<string, Cell>

  /** What a file holds: a saved vector array, or the metadata record list. */
  datatype FileContent = Vectors(vs: seq<Vector>) | Metadata(records: seq<Record>)

  /** One call into a provider: a remote request for a single text, or one
      `encode` of a whole list by a locally loaded model. */
  datatype Call = Remote(model: string, text: string) | Local(model: string, batch: seq<string>)

  /** One whole-file operation: a write of a complete file, or `os.rename`. */
  datatype FsOp = Save(path: string) | Rename(src: string, dst: string)

  /** The two providers: the remote service maps (model, text) to one vector;
      a local model maps (model, texts) to the list its `encode` returns. */
  datatype Backends = Backends(remote: (string, string) -> Vector, local: (string, seq<string>) -> seq<Vector>)

  /** A snapshot of the host: files, and the logs of provider calls and file
      operations so far. */
  datatype World = World(files: map<string, FileContent>, calls: seq<Call>, ops: seq<FsOp>) {

    /** The host after writing `content` to `path`, replacing any old file. */
    function Saved(path: string, content: FileContent): (w: World)
      ensures w.files.Keys == files.Keys + {path} && w.files[path] == content
      ensures forall p :: p in files && p != path ==> w.files[p] == files[p]
      ensures w.calls == calls && w.ops == ops + [Save(path)]
    {
      this.(files := files[path := content], ops := ops + [Save(path)])
    }

    /** The host after `os.rename(src, dst)`: the file moves, replacing `dst`. */
    function Renamed(src: string, dst: string): (w: World)
      requires src in files
      ensures src != dst ==> w.files.Keys == files.Keys - {src} + {dst}
      ensures dst in w.files && w.files[dst] == files[src]
      ensures forall p :: p in files && p != src && p != dst ==> p in w.files && w.files[p] == files[p]
      ensures w.calls == calls && w.ops == ops + [Rename(src, dst)]
    {
      this.(files := (files - {src})[dst := files[src]], ops := ops + [Rename(src, dst)])
    }

    /** The host after the provider calls `cs`. */
    function Called(cs: seq<Call>): (w: World)
      ensures w.files == files && w.ops == ops && w.calls == calls + cs
    {
      this.(calls := calls + cs)
    }
  }

  /** The host the driver runs on. */
  class Host {
    var files: map<string, FileContent>
    var calls: seq<Call>
    var ops: seq<FsOp>
    const backends: Backends

    constructor (files0: map<string, FileContent>, backends: Backends)
      ensures State() == World(files0, [], []) && this.backends == backends
    {
      files, calls, ops := files0, [], [];
      this.backends := backends;
    }

    function State(): World
      reads this
    {
      World(files, calls, ops)
    }

    /** `os.path.exists(path)`. */
    predicate Exists(path: string)
      reads this
    {
      path in files
    }

    /** Writes a complete file (`open(path, 'w')` followed by a dump). */
    method Write(path: string, content: FileContent)
      modifies this
      ensures State() == old(State()).Saved(path, content)
    {
      files := files[path := content];
      ops := ops + [Save(path)];
    }

    /** `np.save(path, vs)`: the file lands at `NpSavePath(path)`. */
    method NpSave(path: string, vs: seq<Vector>)
      modifies this
      ensures State() == old(State()).Saved(NpSavePath(path), Vectors(vs))
    {
      Write(NpSavePath(path), Vectors(vs));
    }

    /** `os.rename(src, dst)`; the source file must exist. */
    method RenameFile(src: string, dst: string)
      requires src in files
      modifies this
      ensures State() == old(State()).Renamed(src, dst)
    {
      files := (files - {src})[dst := files[src]];
      ops := ops + [Rename(src, dst)];
    }

    /** One request to the remote embedding service. */
    method EmbedRemote(model: string, text: string) returns (v: Vector)
      modifies this
      ensures v == backends.remote(model, text)
      ensures State() == old(State()).Called([Remote(model, text)])
    {
      v := backends.remote(model, text);
      calls := calls + [Remote(model, text)];
    }

    /** One `encode` call of a locally loaded model on a list of texts. */
    method EncodeLocal(model: string, texts: seq<string>) returns (vs: seq<Vector>)
      modifies this
      ensures vs == backends.local(model, texts)
      ensures State() == old(State()).Called([Local(model, texts)])
    {
      vs := backends.local(model, texts);
      calls := calls + [Local(model, texts)];
    }
  }
}
