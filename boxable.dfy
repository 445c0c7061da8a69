/** Wrappers that let a file or directory of any backend be stored behind one type
    (`BoxableFile`, `BoxableDir`). Each operation of a wrapper keeps the contract of the
    wrapped handle. The `Box<F>` / `Box<D>` impls only forward through the box, so boxing a
    handle is the identity here and has no member of its own. */
module Boxable {
  import opened Io
  import opened StorageApi
  import opened Paths
  import opened Streams
  import opened Capabilities

  /** A file behind a uniform type; its readers and writers are the source's ones, boxed. */
  datatype BoxableFile = BoxableFile(source: AnyFile) {

    /** `From<F>`: wraps `source`, which keeps naming the same file of the same store. */
    static function From(source: AnyFile): (f: BoxableFile)
      ensures f.Store() == source.Store() && f.Path() == source.Path() && f.Access() == source.Access()
    {
      BoxableFile(source)
    }

    function Store(): Store
    {
      source.Store()
    }

    function Path(): string
    {
      source.Path()
    }

    function Access(): Access
    {
      source.Access()
    }

    ghost function ReadOutcome(): Result<Bytes, ErrorKind>
      reads Store().Repr()
    {
      source.ReadOutcome()
    }

    function Exists(): (r: IoResult<bool>)
      reads Store().Repr()
      ensures r.Ok? <==> Store().Accessible()
      ensures r.Ok? ==> (r.value <==> Store().Observe(Path()).Some?)
      ensures r.Err? ==> r.error.kind == Other
    {
      source.Exists()
    }

    method ReadText() returns (r: IoResult<AnyReader>)
      ensures r.Ok? <==> ReadOutcome().Ok?
      ensures r.Ok? ==> fresh(r.value.Cursor()) && r.value.Cursor().Valid()
                        && r.value.Cursor().Remaining() == ReadOutcome().value
      ensures r.Err? ==> r.error.kind == ReadOutcome().error
    {
      r := source.ReadText();
    }

    method ReadBinary() returns (r: IoResult<AnyReader>)
      requires source.MemoryFileHandle?
      ensures r.Ok? <==> ReadOutcome().Ok?
      ensures r.Ok? ==> fresh(r.value.Cursor()) && r.value.Cursor().Valid()
                        && r.value.Cursor().Remaining() == ReadOutcome().value
      ensures r.Err? ==> r.error.kind == ReadOutcome().error
    {
      r := source.ReadBinary();
    }

    method Remove() returns (r: IoResult<()>)
      requires Access() == ReadWrite && Store().Valid()
      modifies Store().Frame()
      ensures Store().Valid() && Store().Accessible() == old(Store().Accessible())
      ensures r.Ok? <==> Store().Accessible()
      ensures r.Ok? ==> Store().Observe(Path()) == None
      ensures r.Err? ==> Store().Observe(Path()) == old(Store().Observe(Path())) && r.error.kind == Other
      ensures forall q :: q != Path() ==> Store().Observe(q) == old(Store().Observe(q))
      ensures Store().Frame() == old(Store().Frame())
    {
      r := source.Remove();
    }

    method WriteText() returns (r: IoResult<AnyWriter>)
      requires Access() == ReadWrite && Store().Valid()
      modifies Store().Frame()
      ensures Store().Valid() && r.Ok? && fresh(r.value.Object())
      ensures fresh(Store().Frame() - old(Store().Frame()))
      ensures r.value.Aims(Store(), Path()) && r.value.Buffer() == []
      ensures Store().Accessible() == old(Store().Accessible())
      ensures Store().Observe(Path()) ==
        if source.MemoryFileHandle? && old(Store().Observe(Path())).None? then Some([])
        else old(Store().Observe(Path()))
      ensures forall q :: q != Path() ==> Store().Observe(q) == old(Store().Observe(q))
    {
      r := source.WriteText();
    }

    method WriteBinary() returns (r: IoResult<AnyWriter>)
      requires source.MemoryFileHandle? && Access() == ReadWrite && Store().Valid()
      modifies Store().Frame()
      ensures Store().Valid() && r.Ok? && fresh(r.value.Object())
      ensures fresh(Store().Frame() - old(Store().Frame()))
      ensures r.value.Aims(Store(), Path()) && r.value.Buffer() == []
      ensures Store().Observe(Path()) ==
        if old(Store().Observe(Path())).None? then Some([]) else old(Store().Observe(Path()))
      ensures forall q :: q != Path() ==> Store().Observe(q) == old(Store().Observe(q))
    {
      r := source.WriteBinary();
    }
  }

  /** A directory behind a uniform type; the files it hands out are boxable files. */
  datatype BoxableDir = BoxableDir(source: AnyDir) {

    /** `From<D>`: wraps `source`, which keeps naming the same directory of the same store. */
    static function From(source: AnyDir): (d: BoxableDir)
      ensures d.source.Store() == source.Store() && d.source.Path() == source.Path()
      ensures d.source.Access() == source.Access()
    {
      BoxableDir(source)
    }

    /** `file`: the boxed form of the source's file `name`. */
    function File(name: string): (f: BoxableFile)
      ensures f.Store() == source.Store() && f.Access() == source.Access()
      ensures f.Path() == FilePath(source.Path(), name)
    {
      BoxableFile.From(source.File(name))
    }

    /** `writable_file`: the boxed form of the source's writable file `name`. */
    function WritableFile(name: string): (f: BoxableFile)
      requires source.Access() == ReadWrite
      ensures f.Store() == source.Store() && f.Access() == ReadWrite
      ensures f.Path() == FilePath(source.Path(), name)
    {
      BoxableFile.From(source.WritableFile(name))
    }
  }

  /** The `boxability` test: the four ways of obtaining a boxed `test` file in the data
      root all name the file `data/test` of the storage, the writable ones writably. */
  function Boxability(storage: AnyStorage): (files: (BoxableFile, BoxableFile, BoxableFile, BoxableFile))
    ensures files.0.Path() == files.1.Path() == files.2.Path() == files.3.Path() == "data/test"
    ensures files.0.Store() == files.1.Store() == files.2.Store() == files.3.Store() == storage.Store()
    ensures files.0.Access() == files.2.Access() == ReadOnly
    ensures files.1.Access() == files.3.Access() == ReadWrite
  {
    var d0 := BoxableDir.From(storage.Outer(Data, ReadOnly).value);
    var d1 := BoxableDir.From(storage.Outer(Data, ReadWrite).value);
    var f0 := BoxableFile.From(storage.Outer(Data, ReadOnly).value.File("test"));
    var f1 := BoxableFile.From(storage.Outer(Data, ReadWrite).value.WritableFile("test"));
    (f0, f1, d0.File("test"), d1.WritableFile("test"))
  }
}
