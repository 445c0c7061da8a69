/** The storage traits of the repository (`Storage`, `Dir`, `WritableDir`, `ParentDir`,
    `WritableParentDir`, `File`, `WritableFile`), stated once for both in-repo backends.
    Each type here is the sum of the two backends' implementations of one trait, and each
    operation's contract says, in backend-independent terms, what the trait promises:
    what a file's key holds afterwards (`Store.Observe`) and what the stream yields. */
module Capabilities {
  import opened Io
  import opened StorageApi
  import opened Paths
  import opened Streams
  import Utf8
  import MF = MemoryFileSys
  import MS = MemoryStreams
  import M = MemoryStorage
  import WS = WebSys
  import WT = WebTextValues
  import W = WebStorage

  /** The state every handle of one storage shares: the memory filesystem or the browser store. */
  datatype Store = MemoryStore(fs: MF.FileSystem) | WebStore(area: WS.WebStorageArea) {

    /** The objects the store's observable state depends on. */
    ghost function Repr(): set<object>
      reads if MemoryStore? then {fs} else {}
    {
      if MemoryStore? then {fs} + fs.contents.Values + fs.cells else {area}
    }

    /** The objects operations on the store may change: the filesystem and every cell it
        has created, or the browser store. */
    ghost function Frame(): set<object>
      reads if MemoryStore? then {fs} else {}
    {
      if MemoryStore? then {fs} + fs.cells else {area}
    }

    ghost predicate Valid()
      reads Repr()
    {
      MemoryStore? ==> fs.Valid()
    }

    /** Whether calls into the store succeed: always for memory, when the browser does not
        throw for the web. */
    ghost predicate Accessible()
      reads Repr()
    {
      WebStore? ==> !area.denied
    }

    /** The bytes a reader of `path` would see, or None when the path holds nothing. */
    ghost function Observe(path: string): Option<Bytes>
      reads Repr()
    {
      if MemoryStore? then fs.Observe(path) else area.Observe(path)
    }
  }

  /** A `Storage` of either backend. */
  datatype AnyStorage = MemoryBacked(memory: M.MemoryStorage) | WebBacked(web: W.Storage) {

    function Store(): Store
    {
      if MemoryBacked? then MemoryStore(memory.fs) else WebStore(web.webStorage)
    }

    /** `data`, `config`, `cache` and their `writable_` forms: the root directory at the
        given access, which never fails in either backend. */
    function Outer(root: Root, access: Access): (r: Result<AnyDir, OuterDirectoryError>)
      ensures r.Ok? && r.value.Store() == Store() && r.value.Access() == access
      ensures r.value.Path() == RootPath(root)
    {
      if MemoryBacked? then Ok(MemoryDir(memory.Outer(root, access).value))
      else Ok(WebDir(web.Outer(root, access).value))
    }
  }

  /** A directory handle (`Dir` + `ParentDir`, and `WritableDir` + `WritableParentDir` when
      its access is ReadWrite) of either backend. */
  datatype AnyDir = MemoryDir(md: M.DirHandle) | WebDir(wd: W.DirHandle) {

    function Store(): Store
    {
      if MemoryDir? then MemoryStore(md.fs) else WebStore(wd.webStorage)
    }

    function Path(): string
    {
      if MemoryDir? then md.path else wd.path
    }

    function Access(): Access
    {
      if MemoryDir? then md.access else wd.access
    }

    /** `file`: the file `name` here, same store, same access, path `dir + name`. */
    function File(name: string): (f: AnyFile)
      ensures f.Store() == Store() && f.Access() == Access() && f.Path() == FilePath(Path(), name)
    {
      if MemoryDir? then MemoryFileHandle(md.File(name)) else WebFileHandle(wd.File(name))
    }

    /** `writable_file`: the same handle as `file`. */
    function WritableFile(name: string): (f: AnyFile)
      requires Access() == ReadWrite
      ensures f == File(name) && f.Access() == ReadWrite
    {
      if MemoryDir? then MemoryFileHandle(md.WritableFile(name)) else WebFileHandle(wd.WritableFile(name))
    }

    /** `subdir`: the directory `name` below, same store, same access, path `dir + name + "/"`. */
    function Subdir(name: string): (d: AnyDir)
      ensures d.Store() == Store() && d.Access() == Access() && d.Path() == DirPath(Path(), name)
    {
      if MemoryDir? then MemoryDir(md.Subdir(name)) else WebDir(wd.Subdir(name))
    }

    /** `writable_subdir`: the same handle as `subdir`. */
    function WritableSubdir(name: string): (d: AnyDir)
      requires Access() == ReadWrite
      ensures d == Subdir(name) && d.Access() == ReadWrite
    {
      if MemoryDir? then MemoryDir(md.WritableSubdir(name)) else WebDir(wd.WritableSubdir(name))
    }

    /** `into_leaf`: the handle itself. */
    function IntoLeaf(): (d: AnyDir)
      ensures d == this
    {
      if MemoryDir? then MemoryDir(md.IntoLeaf()) else WebDir(wd.IntoLeaf())
    }

    /** `into_writable_leaf`: the handle itself, still writable. */
    function IntoWritableLeaf(): (d: AnyDir)
      requires Access() == ReadWrite
      ensures d == this && d.Access() == ReadWrite
    {
      if MemoryDir? then MemoryDir(md.IntoWritableLeaf()) else WebDir(wd.IntoWritableLeaf())
    }
  }

  /** A text or binary reader of either backend. */
  datatype AnyReader = MemoryReader(mr: MS.StorageReader) | WebTextReader(wr: WT.TextStorageReader) {
    function Cursor(): Cursor
    {
      if MemoryReader? then mr.cursor else wr.cursor
    }
  }

  /** A file handle (`File`, and `WritableFile` when its access is ReadWrite) of either backend. */
  datatype AnyFile = MemoryFileHandle(mf: M.FileHandle) | WebFileHandle(wf: W.FileHandle) {

    function Store(): Store
    {
      if MemoryFileHandle? then MemoryStore(mf.fs) else WebStore(wf.webStorage)
    }

    function Path(): string
    {
      if MemoryFileHandle? then mf.path else wf.path
    }

    function Access(): Access
    {
      if MemoryFileHandle? then mf.access else wf.access
    }

    /** What opening a reader yields: the bytes at the path, or the error kind. The memory
        backend reports an absent file as NotFound, the web backend as Other, and a store
        that throws as Other. */
    ghost function ReadOutcome(): Result<Bytes, ErrorKind>
      reads Store().Repr()
    {
      if !Store().Accessible() then Err(Other)
      else match Store().Observe(Path())
        case Some(bytes) => Ok(bytes)
        case None => Err(if MemoryFileHandle? then NotFound else Other)
    }

    /** `exists`: whether the path holds something; fails (Other) only when the store throws. */
    function Exists(): (r: IoResult<bool>)
      reads Store().Repr()
      ensures r.Ok? <==> Store().Accessible()
      ensures r.Ok? ==> (r.value <==> Store().Observe(Path()).Some?)
      ensures r.Err? ==> r.error.kind == Other
    {
      if MemoryFileHandle? then mf.Exists() else wf.Exists()
    }

    /** `read_text`: a reader over a snapshot of the path's bytes, or the error of ReadOutcome. */
    method ReadText() returns (r: IoResult<AnyReader>)
      ensures r.Ok? <==> ReadOutcome().Ok?
      ensures r.Ok? ==> fresh(r.value.Cursor()) && r.value.Cursor().Valid()
                        && r.value.Cursor().Remaining() == ReadOutcome().value
      ensures r.Err? ==> r.error.kind == ReadOutcome().error
    {
      if MemoryFileHandle? {
        var got := mf.ReadText();
        r := if got.Ok? then Ok(MemoryReader(got.value)) else Err(got.error);
      } else {
        var got := wf.ReadText();
        r := if got.Ok? then Ok(WebTextReader(got.value)) else Err(got.error);
      }
    }

    /** `read_binary` of the memory backend: the same reader as `read_text`. */
    method ReadBinary() returns (r: IoResult<AnyReader>)
      requires MemoryFileHandle?
      ensures r.Ok? <==> ReadOutcome().Ok?
      ensures r.Ok? ==> fresh(r.value.Cursor()) && r.value.Cursor().Valid()
                        && r.value.Cursor().Remaining() == ReadOutcome().value
      ensures r.Err? ==> r.error.kind == ReadOutcome().error
    {
      var got := mf.ReadBinary();
      r := if got.Ok? then Ok(MemoryReader(got.value)) else Err(got.error);
    }

    /** `remove`: afterwards the path holds nothing and no other path changed; it fails only
        when the store throws, with kind Other, and then nothing changes. Removing an absent
        file succeeds. The memory backend drops the path's entry from its map. */
    method Remove() returns (r: IoResult<()>)
      requires Access() == ReadWrite && Store().Valid()
      modifies Store().Frame()
      ensures Store().Valid() && Store().Accessible() == old(Store().Accessible())
      ensures r.Ok? <==> Store().Accessible()
      ensures r.Ok? ==> Store().Observe(Path()) == None
      ensures r.Err? ==> Store().Observe(Path()) == old(Store().Observe(Path())) && r.error.kind == Other
      ensures forall q :: q != Path() ==> Store().Observe(q) == old(Store().Observe(q))
      ensures MemoryFileHandle? ==> mf.fs.contents == old(mf.fs.contents) - {Path()}
      ensures Store().Frame() == old(Store().Frame())
    {
      if MemoryFileHandle? {
        r := mf.Remove();
      } else {
        r := wf.Remove();
      }
    }

    /** `write_text`: a fresh, empty writer aimed at this path. The memory backend creates an
        empty entry for an absent path at once; the web backend stores nothing yet. */
    method WriteText() returns (r: IoResult<AnyWriter>)
      requires Access() == ReadWrite && Store().Valid()
      modifies Store().Frame()
      ensures Store().Valid() && r.Ok? && fresh(r.value.Object())
      ensures fresh(Store().Frame() - old(Store().Frame()))
      ensures r.value.Aims(Store(), Path()) && r.value.Buffer() == []
      ensures Store().Accessible() == old(Store().Accessible())
      ensures Store().Observe(Path()) ==
        if MemoryFileHandle? && old(Store().Observe(Path())).None? then Some([])
        else old(Store().Observe(Path()))
      ensures forall q :: q != Path() ==> Store().Observe(q) == old(Store().Observe(q))
    {
      if MemoryFileHandle? {
        var got := mf.WriteText();
        r := Ok(MemoryWriter(got.value));
      } else {
        var got := wf.WriteText();
        r := Ok(WebTextWriter(got.value));
      }
    }

    /** `write_binary` of the memory backend: the same writer as `write_text`. */
    method WriteBinary() returns (r: IoResult<AnyWriter>)
      requires MemoryFileHandle? && Access() == ReadWrite && Store().Valid()
      modifies Store().Frame()
      ensures Store().Valid() && r.Ok? && fresh(r.value.Object())
      ensures fresh(Store().Frame() - old(Store().Frame()))
      ensures r.value.Aims(Store(), Path()) && r.value.Buffer() == []
      ensures Store().Observe(Path()) ==
        if old(Store().Observe(Path())).None? then Some([]) else old(Store().Observe(Path()))
      ensures forall q :: q != Path() ==> Store().Observe(q) == old(Store().Observe(q))
    {
      var got := mf.WriteBinary();
      r := Ok(MemoryWriter(got.value));
    }
  }

  /** A text or binary writer of either backend. */
  datatype AnyWriter = MemoryWriter(mw: MS.StorageWriter) | WebTextWriter(ww: WT.TextStorageWriter) {

    function Object(): object
    {
      if MemoryWriter? then mw else ww
    }

    /** The bytes written but not yet known to be stored. */
    function Buffer(): Bytes
      reads Object()
    {
      if MemoryWriter? then mw.buf else ww.buf
    }

    /** The writer's target is `path` in `store`: the path's own cell in the memory
        backend, the key itself in the web backend. */
    ghost predicate Aims(store: Store, path: string)
      reads store.Repr()
    {
      if MemoryWriter? then
        store.MemoryStore? && store.fs.Valid() && path in store.fs.contents && store.fs.contents[path] == mw.stored
      else
        store.WebStore? && ww.webStorage == store.area && ww.key == path
    }

    /** A memory writer whose path's entry was removed after it opened: its cell is no
        longer in the filesystem, so flushing it changes no path. */
    ghost predicate Detached(store: Store)
      reads store.Repr()
    {
      MemoryWriter? && store.MemoryStore? && store.fs.Valid() && mw.stored !in store.fs.contents.Values
    }

    /** `write`: appends all of `b` to the buffer and reports its length; nothing is stored. */
    method Write(b: Bytes) returns (r: IoResult<nat>)
      modifies Object()
      ensures Buffer() == old(Buffer()) + b && r == Ok(|b|)
    {
      if MemoryWriter? {
        r := mw.Write(b);
      } else {
        r := ww.Write(b);
      }
    }

    /** Whether a flush of the current buffer succeeds: always for the memory backend; for
        the web backend when the bytes are UTF-8 and the store does not throw. */
    ghost predicate FlushSucceeds(store: Store)
      reads Object(), store.Repr()
    {
      MemoryWriter? || (Utf8.IsValid(ww.buf) && store.Accessible())
    }

    /** `flush`: on success the path holds exactly the buffered bytes; on failure it is
        unchanged. No other path changes. The memory writer then empties its buffer, the
        web writer keeps it. A detached memory writer still flushes with success, into its
        own cell only: no path changes, so a removed path stays absent. */
    method Flush(ghost store: Store, ghost path: string) returns (r: IoResult<()>)
      requires Aims(store, path) || Detached(store)
      modifies Object(), if MemoryWriter? then {mw.stored} else {ww.webStorage}
      ensures Aims(store, path) == old(Aims(store, path)) && Detached(store) == old(Detached(store))
      ensures store.Accessible() == old(store.Accessible())
      ensures r.Ok? <==> old(FlushSucceeds(store))
      ensures r.Ok? && old(Aims(store, path)) ==> store.Observe(path) == Some(old(Buffer()))
      ensures r.Err? ==> store.Observe(path) == old(store.Observe(path)) && r.error.kind == Other
      ensures forall q :: q != path ==> store.Observe(q) == old(store.Observe(q))
      ensures old(Detached(store)) ==> forall q :: store.Observe(q) == old(store.Observe(q))
      ensures Buffer() == if MemoryWriter? then [] else old(Buffer())
    {
      if MemoryWriter? {
        ghost var detached := Detached(store);
        r := mw.Flush();
        if detached {
          forall q | q in store.fs.contents ensures store.fs.contents[q] != mw.stored {
            assert store.fs.contents[q] in store.fs.contents.Values;
          }
        }
      } else {
        ghost var buf := ww.buf;
        r := ww.Flush();
        if r.Ok? {
          Utf8.EncodeDecode(buf);
        }
      }
    }

    /** `drop`: a flush whose result is lost. */
    method Drop(ghost store: Store, ghost path: string)
      requires Aims(store, path) || Detached(store)
      modifies Object(), if MemoryWriter? then {mw.stored} else {ww.webStorage}
      ensures Aims(store, path) == old(Aims(store, path)) && Detached(store) == old(Detached(store))
      ensures store.Accessible() == old(store.Accessible())
      ensures old(FlushSucceeds(store)) && old(Aims(store, path)) ==> store.Observe(path) == Some(old(Buffer()))
      ensures !old(FlushSucceeds(store)) ==> store.Observe(path) == old(store.Observe(path))
      ensures forall q :: q != path ==> store.Observe(q) == old(store.Observe(q))
      ensures old(Detached(store)) ==> forall q :: store.Observe(q) == old(store.Observe(q))
    {
      var _ := Flush(store, path);
    }
  }
}
