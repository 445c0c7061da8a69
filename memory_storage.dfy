/** The memory backend's handles and storage. Every handle derived from one
    `MemoryStorage` holds the same `FileSystem` reference and a path built by the key
    scheme of module Paths. */
module MemoryStorage {
  import opened Io
  import opened StorageApi
  import opened Paths
  import opened MemoryFileSys
  import opened MemoryStreams

  /** `File<R>`: a file path in the shared filesystem. */
  datatype FileHandle = FileHandle(access: Access, fs: FileSystem, path: string) {

    /** `exists`: whether the filesystem has an entry for the path. */
    function Exists(): (r: IoResult<bool>)
      reads fs
      ensures r.Ok? && (r.value <==> fs.Observe(path).Some?)
    {
      Ok(fs.Exists(path))
    }

    /** `read_text`: a reader over the contents the file has now, or NotFound. */
    method ReadText() returns (r: IoResult<StorageReader>)
      ensures r.Ok? <==> fs.Observe(path).Some?
      ensures r.Ok? ==> fresh(r.value.cursor) && r.value.cursor.Valid()
                        && Some(r.value.cursor.Remaining()) == fs.Observe(path)
      ensures r.Err? ==> r.error.kind == NotFound
    {
      var cell := fs.Get(path);
      if cell.Err? {
        return Err(cell.error);
      }
      var reader := new StorageReader(cell.value);
      r := Ok(reader);
    }

    /** `read_binary`: the same reader as `read_text`. */
    method ReadBinary() returns (r: IoResult<StorageReader>)
      ensures r.Ok? <==> fs.Observe(path).Some?
      ensures r.Ok? ==> fresh(r.value.cursor) && r.value.cursor.Valid()
                        && Some(r.value.cursor.Remaining()) == fs.Observe(path)
      ensures r.Err? ==> r.error.kind == NotFound
    {
      r := ReadText();
    }

    /** `remove`: deletes the entry; succeeds whether or not there was one. */
    method Remove() returns (r: IoResult<()>)
      requires access == ReadWrite && fs.Valid()
      modifies fs
      ensures fs.Valid() && r.Ok?
      ensures fs.Observe(path) == None
      ensures forall q :: q != path ==> fs.Observe(q) == old(fs.Observe(q))
      ensures fs.contents == old(fs.contents) - {path} && fs.cells == old(fs.cells)
    {
      r := fs.Remove(path);
    }

    /** `write_text`: a fresh writer for the path's cell. Opening it already creates an
        empty entry when there was none, so `exists` holds before any flush. */
    method WriteText() returns (r: IoResult<StorageWriter>)
      requires access == ReadWrite && fs.Valid()
      modifies fs
      ensures fs.Valid() && r.Ok? && fresh(r.value)
      ensures path in fs.contents && r.value.stored == fs.contents[path] && r.value.buf == []
      ensures fs.Observe(path) == if old(fs.Exists(path)) then old(fs.Observe(path)) else Some([])
      ensures forall q :: q != path ==> fs.Observe(q) == old(fs.Observe(q))
      ensures fresh(fs.cells - old(fs.cells))
    {
      var cell := GetOrCreateObserved(fs, path);
      var writer := new StorageWriter(cell);
      r := Ok(writer);
    }

    /** `write_binary`: the same writer as `write_text`. */
    method WriteBinary() returns (r: IoResult<StorageWriter>)
      requires access == ReadWrite && fs.Valid()
      modifies fs
      ensures fs.Valid() && r.Ok? && fresh(r.value)
      ensures path in fs.contents && r.value.stored == fs.contents[path] && r.value.buf == []
      ensures fs.Observe(path) == if old(fs.Exists(path)) then old(fs.Observe(path)) else Some([])
      ensures forall q :: q != path ==> fs.Observe(q) == old(fs.Observe(q))
      ensures fresh(fs.cells - old(fs.cells))
    {
      r := WriteText();
    }
  }

  /** `Dir<R>`: a directory path in the shared filesystem. */
  datatype DirHandle = DirHandle(access: Access, fs: FileSystem, path: string) {

    /** `file`: the handle of file `name` in this directory, with the same access. */
    function File(name: string): (f: FileHandle)
      ensures f.fs == fs && f.access == access && f.path == FilePath(path, name)
    {
      FileHandle(access, fs, FilePath(path, name))
    }

    /** `subdir`: the handle of directory `name` below this one, with the same access. */
    function Subdir(name: string): (d: DirHandle)
      ensures d.fs == fs && d.access == access && d.path == DirPath(path, name)
    {
      DirHandle(access, fs, DirPath(path, name))
    }

    /** `into_leaf`: the handle itself. */
    function IntoLeaf(): (d: DirHandle)
      ensures d == this
    {
      this
    }

    /** `writable_file`: the same handle as `file`. */
    function WritableFile(name: string): (f: FileHandle)
      requires access == ReadWrite
      ensures f == File(name) && f.access == ReadWrite
    {
      FileHandle(access, fs, FilePath(path, name))
    }

    /** `writable_subdir`: the same handle as `subdir`. */
    function WritableSubdir(name: string): (d: DirHandle)
      requires access == ReadWrite
      ensures d == Subdir(name) && d.access == ReadWrite
    {
      DirHandle(access, fs, DirPath(path, name))
    }

    /** `into_writable_leaf`: the handle itself. */
    function IntoWritableLeaf(): (d: DirHandle)
      requires access == ReadWrite
      ensures d == this
    {
      this
    }
  }

  /** `MemoryStorage`: the shared filesystem all its handles refer to. */
  class MemoryStorage {
    const fs: FileSystem

    constructor ()
      ensures fresh(fs) && fs.Valid() && fs.contents == map[]
    {
      fs := new FileSystem();
    }

    /** The root directory handle for `root` at the given access; it never fails. */
    function Outer(root: Root, access: Access): (r: Result<DirHandle, OuterDirectoryError>)
      ensures r.Ok? && r.value.fs == fs && r.value.access == access
      ensures r.value.path == RootPath(root)
    {
      Ok(DirHandle(access, fs, DirPath("", root.Name())))
    }

    function Data(): (r: Result<DirHandle, OuterDirectoryError>)
      ensures r.Ok? && r.value == DirHandle(ReadOnly, fs, "data/")
    {
      Outer(Root.Data, ReadOnly)
    }

    function Config(): (r: Result<DirHandle, OuterDirectoryError>)
      ensures r.Ok? && r.value == DirHandle(ReadOnly, fs, "config/")
    {
      Outer(Root.Config, ReadOnly)
    }

    function Cache(): (r: Result<DirHandle, OuterDirectoryError>)
      ensures r.Ok? && r.value == DirHandle(ReadOnly, fs, "cache/")
    {
      Outer(Root.Cache, ReadOnly)
    }

    function WritableData(): (r: Result<DirHandle, OuterDirectoryError>)
      ensures r.Ok? && r.value == DirHandle(ReadWrite, fs, "data/")
    {
      Outer(Root.Data, ReadWrite)
    }

    function WritableConfig(): (r: Result<DirHandle, OuterDirectoryError>)
      ensures r.Ok? && r.value == DirHandle(ReadWrite, fs, "config/")
    {
      Outer(Root.Config, ReadWrite)
    }

    function WritableCache(): (r: Result<DirHandle, OuterDirectoryError>)
      ensures r.Ok? && r.value == DirHandle(ReadWrite, fs, "cache/")
    {
      Outer(Root.Cache, ReadWrite)
    }
  }

  /** A file reached from a root through subdirectories has the key of its address; the
      writable and read-only routes reach the same key. */
  lemma {:induction false} NavigatedPath(s: MemoryStorage, a: Address, access: Access)
    ensures Navigate(s.Outer(a.root, access).value, a.dirs).File(a.name).path == Key(a)
  {
    NavigateDirPath(s.Outer(a.root, access).value, a.root, a.dirs);
  }

  /** The directory reached by `subdir` through each name of `dirs`, in order. */
  function Navigate(d: DirHandle, dirs: seq<string>): DirHandle
  {
    if dirs == [] then d else Navigate(d, dirs[..|dirs| - 1]).Subdir(dirs[|dirs| - 1])
  }

  lemma {:induction false} NavigateDirPath(d: DirHandle, root: Root, dirs: seq<string>)
    requires d.path == RootPath(root)
    ensures Navigate(d, dirs).path == DirPathOf(root, dirs)
    ensures Navigate(d, dirs).fs == d.fs && Navigate(d, dirs).access == d.access
    decreases |dirs|
  {
    if dirs != [] {
      NavigateDirPath(d, root, dirs[..|dirs| - 1]);
    }
  }
}
