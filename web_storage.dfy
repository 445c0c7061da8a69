/** The web backend: the key scheme of module Paths over the browser's flat local storage.
    Every handle derived from one `Storage` refers to the same store. */
module WebStorage {
  import opened Io
  import opened StorageApi
  import opened Paths
  import opened WebSys
  import opened WebTextValues

  /** `WebStorageAvailabilityError`: why `Storage::new` found no store. */
  datatype WebStorageAvailabilityError = NoWindow | NoLocalStorage {
    /** `Display`, which prints the `Debug` form. */
    function ToString(): (r: string)
      ensures NoWindow? ==> r == "NoWindow"
      ensures NoLocalStorage? ==> r == "NoLocalStorage"
    {
      match this
      case NoWindow => "NoWindow"
      case NoLocalStorage => "NoLocalStorage"
    }
  }

  /** The `exists` helper: whether the store holds `path`; a failing lookup is an Other error. */
  function KeyExists(webStorage: WebStorageArea, path: string): (r: IoResult<bool>)
    reads webStorage
    ensures r.Err? <==> webStorage.denied
    ensures r.Err? ==> r.error == IoError(Other, "cannot get value")
    ensures r.Ok? ==> (r.value <==> webStorage.Observe(path).Some?)
  {
    match webStorage.GetItem(path)
    case Err(_) => Err(IoError(Other, "cannot get value"))
    case Ok(v) => Ok(v.Some?)
  }

  /** The `remove` helper: deletes `path`; a failing removal is an Other error. */
  method RemoveKey(webStorage: WebStorageArea, path: string) returns (r: IoResult<()>)
    modifies webStorage
    ensures webStorage.denied == old(webStorage.denied)
    ensures r.Err? <==> webStorage.denied
    ensures r.Err? ==> r.error == IoError(Other, "cannot remove value")
    ensures webStorage.items == if webStorage.denied then old(webStorage.items) else old(webStorage.items) - {path}
  {
    var removed := webStorage.RemoveItem(path);
    if removed.Err? {
      r := Err(IoError(Other, "cannot remove value"));
    } else {
      r := Ok(());
    }
  }

  /** `File<R>`: a key in the shared store. */
  datatype FileHandle = FileHandle(access: Access, webStorage: WebStorageArea, path: string) {

    function Exists(): (r: IoResult<bool>)
      reads webStorage
      ensures r.Err? <==> webStorage.denied
      ensures r.Ok? ==> (r.value <==> webStorage.Observe(path).Some?)
    {
      KeyExists(webStorage, path)
    }

    /** `read_text`: a reader over the stored value, or an Other error when there is none. */
    method ReadText() returns (r: IoResult<TextStorageReader>)
      ensures r.Ok? <==> !webStorage.denied && webStorage.Observe(path).Some?
      ensures r.Ok? ==> fresh(r.value.cursor) && r.value.cursor.Valid()
                        && Some(r.value.cursor.Remaining()) == webStorage.Observe(path)
      ensures r.Err? ==> r.error.kind == Other
    {
      r := NewTextStorageReader(webStorage, path);
    }

    /** `remove`: deletes the key; removing an absent key succeeds. */
    method Remove() returns (r: IoResult<()>)
      requires access == ReadWrite
      modifies webStorage
      ensures webStorage.denied == old(webStorage.denied) && (r.Err? <==> webStorage.denied)
      ensures r.Err? ==> r.error == IoError(Other, "cannot remove value")
      ensures !webStorage.denied ==> webStorage.Observe(path) == None
      ensures webStorage.denied ==> webStorage.items == old(webStorage.items)
      ensures forall q :: q != path ==> webStorage.Observe(q) == old(webStorage.Observe(q))
    {
      r := RemoveKey(webStorage, path);
    }

    /** `write_text`: a fresh writer for the key. Unlike the memory backend nothing is
        stored yet: the key appears only when the writer flushes. */
    method WriteText() returns (r: IoResult<TextStorageWriter>)
      requires access == ReadWrite
      ensures r.Ok? && fresh(r.value)
      ensures r.value.webStorage == webStorage && r.value.key == path && r.value.buf == []
    {
      r := NewTextStorageWriter(webStorage, path);
    }
  }

  /** `Dir<R>`: a key prefix in the shared store. */
  datatype DirHandle = DirHandle(access: Access, webStorage: WebStorageArea, path: string) {

    function File(name: string): (f: FileHandle)
      ensures f.webStorage == webStorage && f.access == access && f.path == FilePath(path, name)
    {
      FileHandle(access, webStorage, FilePath(path, name))
    }

    function Subdir(name: string): (d: DirHandle)
      ensures d.webStorage == webStorage && d.access == access && d.path == DirPath(path, name)
    {
      DirHandle(access, webStorage, DirPath(path, name))
    }

    function IntoLeaf(): (d: DirHandle)
      ensures d == this
    {
      this
    }

    function WritableFile(name: string): (f: FileHandle)
      requires access == ReadWrite
      ensures f == File(name) && f.access == ReadWrite
    {
      FileHandle(access, webStorage, FilePath(path, name))
    }

    function WritableSubdir(name: string): (d: DirHandle)
      requires access == ReadWrite
      ensures d == Subdir(name) && d.access == ReadWrite
    {
      DirHandle(access, webStorage, DirPath(path, name))
    }

    function IntoWritableLeaf(): (d: DirHandle)
      requires access == ReadWrite
      ensures d == this
    {
      this
    }
  }

  /** `Storage`: the browser's local storage. */
  datatype Storage = Storage(webStorage: WebStorageArea) {

    /** `Storage::new`: NoWindow without a window, NoLocalStorage when the window's
        `local_storage()` throws or has none. */
    static function New(window: Option<Window>): (r: Result<Storage, WebStorageAvailabilityError>)
      ensures window.None? ==> r == Err(NoWindow)
      ensures window.Some? && !(window.value.localStorage.Ok? && window.value.localStorage.value.Some?)
              ==> r == Err(NoLocalStorage)
      ensures r.Ok? ==> window.Some? && window.value.localStorage == Ok(Some(r.value.webStorage))
    {
      match window
      case None => Err(NoWindow)
      case Some(w) =>
        match w.localStorage
        case Err(_) => Err(NoLocalStorage)
        case Ok(None) => Err(NoLocalStorage)
        case Ok(Some(area)) => Ok(Storage(area))
    }

    /** The root directory handle for `root` at the given access; it never fails. */
    function Outer(root: Root, access: Access): (r: Result<DirHandle, OuterDirectoryError>)
      ensures r.Ok? && r.value.webStorage == webStorage && r.value.access == access
      ensures r.value.path == RootPath(root)
    {
      Ok(DirHandle(access, webStorage, DirPath("", root.Name())))
    }

    function Data(): (r: Result<DirHandle, OuterDirectoryError>)
      ensures r.Ok? && r.value == DirHandle(ReadOnly, webStorage, "data/")
    {
      Outer(Root.Data, ReadOnly)
    }

    function Config(): (r: Result<DirHandle, OuterDirectoryError>)
      ensures r.Ok? && r.value == DirHandle(ReadOnly, webStorage, "config/")
    {
      Outer(Root.Config, ReadOnly)
    }

    function Cache(): (r: Result<DirHandle, OuterDirectoryError>)
      ensures r.Ok? && r.value == DirHandle(ReadOnly, webStorage, "cache/")
    {
      Outer(Root.Cache, ReadOnly)
    }

    function WritableData(): (r: Result<DirHandle, OuterDirectoryError>)
      ensures r.Ok? && r.value == DirHandle(ReadWrite, webStorage, "data/")
    {
      Outer(Root.Data, ReadWrite)
    }

    function WritableConfig(): (r: Result<DirHandle, OuterDirectoryError>)
      ensures r.Ok? && r.value == DirHandle(ReadWrite, webStorage, "config/")
    {
      Outer(Root.Config, ReadWrite)
    }

    function WritableCache(): (r: Result<DirHandle, OuterDirectoryError>)
      ensures r.Ok? && r.value == DirHandle(ReadWrite, webStorage, "cache/")
    {
      Outer(Root.Cache, ReadWrite)
    }
  }

  /** The directory reached by `subdir` through each name of `dirs`, in order. */
  function Navigate(d: DirHandle, dirs: seq<string>): DirHandle
  {
    if dirs == [] then d else Navigate(d, dirs[..|dirs| - 1]).Subdir(dirs[|dirs| - 1])
  }

  lemma {:induction false} NavigateDirPath(d: DirHandle, root: Root, dirs: seq<string>)
    requires d.path == RootPath(root)
    ensures Navigate(d, dirs).path == DirPathOf(root, dirs)
    ensures Navigate(d, dirs).webStorage == d.webStorage && Navigate(d, dirs).access == d.access
    decreases |dirs|
  {
    if dirs != [] {
      NavigateDirPath(d, root, dirs[..|dirs| - 1]);
    }
  }

  /** A file reached from a root through subdirectories has the key of its address. */
  lemma NavigatedPath(s: Storage, a: Address, access: Access)
    ensures Navigate(s.Outer(a.root, access).value, a.dirs).File(a.name).path == Key(a)
  {
    NavigateDirPath(s.Outer(a.root, access).value, a.root, a.dirs);
  }

  /** Opening a writer stores nothing: a key that was absent stays absent until a flush. */
  method WriterOpensNothing(f: FileHandle) returns (existsAfterOpen: IoResult<bool>)
    requires f.access == ReadWrite && !f.webStorage.denied && f.webStorage.Observe(f.path) == None
    ensures existsAfterOpen == Ok(false)
  {
    var w := f.WriteText();
    existsAfterOpen := f.Exists();
  }
}
