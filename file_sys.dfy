/** The memory backend's virtual filesystem: a map from path strings to shared byte cells.
    Rust's `Shared<T>` (an `Arc<RwLock<T>>`) is a Dafny object reference: cloning a
    `Shared` copies the reference, so every clone reaches the same cell. */
module MemoryFileSys {
  import opened Io

  /** `MemoryFile`: the contents of one file, held in a shared cell. */
  class MemoryFile {
    var contents: Bytes

    constructor ()
      ensures contents == []
    {
      contents := [];
    }
  }

  /** `FileSystem`: the path-to-cell map, itself held in a shared cell by the storage. */
  class FileSystem {
    var contents: map<string, MemoryFile>

    /** Every cell this filesystem has created, including those whose entry was removed. */
    ghost var cells: set<MemoryFile>

    /** Every path owns its own cell: a cell is created only for a path that has none,
        so writing through one path's cell never changes what another path holds. */
    ghost predicate Valid()
      reads this
    {
      && contents.Values <= cells
      && forall p, q :: p in contents && q in contents && p != q ==> contents[p] != contents[q]
    }

    /** The contents stored at `path`, or None when there is no entry. */
    ghost function Observe(path: string): Option<Bytes>
      reads this, contents.Values
    {
      if path in contents then Some(contents[path].contents) else None
    }

    constructor ()
      ensures Valid() && contents == map[] && cells == {}
      ensures forall p :: Observe(p) == None
    {
      contents := map[];
      cells := {};
    }

    /** `exists`: whether the map holds an entry for `path`. */
    function Exists(path: string): (r: bool)
      reads this
      ensures r <==> Observe(path).Some?
    {
      path in contents
    }

    /** `get`: the stored cell itself (cloning a `Shared` aliases it), or NotFound. */
    method Get(path: string) returns (r: IoResult<MemoryFile>)
      ensures r.Ok? <==> path in contents
      ensures r.Ok? ==> r.value == contents[path]
      ensures r.Err? ==> r.error.kind == NotFound
    {
      if path in contents {
        r := Ok(contents[path]);
      } else {
        r := Err(IoError(NotFound, ""));
      }
    }

    /** `get_or_create`: the cell for `path`, inserting a fresh empty one when there is none. */
    method GetOrCreate(path: string) returns (r: IoResult<MemoryFile>)
      requires Valid()
      modifies this
      ensures Valid() && r.Ok?
      ensures path in contents && r.value == contents[path]
      ensures old(path in contents) ==> contents == old(contents)
      ensures old(path !in contents) ==>
        fresh(r.value) && r.value.contents == [] && contents == old(contents)[path := r.value]
      ensures cells == old(cells) + {r.value}
    {
      if path !in contents {
        var cell := new MemoryFile();
        contents := contents[path := cell];
        cells := cells + {cell};
      }
      r := Ok(contents[path]);
    }

    /** `remove`: drops the entry for `path`, if any, and always succeeds. */
    method Remove(path: string) returns (r: IoResult<()>)
      requires Valid()
      modifies this
      ensures Valid() && r.Ok?
      ensures contents == old(contents) - {path} && cells == old(cells)
    {
      contents := contents - {path};
      r := Ok(());
    }
  }

  /** What get_or_create promises through `Observe`: `path` now has an entry, empty if it was
      absent and untouched if it was present, and no other path changes. */
  method GetOrCreateObserved(fs: FileSystem, path: string) returns (cell: MemoryFile)
    requires fs.Valid()
    modifies fs
    ensures fs.Valid() && fs.Exists(path) && cell == fs.contents[path]
    ensures fs.Observe(path) == if old(fs.Exists(path)) then old(fs.Observe(path)) else Some([])
    ensures forall q :: q != path ==> fs.Observe(q) == old(fs.Observe(q))
    ensures fresh(fs.cells - old(fs.cells))
  {
    var r := fs.GetOrCreate(path);
    cell := r.value;
  }

  /** Removing is idempotent: the second removal succeeds too and leaves the same map. */
  method RemoveTwice(fs: FileSystem, path: string)
    requires fs.Valid()
    modifies fs
    ensures fs.Valid() && !fs.Exists(path)
    ensures forall q :: q != path ==> fs.Observe(q) == old(fs.Observe(q))
  {
    var first := fs.Remove(path);
    ghost var afterFirst := fs.contents;
    var second := fs.Remove(path);
    assert first.Ok? && second.Ok? && fs.contents == afterFirst;
  }

  /** Clones of a `Shared` cell alias it: a write through one clone is seen through the other. */
  method SharedClonesAlias(fs: FileSystem, path: string, data: Bytes)
    requires fs.Valid()
    modifies fs, fs.contents.Values
    ensures fs.Observe(path) == Some(data)
  {
    var created := fs.GetOrCreate(path);
    var clone := fs.Get(path);
    assert clone.Ok? && clone.value == created.value;
    created.value.contents := data;
    assert clone.value.contents == data;
  }
}
