/** The capability interface of the storage layer: the three outer directories, the error
    that root access may fail with, and the read-only / writable distinction that Rust
    expresses with the `File`/`WritableFile`/`Dir`/`WritableDir`/`ParentDir`/
    `WritableParentDir` traits. In this model a handle carries its `Access`, and every
    mutating operation of a backend requires `ReadWrite`, so the verifier rejects a
    mutation through a read-only handle before the program runs. */
module StorageApi {

  /** `OuterDirectoryError`: the only way root access can fail. */
  datatype OuterDirectoryError = NotAvailable {
    /** `Display`, which prints the `Debug` form. */
    function ToString(): (r: string)
      ensures r == "NotAvailable"
    {
      "NotAvailable"
    }
  }

  /** The three outer directories a `Storage` exposes. */
  datatype Root = Data | Config | Cache {
    /** The name the in-repo backends give the root directory. */
    function Name(): (r: string)
      ensures r != [] && '/' !in r
    {
      match this
      case Data => "data"
      case Config => "config"
      case Cache => "cache"
    }
  }

  lemma RootNamesDistinct(a: Root, b: Root)
    ensures a.Name() == b.Name() <==> a == b
  {
  }

  /** The phantom `ReadOnly` / `ReadWrite` parameter of the backends' handles. */
  datatype Access = ReadOnly | ReadWrite
}
