/** The backend-independent storage test scripts (`text_file`, `binary_file`,
    `file_uniqueness`), run over a storage of either backend. Each `unwrap` of the scripts
    is an assertion here, so the proofs show that none of them can panic, and each
    `assert!`/`assert_eq!` is a postcondition about the values the script observes. */
module StorageTests {
  import opened Io
  import opened StorageApi
  import opened Paths
  import opened Streams
  import opened Capabilities
  import Utf8

  const Text: string := "hello world"

  /** The buffer size of `read_to_string`; any positive size gives the same result. */
  const ChunkSize: nat := 8

  /** `read_text` followed by `read_to_string`: the stored text, when the read succeeds
      and the stored bytes are UTF-8. */
  method ReadAll(f: AnyFile) returns (r: IoResult<string>)
    ensures r.Ok? <==> f.ReadOutcome().Ok? && Utf8.IsValid(f.ReadOutcome().value)
    ensures r.Ok? ==> Utf8.Encode(r.value) == f.ReadOutcome().value
  {
    var reader := f.ReadText();
    if reader.Err? {
      return Err(reader.error);
    }
    r := ReadToString(reader.value.Cursor(), ChunkSize);
  }

  /** `write_text`, `write_all` and the drop of the temporary writer: the path then holds
      `bytes` when the flush succeeds, and nothing else changes. */
  method WriteAll(f: AnyFile, bytes: Bytes)
    requires f.Access() == ReadWrite && f.Store().Valid()
    modifies f.Store().Frame()
    ensures f.Store().Valid() && f.Store().Accessible() == old(f.Store().Accessible())
    ensures f.Store().Accessible() && Utf8.IsValid(bytes) ==> f.Store().Observe(f.Path()) == Some(bytes)
    ensures f.MemoryFileHandle? ==> f.Store().Observe(f.Path()) == Some(bytes)
    ensures forall q :: q != f.Path() ==> f.Store().Observe(q) == old(f.Store().Observe(q))
    ensures fresh(f.Store().Frame() - old(f.Store().Frame()))
  {
    var w := f.WriteText();
    var writer := w.value;
    var n := writer.Write(bytes);
    assert writer.Buffer() == bytes;
    writer.Drop(f.Store(), f.Path());
  }

  /** Opening a writer, writing `text` and dropping the writer, then `exists` and
      `read_to_string` on the same handle: the file exists and reads back `text`. */
  method WriteThenRead(f: AnyFile, text: string) returns (existed: bool, got: string)
    requires f.Access() == ReadWrite && f.Store().Valid() && f.Store().Accessible()
    modifies f.Store().Frame()
    ensures f.Store().Valid() && f.Store().Accessible()
    ensures existed && got == text
    ensures f.Store().Observe(f.Path()) == Some(Utf8.Encode(text))
    ensures forall q :: q != f.Path() ==> f.Store().Observe(q) == old(f.Store().Observe(q))
    ensures fresh(f.Store().Frame() - old(f.Store().Frame()))
  {
    Utf8.EncodeInjective(text, text);
    WriteAll(f, Utf8.Encode(text));
    existed, got := ExistsThenRead(f, text);
  }

  /** `exists` and `read_to_string` on a handle whose path holds the encoding of `text`. */
  method ExistsThenRead(f: AnyFile, text: string) returns (existed: bool, got: string)
    requires f.Store().Accessible() && f.Store().Observe(f.Path()) == Some(Utf8.Encode(text))
    ensures existed && got == text
  {
    Utf8.EncodeInjective(text, text);
    var e := f.Exists();
    existed := e.value;
    var r := ReadAll(f);
    Utf8.EncodeInjective(r.value, text);
    got := r.value;
  }

  /** `exists`, `remove`, `exists` on one handle: the file was there and is gone. */
  method RemoveThenCheck(f: AnyFile) returns (existedBefore: bool, existsAfter: bool)
    requires f.Access() == ReadWrite && f.Store().Valid() && f.Store().Accessible()
    requires f.Store().Observe(f.Path()).Some?
    modifies f.Store().Frame()
    ensures f.Store().Valid() && f.Store().Accessible()
    ensures existedBefore && !existsAfter
    ensures f.Store().Observe(f.Path()) == None
    ensures forall q :: q != f.Path() ==> f.Store().Observe(q) == old(f.Store().Observe(q))
    ensures f.Store().Frame() == old(f.Store().Frame())
  {
    var e := f.Exists();
    existedBefore := e.value;
    var removed := f.Remove();
    assert removed.Ok?;
    e := f.Exists();
    existsAfter := e.value;
  }

  /** `write_text`, then `remove`, then writing `bytes` and flushing the writer opened first.
      The backends differ: the memory writer holds the removed entry's cell, so its flush
      succeeds and the path stays absent; the web writer names the key, so its flush stores
      the key again. */
  method RemoveWhileWriting(f: AnyFile, bytes: Bytes) returns (r: IoResult<()>)
    requires f.Access() == ReadWrite && f.Store().Valid()
    modifies f.Store().Frame()
    ensures f.MemoryFileHandle? ==> r.Ok? && f.Store().Observe(f.Path()) == None
    ensures f.WebFileHandle? && f.Store().Accessible() && Utf8.IsValid(bytes) ==>
      r.Ok? && f.Store().Observe(f.Path()) == Some(bytes)
    ensures forall q :: q != f.Path() ==> f.Store().Observe(q) == old(f.Store().Observe(q))
  {
    var w := f.WriteText();
    var writer := w.value;
    ghost var before := if f.MemoryFileHandle? then f.mf.fs.contents else map[];
    var removed := f.Remove();
    if f.MemoryFileHandle? {
      assert writer.Detached(f.Store()) by {
        forall q | q in f.mf.fs.contents ensures f.mf.fs.contents[q] != writer.mw.stored {
          assert q in before && q != f.Path() && before[f.Path()] == writer.mw.stored;
        }
      }
    }
    var _ := writer.Write(bytes);
    assert writer.Buffer() == bytes;
    assert f.WebFileHandle? ==> writer.Aims(f.Store(), f.Path());
    r := writer.Flush(f.Store(), f.Path());
  }

  /** The path of the scripts' `test` file in the data root. */
  const TestPath: string := FilePath(RootPath(Data), "test")

  /** The `text_file` script (and `binary_file`, which is the same script). */
  method TextFile(storage: AnyStorage)
    returns (existsAfterWrite: bool, gotWritable: string, existsReadOnly: bool, gotReadOnly: string,
             existsBeforeRemove: bool, existsAfterRemove: bool, existsReadOnlyAfterRemove: bool)
    requires storage.Store().Valid() && storage.Store().Accessible()
    modifies storage.Store().Frame()
    ensures existsAfterWrite && existsReadOnly && existsBeforeRemove
    ensures gotWritable == Text && gotReadOnly == Text
    ensures !existsAfterRemove && !existsReadOnlyAfterRemove
    ensures storage.Store().Observe(TestPath) == None
    ensures forall q :: q != TestPath ==> storage.Store().Observe(q) == old(storage.Store().Observe(q))
  {
    var file := storage.Outer(Data, ReadWrite).value.WritableFile("test");
    existsAfterWrite, gotWritable := WriteThenRead(file, Text);

    var readOnly := storage.Outer(Data, ReadOnly).value.File("test");
    existsReadOnly, gotReadOnly := ExistsThenRead(readOnly, Text);

    file := storage.Outer(Data, ReadWrite).value.WritableFile("test");
    existsBeforeRemove, existsAfterRemove := RemoveThenCheck(file);

    readOnly := storage.Outer(Data, ReadOnly).value.File("test");
    var e := readOnly.Exists();
    existsReadOnlyAfterRemove := e.value;
  }

  /** An entry of `file_uniqueness`: a root, one subdirectory below it, a file name. */
  datatype Entry = Entry(root: Root, inner: string, file: string) {

    function Addr(): Address
    {
      Address(root, [inner], file)
    }

    predicate Valid()
    {
      IsSegment(inner) && IsSegment(file)
    }

    /** The text the script stores for this entry: `contents <root> <dir> <file>`. */
    function Text(): string
    {
      "contents " + root.Name() + " " + inner + " " + file
    }

    /** The entry's file, reached as the script does: a root, `subdir`, then `file`. */
    function Handle(storage: AnyStorage, access: Access): (f: AnyFile)
      ensures f.Store() == storage.Store() && f.Access() == access && f.Path() == Key(Addr())
    {
      KeyOneDeep(root, inner, file);
      storage.Outer(root, access).value.Subdir(inner).File(file)
    }
  }

  /** Distinct valid entries have distinct keys. */
  lemma KeysApart(entries: seq<Entry>, i: nat)
    requires i < |entries|
    requires forall k :: 0 <= k < |entries| ==> entries[k].Valid()
    requires forall k, l :: 0 <= k < l < |entries| ==> entries[k] != entries[l]
    ensures forall j :: 0 <= j < i ==> Key(entries[j].Addr()) != Key(entries[i].Addr())
  {
    forall j | 0 <= j < i
      ensures Key(entries[j].Addr()) != Key(entries[i].Addr())
    {
      KeyInjective(entries[j].Addr(), entries[i].Addr());
    }
  }

  /** One step of the first loop: writes `text` to the entry's file; every other key
      keeps what it held. */
  method WriteEntry(storage: AnyStorage, e: Entry, text: string)
    requires storage.Store().Valid() && storage.Store().Accessible()
    modifies storage.Store().Frame()
    ensures storage.Store().Valid() && storage.Store().Accessible()
    ensures storage.Store().Observe(Key(e.Addr())) == Some(Utf8.Encode(text))
    ensures forall q :: q != Key(e.Addr()) ==> storage.Store().Observe(q) == old(storage.Store().Observe(q))
    ensures fresh(storage.Store().Frame() - old(storage.Store().Frame()))
  {
    var f := e.Handle(storage, ReadWrite);
    Utf8.EncodeInjective(text, text);
    WriteAll(f, Utf8.Encode(text));
  }

  /** The keys of the entries, in order. */
  function Keys(entries: seq<Entry>): (keys: seq<string>)
    ensures |keys| == |entries| && forall k :: 0 <= k < |entries| ==> keys[k] == Key(entries[k].Addr())
  {
    seq(|entries|, k requires 0 <= k < |entries| => Key(entries[k].Addr()))
  }

  /** The first `i` entries' files hold their texts. */
  ghost predicate Written(store: Store, keys: seq<string>, texts: seq<string>, i: nat)
    requires i <= |keys| <= |texts|
    reads store.Repr()
  {
    forall j :: 0 <= j < i ==> store.Observe(keys[j]) == Some(Utf8.Encode(texts[j]))
  }

  /** The body of the first loop: writing entry `i` keeps the first `i` entries' texts,
      because their keys differ from entry `i`'s. */
  method WriteNext(storage: AnyStorage, entries: seq<Entry>, texts: seq<string>, i: nat)
    requires i < |entries| == |texts|
    requires storage.Store().Valid() && storage.Store().Accessible()
    requires forall k :: 0 <= k < |entries| ==> entries[k].Valid()
    requires forall k, l :: 0 <= k < l < |entries| ==> entries[k] != entries[l]
    requires Written(storage.Store(), Keys(entries), texts, i)
    modifies storage.Store().Frame()
    ensures storage.Store().Valid() && storage.Store().Accessible()
    ensures Written(storage.Store(), Keys(entries), texts, i + 1)
    ensures fresh(storage.Store().Frame() - old(storage.Store().Frame()))
  {
    var keys := Keys(entries);
    KeysApart(entries, i);
    WriteEntry(storage, entries[i], texts[i]);
    forall j | 0 <= j < i + 1
      ensures storage.Store().Observe(keys[j]) == Some(Utf8.Encode(texts[j]))
    {
      if j < i {
        assert keys[j] != keys[i];
      }
    }
  }

  /** The first loop of `file_uniqueness`: entry `i`'s file gets `texts[i]`. */
  method WriteEntries(storage: AnyStorage, entries: seq<Entry>, texts: seq<string>)
    requires storage.Store().Valid() && storage.Store().Accessible()
    requires |texts| == |entries|
    requires forall i :: 0 <= i < |entries| ==> entries[i].Valid()
    requires forall i, j :: 0 <= i < j < |entries| ==> entries[i] != entries[j]
    modifies storage.Store().Frame()
    ensures storage.Store().Valid() && storage.Store().Accessible()
    ensures forall i :: 0 <= i < |entries| ==>
      storage.Store().Observe(Key(entries[i].Addr())) == Some(Utf8.Encode(texts[i]))
  {
    var store := storage.Store();
    for i := 0 to |entries|
      invariant store.Valid() && store.Accessible()
      invariant Written(store, Keys(entries), texts, i)
      invariant fresh(store.Frame() - old(store.Frame()))
    {
      WriteNext(storage, entries, texts, i);
    }
    assert Written(store, Keys(entries), texts, |entries|);
  }

  /** One step of the second loop: the entry's file, reached through the writable root as
      the script does, reads back the `text` it holds. */
  method ReadEntry(storage: AnyStorage, e: Entry, text: string) returns (got: string)
    requires storage.Store().Accessible()
    requires storage.Store().Observe(Key(e.Addr())) == Some(Utf8.Encode(text))
    ensures got == text
  {
    var f := e.Handle(storage, ReadWrite);
    var _, read := ExistsThenRead(f, text);
    got := read;
  }

  /** The second loop of `file_uniqueness`: each entry's file reads back what it holds. */
  method ReadEntries(storage: AnyStorage, entries: seq<Entry>, texts: seq<string>) returns (got: seq<string>)
    requires storage.Store().Accessible()
    requires |texts| == |entries|
    requires forall i :: 0 <= i < |entries| ==>
      storage.Store().Observe(Key(entries[i].Addr())) == Some(Utf8.Encode(texts[i]))
    ensures got == texts
  {
    got := [];
    for i := 0 to |entries|
      invariant got == texts[..i]
    {
      var text := ReadEntry(storage, entries[i], texts[i]);
      got := got + [text];
      assert texts[..i + 1] == texts[..i] + [texts[i]];
    }
  }

  /** The texts the script writes, entry by entry. */
  function Texts(entries: seq<Entry>): (texts: seq<string>)
    ensures |texts| == |entries| && forall i :: 0 <= i < |entries| ==> texts[i] == entries[i].Text()
  {
    seq(|entries|, i requires 0 <= i < |entries| => entries[i].Text())
  }

  /** The `file_uniqueness` script for any distinct entries: after every entry's file is
      written with its own text, every file reads back its own text, so no two entries
      share storage. */
  method FileUniqueness(storage: AnyStorage, entries: seq<Entry>) returns (got: seq<string>)
    requires storage.Store().Valid() && storage.Store().Accessible()
    requires forall i :: 0 <= i < |entries| ==> entries[i].Valid()
    requires forall i, j :: 0 <= i < j < |entries| ==> entries[i] != entries[j]
    modifies storage.Store().Frame()
    ensures |got| == |entries|
    ensures forall i :: 0 <= i < |entries| ==> got[i] == entries[i].Text()
  {
    var texts := Texts(entries);
    WriteEntries(storage, entries, texts);
    got := ReadEntries(storage, entries, texts);
  }

  /** The twelve entries of `file_uniqueness`. */
  const ToCheck: seq<Entry> := [
    Entry(Data, "one", "a"), Entry(Data, "one", "b"),
    Entry(Data, "two", "a"), Entry(Data, "two", "b"),
    Entry(Config, "one", "a"), Entry(Config, "one", "b"),
    Entry(Config, "two", "a"), Entry(Config, "two", "b"),
    Entry(Cache, "one", "a"), Entry(Cache, "one", "b"),
    Entry(Cache, "two", "a"), Entry(Cache, "two", "b")
  ]

  /** The twelve entries are valid and pairwise distinct. */
  lemma ToCheckDistinct()
    ensures |ToCheck| == 12
    ensures forall i :: 0 <= i < |ToCheck| ==> ToCheck[i].Valid()
    ensures forall i, j :: 0 <= i < j < |ToCheck| ==> ToCheck[i] != ToCheck[j]
  {
  }

  /** The script as written: each of the twelve files reads back its own text. */
  method FileUniquenessScript(storage: AnyStorage) returns (got: seq<string>)
    requires storage.Store().Valid() && storage.Store().Accessible()
    modifies storage.Store().Frame()
    ensures |got| == 12
    ensures got[0] == "contents data one a" && got[11] == "contents cache two b"
    ensures forall i :: 0 <= i < 12 ==> got[i] == ToCheck[i].Text()
  {
    ToCheckDistinct();
    got := FileUniqueness(storage, ToCheck);
  }
}
