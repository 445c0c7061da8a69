# dias storage and command-line core, in Dafny

A model of the core of `dias`, a Rust library that gives a program the same storage and
command-line interface on the desktop and in the browser. Two parts are modelled:

- **Storage.** Storage is reached through capability traits: a `Storage` hands out root
  directories (`data`, `config`, `cache`), a directory hands out subdirectories and files,
  and a file can be tested, read, written and removed. Read-only handles cannot write.
  Two backends are modelled:
  - the **memory backend**, a map from path strings to shared byte cells;
  - the **browser backend**, a flat string-to-string store (`localStorage`).

  Both build keys the same way: a root is `name/`, `subdir` appends `name/`, and `file`
  appends `name`. The `BoxableFile`/`BoxableDir` adapters forward every operation to the
  handle they wrap.
- **Command-line parsing.** Flags and options are registered one at a time, and each
  registration returns an id. Three parsers are modelled:
  - the **standard** parser, a token loop over the `lexopt` lexer: the first matching handler
    wins, a later occurrence overwrites an earlier one, and every failure has its own error;
  - the **web** parser, which looks up each argument's names in the URL parameters;
  - the **dummy** parser, which only counts registrations.

Layout, module by module:

| file | module | models |
|---|---|---|
| `io.dfy` | `Io` | `std::io` results and error kinds, `Option`, `Result`, bytes |
| `utf8.dfy` | `Utf8` | `str::as_bytes` / `str::from_utf8`, with both round trips proved |
| `streams.dfy` | `Streams` | `std::io::Cursor` read, `read_to_end`, `read_to_string` |
| `file_sys.dfy` | `MemoryFileSys` | `MemoryFile`, `FileSystem`, and `Shared` as a shared reference |
| `readers_writers.dfy` | `MemoryStreams` | the memory `StorageReader` / `StorageWriter` |
| `storage_api.dfy` | `StorageApi` | `OuterDirectoryError`, the three roots, read-only vs writable access |
| `paths.dfy` | `Paths` | the key scheme and its injectivity |
| `memory_storage.dfy` | `MemoryStorage` | memory `File`, `Dir`, `MemoryStorage` |
| `web_sys.dfy` | `WebSys` | the browser's `Storage` object (`get_item`, `set_item`, `remove_item`) as a class over a map |
| `text_values.dfy` | `WebTextValues` | the browser `TextStorageReader` / `TextStorageWriter` |
| `web_storage.dfy` | `WebStorage` | browser `File`, `Dir`, `Storage` and `Storage::new` |
| `capabilities.dfy` | `Capabilities` | the storage traits, as sums over the two backends |
| `boxable.dfy` | `Boxable` | `BoxableFile` and `BoxableDir`; the `Box<_>` forwarding impls have no member of their own, since boxing a handle is the identity in the model |
| `storage_tests.dfy` | `StorageTests` | the `text_file`, `binary_file` and `file_uniqueness` scripts |
| `cmd_line.dfy` | `CmdLine` | `ArgId`, `ParsingError` and its `Display`, the `i32`/`String` value parsers |
| `lexer.dfy` | `Lexopt` | the `lexopt` lexer, as a token source with `next` and `value` |
| `standard_parser.dfy` | `StandardParser` | `cmd_line/standard.rs` |
| `web_parser.dfy` | `WebParser` | `cmd_line/web.rs` |
| `dummy_parser.dfy` | `DummyParser` | `cmd_line/dummy.rs` and its tests |
| `cmd_line_tests.dfy` | `CmdLineTests` | the generic parser tests, run on the standard and web parsers |

How the model is specified:

- **Storage state.** Each backend exposes a ghost `Observe(path)` view: the bytes a reader of
  `path` would see, or `None`. Every storage operation states its effect on that view: what
  the path holds afterwards, and that every other path is unchanged.
- **Parsers.** Each parser class is proved against a functional specification:
  - the standard parser's `ParseLexopt` loop equals `StandardParser.ParseFrom`;
  - the web parser's `ParseUrlParams` equals `WebParser.ParseUrl`.

  The properties of the parsers are then proved as lemmas about those functions.
- **Test scripts.** They become methods whose postconditions are the scripts' assertions,
  for every storage of either backend.

Three behaviours of the code worth noting:

- Reading a browser key that does not exist fails with error kind `Other`
  (`src/storage/web/text_values.rs:9-21`), not `NotFound`.
- `binary_file` in `src/storage/generic.rs:107-138` is a copy of `text_file`: it calls
  `write_text`/`read_text` too. `StorageTests.TextFile` therefore models both scripts.
- A memory writer holds its file's cell, not its path. When the file is removed while the
  writer is open, the flush still succeeds, into a cell no path reaches, and the path stays
  absent (`src/storage/memory/readers_writers.rs:44-54`). A browser writer holds the key,
  so its flush stores the key again (`src/storage/web/text_values.rs:51-58`).
  `StorageTests.RemoveWhileWriting` shows both.

## Model

| member | source | states |
|---|---|---|
| MemoryFileSys.MemoryFile.constructor | src/storage/memory/file_sys.rs:36-46 | a new cell holds no bytes |
| MemoryFileSys.FileSystem.constructor | src/storage/memory/file_sys.rs:52-57 | a new filesystem holds no path: every path observes `None` |
| MemoryFileSys.FileSystem.Exists | src/storage/memory/file_sys.rs:59-61 | true exactly when the path has an entry |
| MemoryFileSys.FileSystem.Get | src/storage/memory/file_sys.rs:63-68 | succeeds exactly when the path is present; it then returns the stored cell itself, not a copy; otherwise fails with `NotFound` and changes nothing |
| MemoryFileSys.FileSystem.GetOrCreate | src/storage/memory/file_sys.rs:70-76 | never fails. An absent path gets a fresh empty cell. A present path keeps its cell and its contents, and the map is unchanged. Other keys never change |
| MemoryFileSys.FileSystem.Remove | src/storage/memory/file_sys.rs:78-81 | always `Ok`; deletes only that path and leaves every other entry, even when the path was absent |
| MemoryFileSys.GetOrCreateObserved | src/storage/memory/file_sys.rs:70-76 | after `get_or_create` the path exists. It observes its old bytes, or the empty sequence if it was new; no other path changes |
| MemoryFileSys.RemoveTwice | src/storage/memory/file_sys.rs:78-81 | removing a path twice succeeds both times and leaves it absent, other paths unchanged |
| MemoryFileSys.SharedClonesAlias | src/storage/memory/file_sys.rs:28-34 | after writing bytes through the cell returned for a path, looking the path up again observes those bytes: the map hands out the shared cell, not a copy |
| Streams.Cursor.Read | src/storage/memory/readers_writers.rs:19-23 | a read returns the next `min(n, remaining)` bytes in order, and the rest stays for later reads |
| Streams.ReadToEnd | src/storage/memory/readers_writers.rs:19-23 | reading to the end yields exactly the remaining bytes, in order, whatever the chunk size |
| Utf8.DecodeIffEncode | src/storage/web/text_values.rs:51-54 | `from_utf8` gives a string exactly when the bytes are that string's UTF-8 encoding |
| Utf8.EncodeInjective | src/storage/web/text_values.rs:9-21 | a string's bytes are always valid UTF-8, and two strings have the same bytes exactly when they are equal |
| Streams.ReadToString | src/storage/generic.rs:86-87 | `read_to_string` succeeds exactly when the remaining bytes are UTF-8, and returns the string that encodes to them; otherwise `InvalidData` |
| MemoryStreams.StorageReader.constructor | src/storage/memory/readers_writers.rs:8-16 | a reader starts on a fresh copy of the cell's contents at the time it is opened |
| MemoryStreams.StorageReader.Read | src/storage/memory/readers_writers.rs:19-23 | reads the snapshot in order |
| MemoryStreams.SnapshotSurvivesFlush | src/storage/memory/readers_writers.rs:8-16 | an open reader still yields the old contents after a writer has flushed new contents to the same cell |
| MemoryStreams.StorageWriter.constructor | src/storage/memory/readers_writers.rs:30-36 | a new writer has an empty buffer and leaves the cell untouched |
| MemoryStreams.StorageWriter.Write | src/storage/memory/readers_writers.rs:40-42 | appends all the bytes to the private buffer, returns their count and leaves the cell untouched |
| MemoryStreams.StorageWriter.Flush | src/storage/memory/readers_writers.rs:44-54 | the cell then holds exactly the buffered bytes, and the buffer is empty |
| MemoryStreams.StorageWriter.Drop | src/storage/memory/readers_writers.rs:57-61 | dropping a writer flushes it |
| MemoryStreams.FlushTwice | src/storage/memory/readers_writers.rs:50-52 | a second flush with no write in between empties the cell |
| MemoryStreams.WritesThenDrop | src/storage/memory/readers_writers.rs:39-61 | two writes then a drop leave the concatenation of both in the cell |
| StorageApi.OuterDirectoryError.ToString | src/storage/generic.rs:6-15 | the only root error renders as `NotAvailable` |
| StorageApi.Root.Name | src/storage/memory/storage.rs:150-172 | every root name is nonempty and has no `/` |
| StorageApi.RootNamesDistinct | src/storage/memory/storage.rs:150-172 | the three roots have pairwise distinct names |
| Paths.FilePath | src/storage/memory/storage.rs:19-27 | a file path is the parent path followed by the name |
| Paths.DirPath | src/storage/memory/storage.rs:75-84 | a directory path is the parent path, the name, then `/` |
| Paths.RootPath | src/storage/memory/storage.rs:150-172 | a root's path is its name followed by `/` |
| Paths.SplitKey | src/storage/memory/storage.rs:19-27 | splitting a well-formed key at `/` gives back the root, directory and file names it was built from |
| Paths.KeyInjective | src/storage/generic.rs:140-185 | for names with no `/`, two addresses share a key exactly when they are equal |
| Paths.SeparatorInNameCollides | src/storage/web/storage.rs:49-57 | without that condition keys collide: file `b` in `a/` and file `a/b` in the root share `data/a/b` |
| MemoryStorage.FileHandle.Exists | src/storage/memory/storage.rs:34-40 | never fails, and is true exactly when the path holds bytes |
| MemoryStorage.FileHandle.ReadText | src/storage/memory/storage.rs:42-44 | succeeds exactly when the path exists, and the reader yields its bytes; otherwise `NotFound` |
| MemoryStorage.FileHandle.ReadBinary | src/storage/memory/storage.rs:46-48 | the same outcome and bytes as `ReadText` |
| MemoryStorage.FileHandle.Remove | src/storage/memory/storage.rs:55-57 | always `Ok`; the path's entry is dropped from the map, so it observes `None` afterwards, every other path unchanged |
| MemoryStorage.FileHandle.WriteText | src/storage/memory/storage.rs:59-61 | opening a writer creates the entry at once, so the path exists, empty if it was new, before any flush; the writer aims at that entry's cell; other paths are unchanged |
| MemoryStorage.FileHandle.WriteBinary | src/storage/memory/storage.rs:63-65 | the same as `WriteText` |
| MemoryStorage.DirHandle.File | src/storage/memory/storage.rs:90-92 | same filesystem and access, path `dir + name` |
| MemoryStorage.DirHandle.Subdir | src/storage/memory/storage.rs:98-100 | same filesystem and access, path `dir + name + "/"` |
| MemoryStorage.DirHandle.IntoLeaf | src/storage/memory/storage.rs:102-104 | the handle itself |
| MemoryStorage.DirHandle.WritableFile | src/storage/memory/storage.rs:110-112 | the same handle as `File`, writable |
| MemoryStorage.DirHandle.WritableSubdir | src/storage/memory/storage.rs:118-120 | the same handle as `Subdir`, writable |
| MemoryStorage.DirHandle.IntoWritableLeaf | src/storage/memory/storage.rs:122-124 | the handle itself |
| MemoryStorage.MemoryStorage.constructor | src/storage/memory/storage.rs:139-143 | a fresh, empty filesystem |
| MemoryStorage.MemoryStorage.Outer | src/storage/memory/storage.rs:150-172 | a root never fails, and lies over the storage's own filesystem at the root's path |
| MemoryStorage.MemoryStorage.Data | src/storage/memory/storage.rs:150-152 | read-only `data/` over the shared filesystem |
| MemoryStorage.MemoryStorage.Config | src/storage/memory/storage.rs:154-156 | read-only `config/` |
| MemoryStorage.MemoryStorage.Cache | src/storage/memory/storage.rs:158-160 | read-only `cache/` |
| MemoryStorage.MemoryStorage.WritableData | src/storage/memory/storage.rs:162-164 | writable `data/` |
| MemoryStorage.MemoryStorage.WritableConfig | src/storage/memory/storage.rs:166-168 | writable `config/` |
| MemoryStorage.MemoryStorage.WritableCache | src/storage/memory/storage.rs:170-172 | writable `cache/` |
| MemoryStorage.NavigateDirPath | src/storage/memory/storage.rs:98-100 | any chain of `subdir` calls from a root reaches the directory path of the names, in order |
| MemoryStorage.NavigatedPath | src/storage/memory/storage.rs:90-100 | a root, then `subdir`s, then `file` reach exactly the key of that address |
| WebSys.WebStorageArea.GetItem | src/storage/web/storage.rs:26-31 | fails exactly when the store throws; otherwise gives the stored value of a present key, or nothing |
| WebSys.WebStorageArea.SetItem | src/storage/web/text_values.rs:51-58 | sets the key unless the store throws, in which case nothing changes |
| WebSys.WebStorageArea.RemoveItem | src/storage/web/storage.rs:33-37 | deletes the key unless the store throws, in which case nothing changes |
| WebStorage.WebStorageAvailabilityError.ToString | src/storage/web/storage.rs:12-22 | each error renders as its own name |
| WebStorage.KeyExists | src/storage/web/storage.rs:26-31 | true exactly when the store holds the key; a store error becomes an `Other` I/O error |
| WebStorage.RemoveKey | src/storage/web/storage.rs:33-37 | deletes exactly that key; a store error becomes an `Other` I/O error and changes nothing |
| WebStorage.FileHandle.Exists | src/storage/web/storage.rs:64-66 | true exactly when the store holds the file's key; fails exactly when the store throws |
| WebStorage.FileHandle.ReadText | src/storage/web/storage.rs:68-70 | succeeds exactly when the store is reachable and holds the key, and the reader yields the value's bytes; otherwise `Other` |
| WebStorage.FileHandle.Remove | src/storage/web/storage.rs:81-83 | afterwards the key is absent, unless the store threw, which fails with `Other` and "cannot remove value"; other keys are unchanged |
| WebStorage.FileHandle.WriteText | src/storage/web/storage.rs:85-87 | opening a writer touches no key; the writer aims at the file's key with an empty buffer |
| WebStorage.WriterOpensNothing | src/storage/web/storage.rs:85-87 | a key that was absent is still absent after a writer is opened on it |
| WebStorage.DirHandle.File | src/storage/web/storage.rs:116-118 | same store and access, key `dir + name` |
| WebStorage.DirHandle.Subdir | src/storage/web/storage.rs:124-126 | same store and access, key prefix `dir + name + "/"` |
| WebStorage.DirHandle.IntoLeaf | src/storage/web/storage.rs:128-130 | the handle itself |
| WebStorage.DirHandle.WritableFile | src/storage/web/storage.rs:136-138 | the same key as `File`, writable |
| WebStorage.DirHandle.WritableSubdir | src/storage/web/storage.rs:144-146 | the same prefix as `Subdir`, writable |
| WebStorage.DirHandle.IntoWritableLeaf | src/storage/web/storage.rs:148-150 | the handle itself |
| WebStorage.Storage.New | src/storage/web/storage.rs:158-166 | `NoWindow` without a window; `NoLocalStorage` when `local_storage()` throws or gives nothing; otherwise a storage over the window's store |
| WebStorage.Storage.Outer | src/storage/web/storage.rs:173-219 | a root never fails, over the same store at the root's prefix |
| WebStorage.Storage.Data | src/storage/web/storage.rs:173-179 | read-only `data/` |
| WebStorage.Storage.Config | src/storage/web/storage.rs:181-187 | read-only `config/` |
| WebStorage.Storage.Cache | src/storage/web/storage.rs:189-195 | read-only `cache/` |
| WebStorage.Storage.WritableData | src/storage/web/storage.rs:197-203 | writable `data/` |
| WebStorage.Storage.WritableConfig | src/storage/web/storage.rs:205-211 | writable `config/` |
| WebStorage.Storage.WritableCache | src/storage/web/storage.rs:213-219 | writable `cache/` |
| WebStorage.NavigateDirPath | src/storage/web/storage.rs:101-110 | any chain of `subdir` calls from a root reaches the key prefix of the names, in order |
| WebStorage.NavigatedPath | src/storage/web/storage.rs:116-126 | a root, `subdir`s and `file` reach exactly the key of that address, the same key as the memory backend |
| WebTextValues.NewTextStorageReader | src/storage/web/text_values.rs:9-21 | succeeds exactly when the store is reachable and holds the key. A missing key and a store error fail alike, with `Other`. The reader yields the stored value's bytes |
| WebTextValues.TextStorageReader.constructor | src/storage/web/text_values.rs:9-21 | the cursor starts on the bytes of the value read at creation |
| WebTextValues.TextStorageReader.Read | src/storage/web/text_values.rs:24-28 | reads those bytes in order |
| WebTextValues.NewTextStorageWriter | src/storage/web/text_values.rs:37-43 | never fails; empty buffer, aimed at the key, store untouched |
| WebTextValues.TextStorageWriter.constructor | src/storage/web/text_values.rs:37-43 | empty buffer and the store unchanged |
| WebTextValues.TextStorageWriter.Write | src/storage/web/text_values.rs:47-49 | appends every byte to the buffer and returns the count; the store is unchanged |
| WebTextValues.TextStorageWriter.Flush | src/storage/web/text_values.rs:51-58 | on a UTF-8 buffer, sets the key to the decoded buffer and only that key. On invalid UTF-8, or when the store throws, fails with `Other` and changes nothing. The buffer is kept either way |
| WebTextValues.TextStorageWriter.Drop | src/storage/web/text_values.rs:61-65 | dropping flushes and ignores the error |
| WebTextValues.FlushTwiceKeepsBuffer | src/storage/web/text_values.rs:51-58 | writing `a`, flushing, writing `b`, flushing stores `a + b`: the whole content since the writer opened |
| Capabilities.AnyStorage.Outer | src/storage/generic.rs:58-67 | either backend's roots never fail and share the storage's state |
| Capabilities.AnyDir.File | src/storage/generic.rs:36-39 | same state and access, path `dir + name` |
| Capabilities.AnyDir.WritableFile | src/storage/generic.rs:41-44 | callable only on a writable directory; the same file as `file` |
| Capabilities.AnyDir.Subdir | src/storage/generic.rs:46-50 | same state and access, path `dir + name + "/"` |
| Capabilities.AnyDir.WritableSubdir | src/storage/generic.rs:52-56 | callable only on a writable directory; the same directory as `subdir` |
| Capabilities.AnyDir.IntoLeaf | src/storage/generic.rs:46-50 | the handle itself |
| Capabilities.AnyDir.IntoWritableLeaf | src/storage/generic.rs:52-56 | callable only on a writable directory; the handle itself, still writable |
| Capabilities.AnyFile.Exists | src/storage/generic.rs:19-25 | fails only when the store is unreachable, with `Other`; otherwise true exactly when the path is observed |
| Capabilities.AnyFile.ReadText | src/storage/generic.rs:19-25 | the backend's read outcome: the path's bytes, or the backend's error kind |
| Capabilities.AnyFile.ReadBinary | src/storage/generic.rs:19-25 | the same outcome as `read_text` (memory backend) |
| Capabilities.AnyFile.Remove | src/storage/generic.rs:27-34 | callable only on a writable file; afterwards the path is unobserved unless the store is unreachable, which fails with kind `Other` and changes nothing; other paths are unchanged; the memory backend drops exactly the path's entry |
| Capabilities.AnyFile.WriteText | src/storage/generic.rs:27-34 | callable only on a writable file. Opens a writer with an empty buffer aimed at the path. The memory backend creates the entry at once, the browser backend writes nothing; other paths are unchanged |
| Capabilities.AnyFile.WriteBinary | src/storage/generic.rs:27-34 | the same as `write_text` (memory backend) |
| Capabilities.AnyWriter.Write | src/storage/memory/readers_writers.rs:39-42 | either backend's writer appends every byte to its buffer |
| Capabilities.AnyWriter.Flush | src/storage/web/text_values.rs:51-58 | `Ok` exactly when the flush can succeed. A writer still aimed at its path then leaves the buffered bytes there; a failure leaves the path unchanged, with kind `Other`. A memory writer whose entry was removed (detached) changes no path. Other paths never change. The memory writer empties its buffer, the browser writer keeps it |
| Capabilities.AnyWriter.Drop | src/storage/memory/readers_writers.rs:57-61 | a drop is a flush whose error is ignored: an aimed writer whose flush can succeed leaves its buffer at the path, otherwise the path is unchanged, and a detached writer changes no path |
| Boxable.BoxableFile.From | src/storage/boxable.rs:65-69 | wraps the source unchanged: same state, path and access |
| Boxable.BoxableFile.Exists | src/storage/boxable.rs:80-82 | the source's `exists` result, unchanged |
| Boxable.BoxableFile.ReadText | src/storage/boxable.rs:84-88 | succeeds exactly when the source's read does, with the same error, and the reader yields the same bytes |
| Boxable.BoxableFile.ReadBinary | src/storage/boxable.rs:90-94 | the source's `read_binary` outcome and bytes |
| Boxable.BoxableFile.Remove | src/storage/boxable.rs:108-110 | the source's `remove`, same result and effect, failing only with kind `Other` |
| Boxable.BoxableFile.WriteText | src/storage/boxable.rs:112-116 | the source's `write_text`: a writer with an empty buffer aimed at the same path, with the same effect on the store |
| Boxable.BoxableFile.WriteBinary | src/storage/boxable.rs:118-122 | the source's `write_binary` writer |
| Boxable.BoxableDir.From | src/storage/boxable.rs:151-155 | wraps the source directory unchanged |
| Boxable.BoxableDir.File | src/storage/boxable.rs:163-165 | wraps the source's `file(name)` |
| Boxable.BoxableDir.WritableFile | src/storage/boxable.rs:174-176 | wraps the source's `writable_file(name)` |
| Boxable.Boxability | src/storage/boxable.rs:184-204 | all four boxed handles to `data/test` reach the same path and storage, two read-only and two writable |
| StorageTests.ReadAll | src/storage/generic.rs:86-87 | `read_text` plus `read_to_string` succeed exactly when the read does and the bytes are UTF-8, and return their text |
| StorageTests.WriteAll | src/storage/generic.rs:78-84 | `write_text`, `write_all` and the drop leave the path holding the bytes whenever the flush can succeed: always on the memory backend, and on a reachable browser store for UTF-8 bytes. No other path changes |
| StorageTests.WriteThenRead | src/storage/generic.rs:77-88 | after writing a text, the same handle sees the file exist and reads the text back |
| StorageTests.ExistsThenRead | src/storage/generic.rs:90-94 | any handle to a path holding a text sees it exist and reads the text back |
| StorageTests.RemoveThenCheck | src/storage/generic.rs:96-101 | a file that existed no longer exists after `remove`, other paths unchanged |
| StorageTests.RemoveWhileWriting | src/storage/memory/readers_writers.rs:44-54 | for a writer opened before `remove`: in memory the flush succeeds and the path stays absent; in the browser, with a reachable store and UTF-8 bytes, the flush stores the bytes under the key again. Other paths are unchanged |
| StorageTests.TextFile | src/storage/generic.rs:74-105 | on any storage of either backend, `text_file` passes. Both handles read `hello world`, and the file is gone from both after `remove` |
| StorageTests.KeysApart | src/storage/generic.rs:140-185 | distinct valid entries have distinct keys |
| StorageTests.WriteNext | src/storage/generic.rs:156-168 | writing entry `i` keeps the texts of the entries written before it |
| StorageTests.WriteEntries | src/storage/generic.rs:156-168 | after the first loop, every entry's file holds its own text |
| StorageTests.ReadEntries | src/storage/generic.rs:170-184 | the second loop reads back each entry's own text, in order |
| StorageTests.FileUniqueness | src/storage/generic.rs:140-185 | for any list of distinct valid entries, every file reads back its own text: no two entries share storage |
| StorageTests.ToCheckDistinct | src/storage/generic.rs:142-155 | the twelve `to_check` entries are valid and pairwise distinct |
| StorageTests.FileUniquenessScript | src/storage/generic.rs:140-185 | the script on its twelve entries passes on any storage of either backend |
| CmdLine.DisplayMessage | src/cmd_line/generic.rs:75-96 | each message starts with its variant's whole fixed text. For `ParsingFailed` and `UnknownValue` that text is the whole message. For `UnknownOption` and `MissingValue` the argument's name follows it, and for `ValueParsingFailed` the name, `": "` and the inner error |
| CmdLine.DisplayShowsKind | src/cmd_line/generic.rs:75-96 | two errors with the same message are of the same variant |
| CmdLine.DisplayInjective | src/cmd_line/generic.rs:75-96 | apart from `ValueParsingFailed`, two errors render alike exactly when they are equal, so the name is shown |
| CmdLine.ValueParsingFailedAmbiguous | src/cmd_line/generic.rs:80-84 | `ValueParsingFailed` messages can coincide for different name/error splits |
| CmdLine.ScanDigitsMeaning | src/cmd_line/generic.rs:159 | the digit scan succeeds exactly on a string of ASCII digits whose value fits in `i32` with its sign, and returns that signed value |
| CmdLine.ParseI32Meaning | src/cmd_line/generic.rs:159 | `str::parse::<i32>` accepts exactly an optional sign followed by a nonempty run of digits that fits in `i32`, and returns its value |
| CmdLine.ParseI32RoundTrip | src/cmd_line/generic.rs:166-170 | the decimal text of every `i32` parses back to it |
| CmdLine.ParseI32Overflow | src/cmd_line/generic.rs:159 | the decimal text of any integer outside `i32` fails |
| CmdLine.ParseI32RejectsLetters | src/cmd_line/generic.rs:190-197 | text containing a lowercase letter fails, as `abc` does in the test |
| CmdLine.ParseString | src/cmd_line/standard.rs:149-159 | `String::from_str` never fails and keeps the text |
| Lexopt.Lexer.constructor | src/cmd_line/standard.rs:92 | the lexer starts on the whole command line, with nothing pending |
| Lexopt.NextArg | src/cmd_line/standard.rs:99-101 | `next` fails exactly when a long option's attached value was left untaken. It gives nothing exactly when the line is used up, and otherwise hands out an item and consumes input |
| Lexopt.Lexer.Next | src/cmd_line/standard.rs:99-101 | the lexer's `next` computes exactly `NextArg`: same result, same state afterwards |
| Lexopt.TakeValue | src/cmd_line/standard.rs:61-65 | `value` fails exactly when nothing is left. Otherwise it gives the pending attached value, or the next item's raw text |
| Lexopt.Lexer.Value | src/cmd_line/standard.rs:61-65 | the lexer's `value` computes exactly `TakeValue` |
| Lexopt.ValueTakesOptionText | src/cmd_line/standard.rs:61-65 | `value` takes an option-looking item as the value: `-x` and `--name` come back as that text |
| StandardParser.MatchArg | src/cmd_line/standard.rs:23-29 | matches `Short(c)` exactly when `c` is a short name and `Long(s)` exactly when `s` is a long name, returning that name; never matches a value |
| StandardParser.FirstMatch | src/cmd_line/standard.rs:103-107 | a token goes to the first registered handler that matches it, and none before it matches; with no result, no handler matches |
| StandardParser.Unmatched | src/cmd_line/standard.rs:99-116 | an unmatched short or long name gives `UnknownOption` with that name; an unmatched value gives `UnknownValue` |
| StandardParser.GetValueSpec | src/cmd_line/standard.rs:31-33 | a flag's value is `true` and consumes nothing |
| StandardParser.Step | src/cmd_line/standard.rs:95-120 | a step that yields a value names a registered handler and consumes input |
| StandardParser.ParseFrom | src/cmd_line/standard.rs:122-132 | a successful parse has one slot per handler |
| StandardParser.Unset | src/cmd_line/standard.rs:124 | the starting slots: one per handler, all empty |
| StandardParser.Parsed.Get | src/cmd_line/standard.rs:189-193 | `get(id)` is exactly slot `id` |
| StandardParser.Parse | src/cmd_line/standard.rs:87-93 | a successful parse has one slot per registered argument |
| StandardParser.Parser.constructor | src/cmd_line/standard.rs:83-85 | no argument registered |
| StandardParser.Parser.AddFlag | src/cmd_line/standard.rs:139-147 | the id is the number of handlers before the call, and exactly one flag handler is appended |
| StandardParser.Parser.AddOption | src/cmd_line/standard.rs:149-159 | the same, with the type's `FromStr` parser |
| StandardParser.Parser.AddOptionWith | src/cmd_line/standard.rs:161-175 | the same, with the given parser |
| StandardParser.Parser.GetValue | src/cmd_line/standard.rs:56-75 | the handler's value and the lexer state afterwards are those of the specification |
| StandardParser.Parser.ParseNext | src/cmd_line/standard.rs:95-120 | the handler loop with its early return computes exactly `Step` |
| StandardParser.Parser.ParseLexopt | src/cmd_line/standard.rs:122-132 | the token loop computes exactly `ParseFrom` from all-empty slots: same success, values and error |
| StandardParser.Parser.ParseArgs | src/cmd_line/standard.rs:87-93 | the parse of a command line is `Parse` of the registered handlers |
| StandardParser.ParseNoArgs | src/cmd_line/generic.rs:115-117 | with no arguments every slot is `None` |
| StandardParser.FlagsOnly | src/cmd_line/generic.rs:119-139 | on a command line of flags only, the parse succeeds. Exactly the flags named on it are `true`, and every other slot keeps its value |
| StandardParser.UnknownToken | src/cmd_line/standard.rs:99-116 | a token no handler accepts ends the parse with `UnknownOption(name)` or `UnknownValue` |
| StandardParser.OptionGiven | src/cmd_line/standard.rs:56-75 | an option and its value: a failing value parser stops the parse with `ValueParsingFailed` and the matched name; otherwise the slot gets the value and the parse goes on |
| StandardParser.OptionMissingValue | src/cmd_line/standard.rs:62-65 | an option at the end of the line gives `MissingValue` with the matched name |
| StandardParser.OptionNonUnicode | src/cmd_line/standard.rs:66-70 | a value that is not UTF-8 gives `ValueParsingFailed` with the matched name |
| StandardParser.OptionOverwritten | src/cmd_line/standard.rs:122-131 | an option given twice, under one name or two of its names, keeps the later value, and the parse goes on with the rest of the line from there |
| StandardParser.PlainValueUnknown | src/cmd_line/standard.rs:115 | a plain value in option position gives `UnknownValue` |
| StandardParser.FlagTakesNoValue | src/cmd_line/standard.rs:254-268 | a value after a flag is not consumed, so it gives `UnknownValue` |
| StandardParser.FlagWithAttachedValue | src/cmd_line/standard.rs:99-101 | `--flag=value` is a lexer error, reported as `ParsingFailed` |
| WebParser.ShortNames | src/cmd_line/web.rs:21-25 | each short name as a one-character parameter name, in order |
| WebParser.AnyPresent | src/cmd_line/web.rs:18-29 | true exactly when some name is present |
| WebParser.FlagGet | src/cmd_line/web.rs:18-29 | a flag is `Some(true)` exactly when one of its short or long names is present, otherwise `None` |
| WebParser.GetName | src/cmd_line/web.rs:44-63 | an absent name gives nothing; a present one gives its parsed value, or `ValueParsingFailed` with that name |
| WebParser.FirstGiven | src/cmd_line/web.rs:72-84 | the first present name in order decides, with its value or error; with none present, `None` |
| WebParser.HandlerGetMeaning | src/cmd_line/web.rs:18-84 | a handler none of whose names is present gives no value. A flag's `get` never fails, and its value is `true`. An option's failure is `ValueParsingFailed` naming one of its own names |
| WebParser.ParseUrl | src/cmd_line/web.rs:103-110 | one slot per handler in order. Succeeds exactly when every handler does, each slot being that handler's value. On failure, the error is that of the first failing handler |
| WebParser.Parsed.Get | src/cmd_line/web.rs:173-177 | `get(id)` is exactly slot `id` |
| WebParser.Parser.constructor | src/cmd_line/web.rs:91-94 | no argument registered |
| WebParser.Parser.AddFlag | src/cmd_line/web.rs:117-125 | the id is the number of handlers before the call, and exactly one flag handler is appended |
| WebParser.Parser.AddOption | src/cmd_line/web.rs:127-137 | the same, with the type's `FromStr` parser |
| WebParser.Parser.AddOptionWith | src/cmd_line/web.rs:139-153 | the same, with the given parser |
| WebParser.Parser.ParseUrlParams | src/cmd_line/web.rs:103-110 | the registered handlers' `ParseUrl`: same success, slots and error |
| WebParser.FirstGivenAgree | src/cmd_line/web.rs:72-84 | an option's result depends only on its own names' parameters |
| WebParser.FlagGetAgree | src/cmd_line/web.rs:18-29 | a flag's result depends only on its own names' parameters |
| WebParser.UnknownParamsIgnored | src/cmd_line/web.rs:103-110 | two parameter sets that agree on every registered name parse alike |
| WebParser.ExtraParamIgnored | src/cmd_line/web.rs:103-110 | adding a parameter that no handler names never changes the result, so it never causes an error |
| DummyParser.DummyParsed.Get | src/cmd_line/dummy.rs:73-75 | `get` is `None` for every id |
| DummyParser.Parser.constructor | src/cmd_line/dummy.rs:13-15 | no argument counted |
| DummyParser.Parser.AddFlag | src/cmd_line/dummy.rs:22-26 | returns the current count and adds one |
| DummyParser.Parser.AddOption | src/cmd_line/dummy.rs:28-38 | shares the same counter |
| DummyParser.Parser.AddOptionWith | src/cmd_line/dummy.rs:40-53 | shares the same counter |
| DummyParser.Parser.Parse | src/cmd_line/dummy.rs:55-57 | `parse` always succeeds |
| DummyParser.DummyFlags | src/cmd_line/dummy.rs:83-92 | the `flags` test: ids 0 and 1, neither with a value |
| DummyParser.DummyOptions | src/cmd_line/dummy.rs:94-103 | the `options` test: ids 0 and 1, neither with a value |
| CmdLineTests.FlagPairLine | src/cmd_line/generic.rs:110-140 | for any line of `f`/`foo`/`b`/`bar` flags, each flag is `true` exactly when one of its names appears |
| CmdLineTests.StandardFlags | src/cmd_line/generic.rs:110-140 | the `flags` test on the standard parser: ids 0 and 1, and the seven lines give the expected slots |
| CmdLineTests.StandardFlagsUnknown | src/cmd_line/generic.rs:142-155 | `--baz` and `-x` give `UnknownOption("baz")` and `UnknownOption("x")` |
| CmdLineTests.StandardOptions | src/cmd_line/generic.rs:157-198 | the `options` test on the standard parser: the seven lines give the expected values, and `--foo abc --123` gives `ValueParsingFailed` for `foo` |
| CmdLineTests.StandardOptionsUnknown | src/cmd_line/generic.rs:200-213 | `--baz 123` and `-x 123` give `UnknownOption` with those names |
| CmdLineTests.StandardOptionsMissingValue | src/cmd_line/generic.rs:215-223 | `--foo` alone gives `MissingValue("foo")` |
| CmdLineTests.StandardExtraValue | src/cmd_line/standard.rs:254-268 | `--foo 123 abc` and `--bar abc` give `UnknownValue` |
| CmdLineTests.WebFlagPair | src/cmd_line/web.rs:18-29 | for any parameters, each flag of the pair is `true` exactly when one of its names is present |
| CmdLineTests.WebOptionPair | src/cmd_line/web.rs:72-84 | for any parameters, each option of the pair takes its long name first, then its short name; only the `i32` option can fail |
| CmdLineTests.WebFlags | src/cmd_line/web.rs:208-212 | the `flags` test on the web parser: the seven lines give the expected slots |
| CmdLineTests.WebOptions | src/cmd_line/web.rs:213-216 | the `options` test on the web parser: the seven lines give the expected values, and `foo=abc&123` gives `ValueParsingFailed` for `foo` |

## Left out

- Lock poisoning and `RwLock` concurrency in `Shared` (`src/storage/memory/file_sys.rs:15-25`). `Shared` is a plain shared reference, so memory operations never fail with `Other`.
- The web backend's binary reader and writer: their source (`binary_values`) is not part of this model. `Capabilities.AnyFile.ReadBinary` and `Capabilities.AnyFile.WriteBinary` therefore require the memory backend.
- Capabilities.AnyFile.ReadBinary: stated only for the memory backend, because the web binary values are not part of this model.
- Capabilities.AnyFile.WriteBinary: stated only for the memory backend, because the web binary values are not part of this model.
- Boxable.BoxableFile.ReadBinary: stated only for a wrapped memory file, because the web binary values are not part of this model.
- Boxable.BoxableFile.WriteBinary: stated only for a wrapped memory file, because the web binary values are not part of this model.
- The `Box<F>` and `Box<D>` forwarding impls (`src/storage/boxable.rs:21-59`, `src/storage/boxable.rs:125-145`): boxing is the identity in the model, so they have no member. A boxed handle is the handle itself.
- `add_option` accepts any `T: FromStr`, and a value can be any `'static` type. The model has two `FromStr` types (`i32` and `String`, the ones the tests use) and three value tags (`bool`, integer, string). `add_option_with` takes any parser returning one of those tags.
- The browser's `localStorage` errors, quota errors included, are one `denied` flag on the store: either every call throws or none does.
- `std::io` internals. A reader is a byte sequence consumed in order, `write` always takes every byte, and `write_all` is one `write`.
- The storage traits are closed sums over the two in-repo backends (`Capabilities`), not open traits, so a third backend would need a new case. The read-only/writable split is an access tag, checked by preconditions rather than by types.
- The standard (desktop) storage backend, `make_storage`, `availability.rs`, `config` and `exit`. They are OS filesystem wrappers, platform selection or serialization through foreign libraries.
- lexopt's own tokenizing. The model takes the command line as already lexed items, so short-option clusters (`-fb`), `-fVALUE`, `--` and the program name are not modelled. `args_os` is not modelled either.
- `UrlSearchParams` parsing and `window().location()`. Parameters are a map holding each name's first value, so a repeated parameter is seen once.
- The `Box<dyn Any>` downcast in `get` and its "wrong type" panic. Values are a tagged datatype instead.
- A value that is not UTF-8 is reported with the message's fixed text only (`NonUnicodeText`). The `Debug` rendering of the raw bytes that follows it in the source is not modelled.
- `ParsingError::Display` is modelled as a function. Its properties are stated as lemmas (`CmdLine.DisplayMessage`, `CmdLine.DisplayShowsKind`, `CmdLine.DisplayInjective`) rather than as a contract of its own.
- `str::parse::<i32>` (Rust's standard library) is modelled as a function over the text, not as the library's code.
- The command-line `Parser`/`Parsed` traits are three separate classes, one per parser, with the same method contracts.
- `Parser::parse` of the standard and web parsers reads the process arguments or the page URL. The model starts from the items (`ParseArgs`) and from the parameters (`ParseUrlParams`).
