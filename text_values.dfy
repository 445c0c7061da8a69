/** The web backend's text streams. A reader holds the stored string as found at
    creation; a writer collects bytes and, on every flush, stores all of them (it never
    clears its buffer) once they decode as UTF-8. */
module WebTextValues {
  import opened Io
  import Utf8
  import opened Streams
  import opened WebSys

  /** `TextStorageReader`: a cursor over the bytes of the value read at creation. */
  class TextStorageReader {
    const cursor: Cursor

    constructor (value: string)
      ensures fresh(cursor) && cursor.Valid() && cursor.Remaining() == Utf8.Encode(value)
    {
      cursor := new Cursor(Utf8.Encode(value));
    }

    /** `read`: hands out the next bytes of the value. */
    method Read(max: nat) returns (chunk: Bytes)
      requires cursor.Valid()
      modifies cursor
      ensures cursor.Valid()
      ensures chunk == old(cursor.Remaining())[..Min(max, |old(cursor.Remaining())|)]
      ensures old(cursor.Remaining()) == chunk + cursor.Remaining()
    {
      chunk := cursor.Read(max);
    }
  }

  /** `TextStorageReader::new`: a reader over the value at `key`. An absent key and a
      failing lookup both give an Other error. */
  method NewTextStorageReader(webStorage: WebStorageArea, key: string)
    returns (r: IoResult<TextStorageReader>)
    ensures r.Ok? <==> !webStorage.denied && key in webStorage.items
    ensures r.Ok? ==> fresh(r.value.cursor) && r.value.cursor.Valid()
                      && Some(r.value.cursor.Remaining()) == webStorage.Observe(key)
    ensures r.Err? ==> r.error == IoError(Other, "cannot find stored value")
  {
    var value := match webStorage.GetItem(key) case Ok(v) => v case Err(_) => None;
    if value.Some? {
      var reader := new TextStorageReader(value.value);
      r := Ok(reader);
    } else {
      r := Err(IoError(Other, "cannot find stored value"));
    }
  }

  /** `TextStorageWriter`: the store, the key, and every byte written since creation. */
  class TextStorageWriter {
    const webStorage: WebStorageArea
    const key: string
    var buf: Bytes

    constructor (webStorage: WebStorageArea, key: string)
      ensures this.webStorage == webStorage && this.key == key && buf == []
      ensures unchanged(webStorage)
    {
      this.webStorage := webStorage;
      this.key := key;
      buf := [];
    }

    /** `write`: appends all of `b`; the store is not touched. */
    method Write(b: Bytes) returns (r: IoResult<nat>)
      modifies this
      ensures buf == old(buf) + b && r == Ok(|b|)
      ensures unchanged(webStorage)
    {
      buf := buf + b;
      r := Ok(|b|);
    }

    /** `flush`: stores the decoded buffer at the key. Bytes that are not UTF-8 fail
        without touching the store; a failing `set_item` fails too. The buffer is kept. */
    method Flush() returns (r: IoResult<()>)
      modifies webStorage
      ensures buf == old(buf) && webStorage.denied == old(webStorage.denied)
      ensures !Utf8.IsValid(buf) ==>
        r == Err(IoError(Other, "cannot convert utf8")) && webStorage.items == old(webStorage.items)
      ensures Utf8.IsValid(buf) && webStorage.denied ==>
        r == Err(IoError(Other, "cannot store value")) && webStorage.items == old(webStorage.items)
      ensures Utf8.IsValid(buf) && !webStorage.denied ==>
        r.Ok? && webStorage.items == old(webStorage.items)[key := Utf8.Decode(buf).value]
    {
      var value := Utf8.Decode(buf);
      if value.None? {
        return Err(IoError(Other, "cannot convert utf8"));
      }
      var stored := webStorage.SetItem(key, value.value);
      if stored.Err? {
        r := Err(IoError(Other, "cannot store value"));
      } else {
        r := Ok(());
      }
    }

    /** `drop`: a flush whose result is discarded. */
    method Drop()
      modifies webStorage
      ensures webStorage.denied == old(webStorage.denied)
      ensures webStorage.items ==
        if Utf8.IsValid(buf) && !webStorage.denied
        then old(webStorage.items)[key := Utf8.Decode(buf).value]
        else old(webStorage.items)
    {
      var _ := Flush();
    }
  }

  /** `TextStorageWriter::new`: never fails and does not touch the store. */
  method NewTextStorageWriter(webStorage: WebStorageArea, key: string)
    returns (r: IoResult<TextStorageWriter>)
    ensures r.Ok? && fresh(r.value) && r.value.webStorage == webStorage
    ensures r.value.key == key && r.value.buf == []
  {
    var writer := new TextStorageWriter(webStorage, key);
    r := Ok(writer);
  }

  /** Flushing twice stores everything written since creation both times, unlike the
      memory writer, whose second flush stores nothing. */
  method FlushTwiceKeepsBuffer(webStorage: WebStorageArea, key: string, a: string, b: string)
    requires !webStorage.denied
    modifies webStorage
    ensures webStorage.items == old(webStorage.items)[key := a + b]
  {
    var w := NewTextStorageWriter(webStorage, key);
    var writer := w.value;
    var _ := writer.Write(Utf8.Encode(a));
    Utf8.DecodeEncode(a);
    assert writer.buf == Utf8.Encode(a);
    var _ := writer.Flush();
    assert webStorage.items[key] == a;
    var _ := writer.Write(Utf8.Encode(b));
    Utf8.EncodeAppend(a, b);
    Utf8.DecodeEncode(a + b);
    assert writer.buf == Utf8.Encode(a + b);
    var second := writer.Flush();
    assert second.Ok?;
  }
}
