/** The memory backend's streams. A reader copies the file's contents when it opens; a
    writer collects bytes privately and replaces the cell's contents only on `flush`. */
module MemoryStreams {
  import opened Io
  import opened MemoryFileSys
  import opened Streams

  /** `StorageReader`: a cursor over a snapshot of the cell taken at creation. */
  class StorageReader {
    const cursor: Cursor

    constructor (stored: MemoryFile)
      ensures fresh(cursor) && cursor.Valid() && cursor.Remaining() == stored.contents
    {
      cursor := new Cursor(stored.contents);
    }

    /** `read`: hands out the next bytes of the snapshot, whatever the cell holds by now. */
    method Read(max: nat) returns (chunk: Bytes)
      requires cursor.Valid()
      modifies cursor
      ensures cursor.Valid()
      ensures chunk == old(cursor.Remaining())[..Min(max, |old(cursor.Remaining())|)]
      ensures old(cursor.Remaining()) == chunk + cursor.Remaining()
    {
      chunk := cursor.Read(max);
    }
  }

  /** `StorageWriter`: the target cell and the bytes written since the last flush. */
  class StorageWriter {
    const stored: MemoryFile
    var buf: Bytes

    constructor (stored: MemoryFile)
      ensures this.stored == stored && buf == []
      ensures unchanged(stored)
    {
      this.stored := stored;
      buf := [];
    }

    /** `write`: appends all of `b` to the private buffer; the cell is not touched. */
    method Write(b: Bytes) returns (r: IoResult<nat>)
      modifies this
      ensures buf == old(buf) + b && r == Ok(|b|)
      ensures unchanged(stored)
    {
      buf := buf + b;
      r := Ok(|b|);
    }

    /** `flush`: the cell's contents become exactly the buffered bytes, then the buffer empties. */
    method Flush() returns (r: IoResult<()>)
      modifies this, stored
      ensures stored.contents == old(buf) && buf == [] && r.Ok?
    {
      stored.contents := [];
      stored.contents := stored.contents + buf;
      buf := [];
      r := Ok(());
    }

    /** `drop`: a flush whose result is discarded. */
    method Drop()
      modifies this, stored
      ensures stored.contents == old(buf) && buf == []
    {
      var _ := Flush();
    }
  }

  /** A reader opened before a flush keeps the old contents; one opened after sees the new. */
  method SnapshotSurvivesFlush(cell: MemoryFile, data: Bytes)
    returns (before: Bytes, after: Bytes)
    modifies cell
    ensures before == old(cell.contents) && after == data && cell.contents == data
  {
    var early := new StorageReader(cell);
    var writer := new StorageWriter(cell);
    var _ := writer.Write(data);
    var _ := writer.Flush();
    var late := new StorageReader(cell);
    before := ReadToEnd(early.cursor, 64);
    after := ReadToEnd(late.cursor, 64);
  }

  /** Because flush empties the buffer, a second flush with no write between stores nothing. */
  method FlushTwice(cell: MemoryFile, data: Bytes)
    modifies cell
    ensures cell.contents == []
  {
    var writer := new StorageWriter(cell);
    var _ := writer.Write(data);
    var first := writer.Flush();
    assert cell.contents == data;
    var second := writer.Flush();
  }

  /** Drop after two writes stores their concatenation. */
  method WritesThenDrop(cell: MemoryFile, a: Bytes, b: Bytes)
    modifies cell
    ensures cell.contents == a + b
  {
    var writer := new StorageWriter(cell);
    var _ := writer.Write(a);
    var _ := writer.Write(b);
    writer.Drop();
  }
}
