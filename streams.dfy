/** `std::io::Cursor` as the readers of both backends use it, and the standard
    `read_to_end` / `read_to_string` loops the storage tests read files with. */
module Streams {
  import opened Io
  import Utf8

  /** A cursor over an owned buffer: `read` hands out the bytes after the position, in order. */
  class Cursor {
    const data: Bytes
    var pos: nat

    ghost predicate Valid()
      reads this
    {
      pos <= |data|
    }

    /** The bytes a reader has not yet handed out. */
    function Remaining(): Bytes
      reads this
      requires Valid()
    {
      data[pos..]
    }

    constructor (data: Bytes)
      ensures Valid() && this.data == data && pos == 0
      ensures Remaining() == data
    {
      this.data := data;
      pos := 0;
    }

    /** `Read::read` into a buffer of `max` bytes: copies as many remaining bytes as fit. */
    method Read(max: nat) returns (chunk: Bytes)
      requires Valid()
      modifies this
      ensures Valid()
      ensures chunk == old(Remaining())[..Min(max, |old(Remaining())|)]
      ensures old(Remaining()) == chunk + Remaining()
    {
      var n := Min(max, |data| - pos);
      chunk := data[pos..pos + n];
      pos := pos + n;
    }
  }

  /** `Read::read_to_end`: reads chunks of at most `chunkSize` bytes until a read returns none. */
  method ReadToEnd(c: Cursor, chunkSize: nat) returns (all: Bytes)
    requires c.Valid() && chunkSize > 0
    modifies c
    ensures c.Valid()
    ensures all == old(c.Remaining()) && c.Remaining() == []
  {
    ghost var unread := c.Remaining();
    all := [];
    while true
      invariant c.Valid()
      invariant all + c.Remaining() == unread
      decreases |c.Remaining()|
    {
      ghost var before := c.Remaining();
      var chunk := c.Read(chunkSize);
      if chunk == [] {
        break;
      }
      assert (all + chunk) + c.Remaining() == all + before;
      all := all + chunk;
    }
  }

  /** `Read::read_to_string`: reads to the end and fails with InvalidData when the bytes are not UTF-8. */
  method ReadToString(c: Cursor, chunkSize: nat) returns (r: IoResult<string>)
    requires c.Valid() && chunkSize > 0
    modifies c
    ensures c.Valid()
    ensures r.Ok? <==> Utf8.IsValid(old(c.Remaining()))
    ensures r.Ok? ==> Utf8.Encode(r.value) == old(c.Remaining())
    ensures r.Err? ==> r.error.kind == InvalidData
  {
    var bytes := ReadToEnd(c, chunkSize);
    var text := Utf8.Decode(bytes);
    if text.Some? {
      Utf8.EncodeDecode(bytes);
      r := Ok(text.value);
    } else {
      r := Err(IoError(InvalidData, "stream did not contain valid UTF-8"));
    }
  }
}
