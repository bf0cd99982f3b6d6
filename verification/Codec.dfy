/** The codec as the gateway runs it over a byte stream, and the loop that reads a connection. */
module Codec {
  import opened Common
  import opened Framing

  /** The receiving end of a stream: what has not been read yet. */
  class Reader {
    var rest: Bytes

    constructor (input: Bytes)
      ensures rest == input
    {
      rest := input;
    }

    /** Takes `n` bytes; or, when there are fewer, all of them, and reports how the input ended. */
    method ReadFull(n: nat) returns (data: Bytes, ended: Option<Ending>)
      modifies this
      ensures old(rest) == data + rest
      ensures |old(rest)| >= n ==> |data| == n && ended == None
      ensures |old(rest)| < n ==> rest == [] && ended == Some(if old(rest) == [] then EOF else UnexpectedEOF)
    {
      if |rest| >= n {
        data, ended := rest[..n], None;
        rest := rest[n..];
      } else {
        data, ended := rest, Some(if rest == [] then EOF else UnexpectedEOF);
        rest := [];
      }
    }
  }

  /** The sending end of a stream: what has been written to it. */
  class Writer {
    var written: Bytes

    constructor ()
      ensures written == []
    {
      written := [];
    }

    /** Writes as much of `data` as there is `room` for. */
    method Write(data: Bytes, room: nat) returns (ok: bool)
      modifies this
      ensures ok <==> |data| <= room
      ensures written == old(written) + if ok then data else data[..room]
    {
      ok := |data| <= room;
      written := written + if ok then data else data[..room];
    }
  }

  method ReadMessage(reader: Reader) returns (r: ReadResult)
    modifies reader
    ensures Reads(old(reader.rest), r, reader.rest)
  {
    ghost var input := reader.rest;
    var header, ended := reader.ReadFull(HEADER_SIZE);
    if ended.Some? {
      return NoHeader(ended.value);
    }
    var n := FromBigEndian(header);
    HeaderEncodes(header);
    if n > MAX_MESSAGE_SIZE {
      return TooLarge(n);
    }
    var data;
    data, ended := reader.ReadFull(n);
    if ended.Some? {
      assert BigEndian(n) <= input && |input| < HEADER_SIZE + n;
      return NoBody(ended.value);
    }
    SeqAssoc(header, data, reader.rest);
    return Message(data);
  }

  datatype WriteResult = Written | Oversized | Failed

  /** The frame of `data`, or nothing when it is too large, or the part of the frame that there is room for. */
  method WriteMessage(writer: Writer, data: Bytes, room: nat) returns (r: WriteResult)
    modifies writer
    ensures r == if !Fits(data) then Oversized else if |Framed(data)| <= room then Written else Failed
    ensures writer.written == old(writer.written)
            + if r == Oversized then [] else if r == Written then Framed(data) else Framed(data)[..room]
  {
    if |data| > MAX_MESSAGE_SIZE {
      return Oversized;
    }
    var ok := writer.Write(BigEndian(|data|) + data, room);
    r := if ok then Written else Failed;
  }

  /** Reads a connection until a read fails. */
  method ReadMessages(reader: Reader) returns (ms: seq<Bytes>, e: ReadResult)
    modifies reader
    ensures ReadsAll(old(reader.rest), ms, e, reader.rest)
  {
    ms := [];
    ghost var input := reader.rest;
    e := ReadMessage(reader);
    ghost var before := input;
    while e.Message?
      invariant forall m | m in ms :: Fits(m)
      invariant input == Stream(ms) + before
      invariant Reads(before, e, reader.rest)
      decreases |before|
    {
      StreamSnoc(ms, e.data);
      SeqAssoc(Stream(ms), Framed(e.data), reader.rest);
      ms := ms + [e.data];
      before := reader.rest;
      e := ReadMessage(reader);
    }
    ReadsFrames(ms, before, e, reader.rest);
  }
}
