/** The wire format: one length byte, one type byte, then the packed payload; and the reader of that format,
    which sees the stream chopped in any way. */
module Framing {
  import opened Util

  datatype Message = Message(kind: byte, payload: seq<byte>)

  /** The frame of a message; the length byte holds the payload size plus one, cut to eight bits. */
  function Frame(m: Message): seq<byte> {
    [(|m.payload| + 1) % 256, m.kind] + m.payload
  }

  function Encode(ms: seq<Message>): seq<byte> {
    if ms == [] then [] else Frame(ms[0]) + Encode(ms[1..])
  }

  /** unpack_user_data: the type byte, then the payload. Empty content has no type byte. */
  function Split(content: seq<byte>): Option<Message> {
    if content == [] then None else Some(Message(content[0], content[1..]))
  }

  /** The size of the first frame of a stream, its length byte included. */
  function Size(stream: seq<byte>): (r: int)
    requires stream != []
    ensures 1 <= r <= 256
  {
    (stream[0] as int) + 1
  }

  /** The stream begins with a complete frame. */
  predicate Whole(stream: seq<byte>) {
    stream != [] && Size(stream) <= |stream|
  }

  /** What a reader makes of a whole stream: None if it ends inside a frame or holds a frame without content. */
  function Decode(stream: seq<byte>): Option<seq<Message>>
    decreases |stream|
  {
    if stream == [] then Some([])
    else if |stream| < Size(stream) then None
    else
      match Split(stream[1..Size(stream)])
      case None => None
      case Some(m) =>
        match Decode(stream[Size(stream)..])
        case None => None
        case Some(rest) => Some([m] + rest)
  }

  lemma FirstFrame(m: Message, rest: seq<byte>)
    requires |m.payload| <= 254
    ensures var s := Frame(m) + rest;
            s != [] && Size(s) == |m.payload| + 2 <= |s| && Split(s[1..Size(s)]) == Some(m) && s[Size(s)..] == rest
  {
    var s := Frame(m) + rest;
    assert s[1..Size(s)] == [m.kind] + m.payload;
  }

  /** A list of messages survives framing and reading back exactly when no payload is longer than 254 bytes. */
  lemma {:induction false} RoundTripIff(ms: seq<Message>)
    ensures Decode(Encode(ms)) == Some(ms) <==> forall i :: 0 <= i < |ms| ==> |ms[i].payload| <= 254
  {
    if ms != [] {
      var m, rest := ms[0], ms[1..];
      RoundTripIff(rest);
      assert ms == [m] + rest;
      if |m.payload| <= 254 {
        FirstFrame(m, Encode(rest));
        if Decode(Encode(rest)).Some? {
          var d := Decode(Encode(rest)).value;
          assert [m] + d == ms <==> d == rest by {
            if [m] + d == ms { assert d == ([m] + d)[1..] == rest; }
          }
        }
        assert (forall i :: 0 <= i < |ms| ==> |ms[i].payload| <= 254)
               <==> (forall i :: 0 <= i < |rest| ==> |rest[i].payload| <= 254);
      } else {
        TooLong(ms);
      }
    }
  }

  lemma TooLong(ms: seq<Message>)
    requires ms != [] && 254 < |ms[0].payload|
    ensures Decode(Encode(ms)) != Some(ms)
  {
    var s := Encode(ms);
    if Decode(s).Some? {
      assert |s[1..Size(s)]| <= 255;
      assert |Decode(s).value[0].payload| <= 254;
    }
  }

  // ---------- packing and reading as the code does it ----------

  /** The *_data_pack functions: a fresh buffer of the payload size plus two, and its length. */
  method DataPack(m: Message) returns (out_buf: array<byte>, len: int)
    ensures fresh(out_buf) && len == out_buf.Length && out_buf[..] == Frame(m)
    ensures len == |m.payload| + 2 && out_buf[1] == m.kind && out_buf[2..] == m.payload
    ensures |m.payload| <= 254 ==> out_buf[0] == |m.payload| + 1
  {
    var pack_size := |m.payload|;
    out_buf := new byte[pack_size + 2](_ => 0);
    var i := 0;
    while i < pack_size
      invariant 0 <= i <= pack_size
      invariant forall k :: 0 <= k < i ==> out_buf[2 + k] == m.payload[k]
    {
      out_buf[2 + i] := m.payload[i];
      i := i + 1;
    }
    out_buf[0] := (pack_size + 1) % 256;
    out_buf[1] := m.kind;
    len := pack_size + 2;
    assert out_buf[..] == Frame(m);
  }

  /** One answer of read: a chunk of at most n + 1 bytes, or EINTR or EAGAIN. */
  datatype ReadResult = Chunk(n: nat) | Again

  /** The receiving side of a socket whose peer has sent `incoming` and closed. */
  class Stream {
    var incoming: seq<byte>
    var script: seq<ReadResult>

    constructor (incoming: seq<byte>, script: seq<ReadResult>)
      ensures this.incoming == incoming && this.script == script
    {
      this.incoming, this.script := incoming, script;
    }

    /** read: -1 to try again, 0 at the end of the stream, otherwise the number of bytes moved. */
    method Read(nleft: nat) returns (nread: int, chunk: seq<byte>)
      requires 0 < nleft
      modifies this
      ensures -1 <= nread <= nleft && nread <= |old(incoming)|
      ensures nread <= 0 ==> chunk == [] && incoming == old(incoming)
      ensures nread >= 0 ==> chunk == old(incoming)[..nread] && incoming == old(incoming)[nread..]
      ensures nread == 0 ==> old(incoming) == []
      ensures |script| <= |old(script)| && (nread == -1 ==> |script| < |old(script)|)
    {
      var most := |incoming|;
      if script != [] {
        var r := script[0];
        script := script[1..];
        if r.Again? { return -1, []; }
        most := if r.n + 1 < most then r.n + 1 else most;
      }
      nread := if nleft < most then nleft else most;
      chunk := incoming[..nread];
      incoming := incoming[nread..];
    }

    /** readn: exactly nsize bytes, in as many reads as it takes; fails only when the peer closes first. */
    method Readn(nsize: nat) returns (ret: int, buffer: seq<byte>)
      modifies this
      ensures ret == if nsize <= |old(incoming)| then 0 else -1
      ensures ret == 0 ==> buffer == old(incoming)[..nsize] && incoming == old(incoming)[nsize..]
    {
      buffer := [];
      var nleft := nsize;
      while nleft > 0
        invariant 0 <= nleft <= nsize && |buffer| == nsize - nleft
        invariant old(incoming) == buffer + incoming
        decreases nleft, |script|
      {
        var nread, chunk := Read(nleft);
        if nread == -1 { continue; }
        if nread == 0 { return -1, buffer; }
        buffer := buffer + chunk;
        nleft := nleft - nread;
      }
      return 0, buffer;
    }

    /** dispose_readmessage: the length byte, then that many bytes of content; None when the peer closes first. */
    method ReadMessage() returns (content: Option<seq<byte>>)
      modifies this
      ensures var s := old(incoming);
              if Whole(s) then content == Some(s[1..Size(s)]) && incoming == s[Size(s)..] else content == None
    {
      ghost var s := incoming;
      var ret, len := Readn(1);
      if ret < 0 { return None; }
      assert len == [s[0]];
      var ret', buffer := Readn(len[0]);
      if ret' < 0 { return None; }
      assert buffer == s[1..][..len[0]] == s[1..Size(s)];
      assert incoming == s[1..][len[0]..] == s[Size(s)..];
      return Some(buffer);
    }

    /** Reading messages until the peer closes gives the decoded stream, however it was chopped. */
    method ReadAll() returns (messages: Option<seq<Message>>)
      modifies this
      ensures messages == Decode(old(incoming))
    {
      var got := [];
      assert forall rest: seq<Message> :: [] + rest == rest;
      while incoming != []
        invariant Decode(old(incoming)) ==
                  match Decode(incoming) case None => None case Some(rest) => Some(got + rest)
        decreases |incoming|
      {
        ghost var s := incoming;
        var content := ReadMessage();
        if content == None { return None; }
        var m := Split(content.value);
        if m == None { return None; }
        assert forall rest: seq<Message> :: got + ([m.value] + rest) == got + [m.value] + rest;
        got := got + [m.value];
      }
      assert got + [] == got;
      return Some(got);
    }
  }
}
