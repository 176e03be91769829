/** Requests and server messages as they are written and read, field by field. */
module MessageIO {
  import opened Wire
  import opened Schemas
  import opened Encoder
  import opened Reader
  import opened Chunks
  import opened Frames
  import opened InputLoop

  /** A body, if the message type has one; nesting within bounds means that the encoder never runs out of stack. */
  method WriteBody(out: Output, s: Schema, t: Option<nat>, body: Option<Value>)
    requires BodyOk(s, t, body)
    modifies out
    ensures out.bytes == old(out.bytes) + BodyBytes(s, t, body)
  {
    match t
    case None => assert out.bytes + [] == out.bytes;
    case Some(ty) =>
      NestingBound(s, ty, body.value);
      var ok := Marshal(out, s, ty, body.value);
  }

  /** `call`, `subscribe` and `unsubscribe`: endpoint id, enable flag of streaming endpoints, body. */
  method WriteRequest(out: Output, p: Protocol, q: Request)
    requires RequestTyped(p, q)
    modifies out
    ensures out.bytes == old(out.bytes) + RequestBytes(p, q)
  {
    hide BodyOk, BodyBytes, Varint;
    var t := RequestType(p, q.ep, q.op);
    out.Write(Varint(q.ep));
    out.Write(Flag(q.op));
    WriteBody(out, p.client, t, q.body);
    Regroup(old(out.bytes), Varint(q.ep), Flag(q.op));
    Regroup(old(out.bytes), Varint(q.ep) + Flag(q.op), BodyBytes(p.client, t, q.body));
    Regroup(Varint(q.ep), Flag(q.op), BodyBytes(p.client, t, q.body));
  }

  /** `accept` and the generated dispatch functions, up to the call of the service. */
  method ReadOneRequest(input: Input, p: Protocol) returns (ok: bool, q: Request)
    requires p.TableOk()
    modifies input
    ensures var r := ReadRequest(p, old(input.bytes));
      ok == r.Done? && (ok ==> q == r.value && input.bytes == r.rest)
  {
    hide ReadBody;
    var id := ReadUint32(input.bytes);
    if !id.Done? {
      return false, CloseRequest;
    }
    input.bytes := id.rest;
    if id.value == 0 {
      return true, CloseRequest;
    }
    if id.value > |p.table| {
      return true, Unserved(id.value);
    }
    var op := Unary;
    if p.table[id.value - 1].streaming {
      if input.bytes == [] {
        return false, CloseRequest;
      }
      op := if input.bytes[0] != 0 then Subscribe else Unsubscribe;
      input.bytes := input.bytes[1..];
    }
    var body;
    ok, body := ReadBodyFrom(input, p.server, RequestType(p, id.value, op));
    q := Request(id.value, op, body);
  }

  /** `send_event`: `index` is the dispatch index the emitter keeps. */
  method SendEvent(out: Output, p: Protocol, t: Option<nat>, index: nat, body: Option<Value>)
    requires FrameTyped(p, t, Event(index + 1, body))
    modifies out
    ensures out.bytes == old(out.bytes) + FrameBytes(p, t, Event(index + 1, body))
  {
    hide BodyOk, BodyBytes, Varint;
    out.Write([0xF2]);
    ghost var start := out.bytes;
    out.Write(Varint(index + 1));
    WriteBody(out, p.server, t, body);
    Regroup(start, Varint(index + 1), BodyBytes(p.server, t, body));
    Regroup(old(out.bytes), [0xF2], Varint(index + 1) + BodyBytes(p.server, t, body));
  }

  /** `send_reply_msg`, `ServerErrorHandler::handle`, `send_event`, `send_log` and `handle_goodbye`. */
  method WriteMessage(out: Output, p: Protocol, t: Option<nat>, f: Frame)
    requires FrameTyped(p, t, f) && !f.Text?
    modifies out
    ensures out.bytes == old(out.bytes) + FrameBytes(p, t, f)
  {
    hide BodyOk, BodyBytes, Varint, ChunkBytes;
    if f.Event? {
      SendEvent(out, p, t, f.ep - 1, f.body);
      return;
    }
    out.Write([Marker(f)]);
    ghost var start := out.bytes;
    match f {
      case Reply(body) => WriteBody(out, p.server, t, body);
      case ErrorReply(chunks) => WriteChunked(out, chunks);
      case Log(text) =>
        out.Write(Varint(|text|));
        out.Write(text);
        Regroup(start, Varint(|text|), text);
      case Goodbye => assert start + [] == start;
    }
    assert out.bytes == start + FrameBody(p, t, f);
    Regroup(old(out.bytes), [Marker(f)], FrameBody(p, t, f));
  }
}
