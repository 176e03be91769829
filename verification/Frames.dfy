/** The byte layout of requests and of server messages, and how each side finds where they end. */
module Frames {
  import opened Wire
  import opened Schemas
  import opened Items
  import opened Encoder
  import opened Decoder
  import opened Evolution
  import opened Fidelity
  import opened Chunks

  /** One entry of the dispatch table: request and response message types (`None` for void) and whether it streams. */
  datatype Endpoint = Endpoint(req: Option<nat>, resp: Option<nat>, streaming: bool)

  /** Client and server are compiled from schemas that agree on the fields they share. */
  datatype Protocol = Protocol(client: Schema, server: Schema, table: seq<Endpoint>) {
    ghost predicate Valid() {
      Compatible(client, server) && Compatible(server, client) && TableOk()
    }

    ghost predicate TableOk() {
      && |table| < UINT32 - 1 && |client| == |server|
      && forall i :: 0 <= i < |table| ==>
           (table[i].req.Some? ==> table[i].req.value < |client|) && (table[i].resp.Some? ==> table[i].resp.value < |client|)
    }
  }

  // ---- message bodies ----

  /** A body an application may hand to the runtime: of the declared type and at most 128 submessages deep. */
  predicate BodyOk(s: Schema, t: Option<nat>, body: Option<Value>) {
    match t
    case None => body.None?
    case Some(ty) =>
      ty < |s| && body.Some? && Typed(s, Message(ty), body.value) && Nest(s, Message(ty), body.value) <= 129
  }

  function BodyBytes(s: Schema, t: Option<nat>, body: Option<Value>): seq<Byte>
    requires BodyOk(s, t, body)
  {
    match t
    case None => []
    case Some(ty) => Encode(s, ty, body.value)
  }

  function ReadBody(s: Schema, t: Option<nat>, bs: seq<Byte>): (p: Parse<Option<Value>>)
    requires t.Some? ==> t.value < |s|
    ensures p.Done? ==> IsSuffix(p.rest, bs)
  {
    match t
    case None => Done(None, bs)
    case Some(ty) =>
      var (v, r) :- Decode(s, ty, bs);
      Done(Some(v), r)
  }

  /** A body as the other side sees it. */
  ghost function Seen(w: Schema, r: Schema, t: Option<nat>, body: Option<Value>): Option<Value>
    requires Compatible(w, r) && BodyOk(w, t, body)
  {
    match t
    case None => None
    case Some(ty) => Some(Convert(w, r, Message(ty), body.value))
  }

  /** The reader has the room for every string in the body. */
  predicate BodyHeld(w: Schema, r: Schema, t: Option<nat>, body: Option<Value>)
    requires BodyOk(w, t, body)
  {
    t.Some? ==> |w| == |r| && HoldsColumns(w, r, t.value, body.value.cols)
  }

  /** A body is read back whole, whatever follows, or refused for a string that is too long. */
  lemma ReadBodyBytes(w: Schema, r: Schema, t: Option<nat>, body: Option<Value>, rest: seq<Byte>)
    requires Compatible(w, r) && BodyOk(w, t, body)
    ensures ReadBody(r, t, BodyBytes(w, t, body) + rest) ==
            if BodyHeld(w, r, t, body) then Done(Seen(w, r, t, body), rest) else Bad
  {
    match t
    case None => assert [] + rest == rest;
    case Some(ty) =>
      PruneColumnsDepth(w, ty, body.value.cols, 0);
      DecodeEncoded(w, r, ty, body.value, rest);
  }

  lemma ReadBodySettled(s: Schema, t: Option<nat>, bs: seq<Byte>, more: seq<Byte>)
    requires t.Some? ==> t.value < |s|
    ensures Settled(ReadBody(s, t, bs), ReadBody(s, t, bs + more), more)
  {
    if t.Some? {
      DecodeSettled(s, t.value, bs, more);
    }
  }

  // ---- requests ----

  datatype Op = Unary | Subscribe | Unsubscribe

  /** `Unserved` is a request for an endpoint the table does not have. */
  datatype Request = Request(ep: nat, op: Op, body: Option<Value>) | Unserved(ep: nat) | CloseRequest

  function RequestType(p: Protocol, ep: nat, op: Op): Option<nat>
    requires 1 <= ep <= |p.table|
  {
    if op == Unsubscribe then None else p.table[ep - 1].req
  }

  predicate RequestTyped(p: Protocol, q: Request) {
    && q.Request? && 1 <= q.ep <= |p.table|
    && (q.op == Unary <==> !p.table[q.ep - 1].streaming)
    && BodyOk(p.client, RequestType(p, q.ep, q.op), q.body)
  }

  /** The one-byte enable flag of streaming endpoints. */
  function Flag(op: Op): seq<Byte> {
    match op
    case Unary => []
    case Subscribe => [1]
    case Unsubscribe => [0]
  }

  function RequestBytes(p: Protocol, q: Request): (bs: seq<Byte>)
    requires RequestTyped(p, q)
    ensures |bs| >= 1
  {
    Varint(q.ep) + (Flag(q.op) + BodyBytes(p.client, RequestType(p, q.ep, q.op), q.body))
  }

  /** What the server's request loop and dispatch functions read. */
  ghost function ReadRequest(p: Protocol, bs: seq<Byte>): (r: Parse<Request>)
    requires p.TableOk()
    ensures r.Done? ==> |r.rest| < |bs|
  {
    var (n, r) :- ReadUint32(bs);
    if n == 0 then Done(CloseRequest, r)
    else if n > |p.table| then Done(Unserved(n), r)
    else
      var (op, r2) :- ReadOp(p.table[n - 1].streaming, r);
      var (body, r3) :- ReadBody(p.server, RequestType(p, n, op), r2);
      Done(Request(n, op, body), r3)
  }

  function ReadOp(streaming: bool, bs: seq<Byte>): (p: Parse<Op>)
    ensures p.Done? ==> |p.rest| <= |bs|
  {
    if !streaming then Done(Unary, bs)
    else
      var (enabled, r) :- ReadByte(bs);
      Done(if enabled != 0 then Subscribe else Unsubscribe, r)
  }

  ghost function RequestSeen(p: Protocol, q: Request): (r: Request)
    requires p.Valid() && RequestTyped(p, q)
    ensures r.Request? && r.ep == q.ep && r.op == q.op
  {
    Request(q.ep, q.op, Seen(p.client, p.server, RequestType(p, q.ep, q.op), q.body))
  }

  /** A request the server has the room for. */
  predicate RequestOk(p: Protocol, q: Request): (ok: bool)
    ensures ok ==> RequestTyped(p, q)
  {
    RequestTyped(p, q) && BodyHeld(p.client, p.server, RequestType(p, q.ep, q.op), q.body)
  }

  /** A request is read back whole, whatever follows it, or refused for a string that is too long. */
  lemma ReadRequestBytes(p: Protocol, q: Request, rest: seq<Byte>)
    requires p.Valid() && RequestTyped(p, q)
    ensures ReadRequest(p, RequestBytes(p, q) + rest) ==
            if RequestOk(p, q) then Done(RequestSeen(p, q), rest) else Bad
  {
    hide BodyOk, BodyBytes, BodyHeld, ReadBody, Varint, ReadUint32, ReadOp, Seen, Flag;
    var t := RequestType(p, q.ep, q.op);
    var body := BodyBytes(p.client, t, q.body);
    Regroup(Varint(q.ep), Flag(q.op) + body, rest);
    Regroup(Flag(q.op), body, rest);
    ReadUint32RoundTrip(q.ep, Flag(q.op) + (body + rest));
    ReadOpFlag(q.op, body + rest);
    ReadBodyBytes(p.client, p.server, t, q.body, rest);
  }

  lemma ReadOpFlag(op: Op, rest: seq<Byte>)
    ensures ReadOp(op != Unary, Flag(op) + rest) == Done(op, rest)
  {
    if op == Unary {
      assert [] + rest == rest;
    } else {
      assert (Flag(op) + rest)[1..] == rest;
    }
  }

  lemma ReadOpSettled(streaming: bool, bs: seq<Byte>, more: seq<Byte>)
    ensures Settled(ReadOp(streaming, bs), ReadOp(streaming, bs + more), more)
  {
    if bs != [] {
      assert (bs + more)[1..] == bs[1..] + more;
    }
  }

  lemma ReadRequestSettled(p: Protocol, bs: seq<Byte>, more: seq<Byte>)
    requires p.TableOk()
    ensures Settled(ReadRequest(p, bs), ReadRequest(p, bs + more), more)
  {
    hide ReadBody, ReadUint32, ReadOp;
    ReadUint32Settled(bs, more);
    var a := ReadUint32(bs);
    if a.Done? && 0 < a.value <= |p.table| {
      ReadOpSettled(p.table[a.value - 1].streaming, a.rest, more);
      var b := ReadOp(p.table[a.value - 1].streaming, a.rest);
      if b.Done? {
        ReadBodySettled(p.server, RequestType(p, a.value, b.value), b.rest, more);
      }
    }
  }

  // ---- server messages ----

  datatype Frame =
    | Reply(body: Option<Value>)
    | ErrorReply(chunks: seq<seq<Byte>>)
    | Event(ep: nat, body: Option<Value>)
    | Log(text: seq<Byte>)
    | Text(line: seq<Byte>)
    | Goodbye

  /** A printable first byte marks raw diagnostic text. */
  predicate IsPrintable(c: Byte) {
    32 <= c <= 126 || c == 10 || c == 13 || c == 9 || c == 11
  }

  /** One raw line: it begins with a visible ASCII character, a space, tab, newline, vertical tab or carriage return, and
      its only newline is its last byte. What comes in between may be anything. */
  predicate IsLine(line: seq<Byte>) {
    && line != [] && (line[0] in [9, 10, 11, 13] || 32 <= line[0] <= 126) && line[|line| - 1] == 10
    && forall i :: 0 <= i < |line| - 1 ==> line[i] != 10
  }

  function ReplyType(p: Protocol, ep: nat, op: Op): Option<nat>
    requires 1 <= ep <= |p.table|
  {
    if op == Unary then p.table[ep - 1].resp else None
  }

  /** `t` is the message type of the body, where the frame has one. */
  predicate FrameTyped(p: Protocol, t: Option<nat>, f: Frame) {
    match f
    case Reply(body) => BodyOk(p.server, t, body)
    case ErrorReply(chunks) =>
      [] !in chunks && |Flatten(chunks)| <= 16384 && forall i :: 0 <= i < |chunks| ==> |chunks[i]| < UINT32
    case Event(ep, body) => 1 <= ep <= |p.table| && t == p.table[ep - 1].resp && BodyOk(p.server, t, body)
    case Log(text) => |text| <= 16384
    case Text(line) => IsLine(line)
    case Goodbye => true
  }

  function FrameBytes(p: Protocol, t: Option<nat>, f: Frame): (bs: seq<Byte>)
    requires FrameTyped(p, t, f)
    ensures |bs| >= 1
  {
    if f.Text? then f.line else [Marker(f)] + FrameBody(p, t, f)
  }

  function Marker(f: Frame): Byte
    requires !f.Text?
  {
    match f
    case Reply(_) => 0xF0
    case ErrorReply(_) => 0xF1
    case Event(_, _) => 0xF2
    case Log(_) => 0xF3
    case Goodbye => 0xFA
  }

  function FrameBody(p: Protocol, t: Option<nat>, f: Frame): seq<Byte>
    requires FrameTyped(p, t, f) && !f.Text?
  {
    match f
    case Reply(body) => BodyBytes(p.server, t, body)
    case ErrorReply(chunks) => ChunkBytes(chunks)
    case Event(ep, body) => Varint(ep) + BodyBytes(p.server, t, body)
    case Log(text) => Varint(|text|) + text
    case Goodbye => []
  }

  datatype Got =
    | GotReply(body: Option<Value>)
    | GotError(text: seq<Byte>)
    | GotEvent(ep: nat, body: Option<Value>)
    | GotLog(text: seq<Byte>)
    | GotText
    | GotGoodbye

  /** `print_line`: everything up to and including the next newline. */
  function ReadLine(bs: seq<Byte>): (p: Parse<()>)
    ensures p.Done? ==> IsSuffix(p.rest, bs) && |p.rest| < |bs|
  {
    if bs == [] then Short
    else if bs[0] == 10 then Done((), bs[1..])
    else ReadLine(bs[1..])
  }

  predicate TypesKnown(s: Schema, head: Option<Option<nat>>, events: map<nat, Option<nat>>) {
    && (head.Some? && head.value.Some? ==> head.value.value < |s|)
    && forall e :: e in events && events[e].Some? ==> events[e].value < |s|
  }

  /** `handle_reply`: the body's type is that of the call at the head of the queue. */
  function ReadReply(s: Schema, bs: seq<Byte>, head: Option<Option<nat>>): (p: Parse<Got>)
    requires TypesKnown(s, head, map[])
    ensures p.Done? ==> |p.rest| <= |bs|
  {
    if head.None? then Bad
    else
      var (body, r) :- ReadBody(s, head.value, bs);
      Done(GotReply(body), r)
  }

  /** `handle_chunked_error_reply`. */
  function ReadErrorReply(bs: seq<Byte>, pending: bool): (p: Parse<Got>)
    ensures p.Done? ==> |p.rest| <= |bs|
  {
    if !pending then Bad
    else
      var (text, r) :- ReadChunks(bs, []);
      Done(GotError(text), r)
  }

  /** `handle_event`: the body's type is that of the callback registered for the event id. */
  function ReadEvent(s: Schema, bs: seq<Byte>, events: map<nat, Option<nat>>): (p: Parse<Got>)
    requires TypesKnown(s, None, events)
    ensures p.Done? ==> |p.rest| <= |bs|
  {
    var (id, r) :- ReadUint32(bs);
    if id !in events then Bad
    else
      var (body, r2) :- ReadBody(s, events[id], r);
      Done(GotEvent(id, body), r2)
  }

  /** `handle_log`. */
  function ReadLog(bs: seq<Byte>): (p: Parse<Got>)
    ensures p.Done? ==> |p.rest| <= |bs|
  {
    var (n, r) :- ReadUint32(bs);
    if n > MAX_STRING_SIZE then Bad
    else
      var (text, r2) :- Take(r, n);
      Done(GotLog(text), r2)
  }

  /** What one iteration of the client's input loop reads. `head` is the reply type of the oldest pending call, if
      there is one, and `events` the body types of the registered callbacks: neither is on the wire. `Bad` covers
      every branch that reports an error. */
  function ReadFrame(s: Schema, bs: seq<Byte>, head: Option<Option<nat>>, events: map<nat, Option<nat>>): (p: Parse<Got>)
    requires TypesKnown(s, head, events)
    ensures p.Done? ==> |p.rest| < |bs|
  {
    if bs == [] then Short
    else if IsPrintable(bs[0]) then
      var (_, r) :- ReadLine(bs);
      Done(GotText, r)
    else ReadMarked(s, bs[0], bs[1..], head, events)
  }

  /** A message whose type byte is `b`. */
  function ReadMarked(
      s: Schema, b: Byte, bs: seq<Byte>, head: Option<Option<nat>>, events: map<nat, Option<nat>>): (p: Parse<Got>)
    requires TypesKnown(s, head, events)
    ensures p.Done? ==> |p.rest| <= |bs|
  {
    if b == 0xF0 then ReadReply(s, bs, head)
    else if b == 0xF1 then ReadErrorReply(bs, head.Some?)
    else if b == 0xF2 then ReadEvent(s, bs, events)
    else if b == 0xF3 then ReadLog(bs)
    else if b == 0xFA then Done(GotGoodbye, bs)
    else Bad
  }

  ghost function FrameSeen(p: Protocol, t: Option<nat>, f: Frame): Got
    requires p.Valid() && FrameTyped(p, t, f)
  {
    match f
    case Reply(body) => GotReply(Seen(p.server, p.client, t, body))
    case ErrorReply(chunks) => GotError(Flatten(chunks))
    case Event(ep, body) => GotEvent(ep, Seen(p.server, p.client, t, body))
    case Log(text) => GotLog(text)
    case Text(_) => GotText
    case Goodbye => GotGoodbye
  }

  lemma {:induction false} ReadLineBytes(line: seq<Byte>, rest: seq<Byte>)
    requires line != [] && line[|line| - 1] == 10 && forall i :: 0 <= i < |line| - 1 ==> line[i] != 10
    ensures ReadLine(line + rest) == Done((), rest)
  {
    assert (line + rest)[1..] == line[1..] + rest;
    if |line| > 1 {
      ReadLineBytes(line[1..], rest);
    } else {
      assert line[1..] + rest == rest;
    }
  }

  lemma {:induction false} ReadLineSettled(bs: seq<Byte>, more: seq<Byte>)
    ensures Settled(ReadLine(bs), ReadLine(bs + more), more)
  {
    if bs != [] {
      assert (bs + more)[1..] == bs[1..] + more;
      ReadLineSettled(bs[1..], more);
    }
  }

  /** A message the client has the room for. */
  predicate FrameOk(p: Protocol, t: Option<nat>, f: Frame): (ok: bool)
    ensures ok ==> FrameTyped(p, t, f)
  {
    && FrameTyped(p, t, f)
    && match f
       case Reply(body) => BodyHeld(p.server, p.client, t, body)
       case Event(_, body) => BodyHeld(p.server, p.client, t, body)
       case _ => true
  }

  lemma ReadEventBytes(
      p: Protocol, t: Option<nat>, ep: nat, body: Option<Value>, rest: seq<Byte>, events: map<nat, Option<nat>>)
    requires p.Valid() && FrameTyped(p, t, Event(ep, body))
    requires TypesKnown(p.client, None, events) && ep in events && events[ep] == t
    ensures ReadEvent(p.client, (Varint(ep) + BodyBytes(p.server, t, body)) + rest, events) ==
            if BodyHeld(p.server, p.client, t, body) then Done(FrameSeen(p, t, Event(ep, body)), rest) else Bad
  {
    var bytes := BodyBytes(p.server, t, body);
    Regroup(Varint(ep), bytes, rest);
    ReadUint32RoundTrip(ep, bytes + rest);
    ReadBodyBytes(p.server, p.client, t, body, rest);
  }

  lemma ReadLogBytes(text: seq<Byte>, rest: seq<Byte>)
    requires |text| <= 16384
    ensures ReadLog((Varint(|text|) + text) + rest) == Done(GotLog(text), rest)
  {
    Regroup(Varint(|text|), text, rest);
    ReadUint32RoundTrip(|text|, text + rest);
    TakeAppend(text, rest);
  }

  /** The client expects a body of the right type: that of its oldest pending call for a reply, that of the registered
      callback for an event. */
  predicate Expected(p: Protocol, t: Option<nat>, f: Frame, head: Option<Option<nat>>, events: map<nat, Option<nat>>) {
    match f
    case Reply(_) => head == Some(t)
    case ErrorReply(_) => head.Some?
    case Event(ep, _) => ep in events && events[ep] == t
    case _ => true
  }

  /** A frame the client expects is read back whole, whatever follows it, or refused for a string that is too long. */
  lemma ReadFrameBytes(
      p: Protocol, t: Option<nat>, f: Frame, rest: seq<Byte>, head: Option<Option<nat>>, events: map<nat, Option<nat>>)
    requires p.Valid() && FrameTyped(p, t, f) && TypesKnown(p.client, head, events) && Expected(p, t, f, head, events)
    ensures ReadFrame(p.client, FrameBytes(p, t, f) + rest, head, events) ==
            if FrameOk(p, t, f) then Done(FrameSeen(p, t, f), rest) else Bad
  {
    if f.Text? {
      ReadLineBytes(f.line, rest);
    } else {
      var body := FrameBody(p, t, f);
      assert ([Marker(f)] + body + rest)[1..] == body + rest;
      ReadMarkedBytes(p, t, f, rest, head, events);
    }
  }

  lemma ReadMarkedBytes(
      p: Protocol, t: Option<nat>, f: Frame, rest: seq<Byte>, head: Option<Option<nat>>, events: map<nat, Option<nat>>)
    requires p.Valid() && FrameTyped(p, t, f) && TypesKnown(p.client, head, events) && Expected(p, t, f, head, events)
    requires !f.Text?
    ensures ReadMarked(p.client, Marker(f), FrameBody(p, t, f) + rest, head, events) ==
            if FrameOk(p, t, f) then Done(FrameSeen(p, t, f), rest) else Bad
  {
    if f.Reply? {
      ReadReplyBytes(p, t, f.body, rest, head);
    } else if f.Event? {
      ReadEventBytes(p, t, f.ep, f.body, rest, events);
    } else {
      ReadUntypedBytes(p, t, f, rest, head, events);
    }
  }

  lemma ReadUntypedBytes(
      p: Protocol, t: Option<nat>, f: Frame, rest: seq<Byte>, head: Option<Option<nat>>, events: map<nat, Option<nat>>)
    requires FrameTyped(p, t, f) && TypesKnown(p.client, head, events) && Expected(p, t, f, head, events)
    requires f.ErrorReply? || f.Log? || f.Goodbye?
    ensures ReadMarked(p.client, Marker(f), FrameBody(p, t, f) + rest, head, events) ==
            Done(if f.ErrorReply? then GotError(Flatten(f.chunks)) else if f.Log? then GotLog(f.text) else GotGoodbye, rest)
  {
    if f.ErrorReply? {
      ChunksRoundTrip(f.chunks, rest);
    } else if f.Log? {
      ReadLogBytes(f.text, rest);
    } else {
      assert [] + rest == rest;
    }
  }

  lemma ReadReplyBytes(p: Protocol, t: Option<nat>, body: Option<Value>, rest: seq<Byte>, head: Option<Option<nat>>)
    requires p.Valid() && BodyOk(p.server, t, body) && TypesKnown(p.client, head, map[]) && head == Some(t)
    ensures ReadReply(p.client, BodyBytes(p.server, t, body) + rest, head) ==
            if BodyHeld(p.server, p.client, t, body) then Done(GotReply(Seen(p.server, p.client, t, body)), rest) else Bad
  {
    ReadBodyBytes(p.server, p.client, t, body, rest);
  }

  lemma ReadReplySettled(s: Schema, bs: seq<Byte>, head: Option<Option<nat>>, more: seq<Byte>)
    requires TypesKnown(s, head, map[])
    ensures Settled(ReadReply(s, bs, head), ReadReply(s, bs + more, head), more)
  {
    if head.Some? {
      ReadBodySettled(s, head.value, bs, more);
    }
  }

  lemma ReadEventSettled(s: Schema, bs: seq<Byte>, events: map<nat, Option<nat>>, more: seq<Byte>)
    requires TypesKnown(s, None, events)
    ensures Settled(ReadEvent(s, bs, events), ReadEvent(s, bs + more, events), more)
  {
    ReadUint32Settled(bs, more);
    var n := ReadUint32(bs);
    if n.Done? && n.value in events {
      ReadBodySettled(s, events[n.value], n.rest, more);
    }
  }

  lemma ReadLogSettled(bs: seq<Byte>, more: seq<Byte>)
    ensures Settled(ReadLog(bs), ReadLog(bs + more), more)
  {
    ReadUint32Settled(bs, more);
    var n := ReadUint32(bs);
    if n.Done? {
      TakeSettled(n.rest, n.value, more);
    }
  }

  lemma ReadFrameSettled(
      s: Schema, bs: seq<Byte>, head: Option<Option<nat>>, events: map<nat, Option<nat>>, more: seq<Byte>)
    requires TypesKnown(s, head, events)
    ensures Settled(ReadFrame(s, bs, head, events), ReadFrame(s, bs + more, head, events), more)
  {
    if bs != [] {
      assert (bs + more)[0] == bs[0] && (bs + more)[1..] == bs[1..] + more;
      ReadLineSettled(bs, more);
      ReadMarkedSettled(s, bs[0], bs[1..], head, events, more);
    }
  }

  lemma ReadMarkedSettled(
      s: Schema, b: Byte, bs: seq<Byte>, head: Option<Option<nat>>, events: map<nat, Option<nat>>, more: seq<Byte>)
    requires TypesKnown(s, head, events)
    ensures Settled(ReadMarked(s, b, bs, head, events), ReadMarked(s, b, bs + more, head, events), more)
  {
    if b == 0xF0 {
      ReadReplySettled(s, bs, head, more);
    } else if b == 0xF1 {
      ReadChunksSettled(bs, [], more);
    } else if b == 0xF2 {
      ReadEventSettled(s, bs, events, more);
    } else if b == 0xF3 {
      ReadLogSettled(bs, more);
    }
  }

  // ---- raw text ----

  /** Reading frames with the raw text between them passed over, as the input loop does. */
  function NextFrame(s: Schema, bs: seq<Byte>, head: Option<Option<nat>>, events: map<nat, Option<nat>>): Parse<Got>
    requires TypesKnown(s, head, events)
    decreases |bs|
  {
    var (got, r) :- ReadFrame(s, bs, head, events);
    if got == GotText then NextFrame(s, r, head, events) else Done(got, r)
  }

  lemma LineIsText(
      s: Schema, line: seq<Byte>, later: seq<Byte>, head: Option<Option<nat>>, events: map<nat, Option<nat>>)
    requires TypesKnown(s, head, events) && IsLine(line)
    ensures ReadFrame(s, line + later, head, events) == Done(GotText, later)
  {
    ReadLineBytes(line, later);
  }

  /** Raw-text transparency: whatever lines come before a server message, the client reads the same message, the same
      error, or waits for the same bytes. */
  lemma {:induction false} TextIsTransparent(
      s: Schema, lines: seq<seq<Byte>>, bs: seq<Byte>, head: Option<Option<nat>>, events: map<nat, Option<nat>>)
    requires TypesKnown(s, head, events) && forall i :: 0 <= i < |lines| ==> IsLine(lines[i])
    ensures NextFrame(s, Flatten(lines) + bs, head, events) == NextFrame(s, bs, head, events)
  {
    hide ReadFrame, TypesKnown, IsLine;
    if lines == [] {
      assert [] + bs == bs;
    } else {
      var later := Flatten(lines[1..]) + bs;
      Regroup(lines[0], Flatten(lines[1..]), bs);
      LineIsText(s, lines[0], later, head, events);
      TextIsTransparent(s, lines[1..], bs, head, events);
    }
  }

  /** How the first byte decides what the worker reads: a raw line takes everything up to the next newline and is waited
      for without one, the five markers begin messages, and any other byte is an error. */
  lemma FirstByteDecides(
      s: Schema, b: Byte, bs: seq<Byte>, head: Option<Option<nat>>, events: map<nat, Option<nat>>)
    requires TypesKnown(s, head, events)
    ensures b in [9, 10, 11, 13] || 32 <= b <= 126 ==>
      (ReadFrame(s, [b] + bs, head, events).Done? <==> 10 in [b] + bs) && !ReadFrame(s, [b] + bs, head, events).Bad?
    ensures b !in [9, 10, 11, 13, 0xF0, 0xF1, 0xF2, 0xF3, 0xFA] && !(32 <= b <= 126) ==>
      ReadFrame(s, [b] + bs, head, events) == Bad
    ensures ReadFrame(s, [0xFA] + bs, head, events) == Done(GotGoodbye, bs)
    ensures head == None ==>
      ReadFrame(s, [0xF0] + bs, head, events) == Bad && ReadFrame(s, [0xF1] + bs, head, events) == Bad
  {
    ReadLineExactly([b] + bs);
    assert ([b] + bs)[1..] == bs && ([0xFA] + bs)[1..] == bs && ([0xF0] + bs)[1..] == bs;
  }

  lemma {:induction false} ReadLineExactly(bs: seq<Byte>)
    ensures ReadLine(bs).Done? <==> 10 in bs
    ensures !ReadLine(bs).Bad?
  {
    if bs != [] {
      ReadLineExactly(bs[1..]);
      assert bs == [bs[0]] + bs[1..];
    }
  }

  /** `client_hello` waiting for the server's hello byte: raw lines and log messages may come first. */
  function AwaitHello(bs: seq<Byte>): Parse<()>
    decreases |bs|
  {
    if bs == [] then Short
    else if IsPrintable(bs[0]) then
      var (_, r) :- ReadLine(bs);
      AwaitHello(r)
    else if bs[0] == 0xF3 then
      var (_, r) :- ReadLog(bs[1..]);
      AwaitHello(r)
    else if bs[0] == 0xF9 then Done((), bs[1..])
    else Bad
  }

  /** A raw line or a log record. */
  ghost predicate IsNoise(bs: seq<Byte>) {
    IsLine(bs) || exists text :: |text| <= 16384 && bs == [0xF3] + (Varint(|text|) + text)
  }

  lemma LineSkipped(line: seq<Byte>, later: seq<Byte>)
    requires IsLine(line)
    ensures AwaitHello(line + later) == AwaitHello(later)
  {
    ReadLineBytes(line, later);
  }

  lemma LogSkipped(text: seq<Byte>, later: seq<Byte>)
    requires |text| <= 16384
    ensures AwaitHello([0xF3] + (Varint(|text|) + text) + later) == AwaitHello(later)
  {
    hide ReadLog;
    ReadLogBytes(text, later);
    assert ([0xF3] + (Varint(|text|) + text) + later)[1..] == (Varint(|text|) + text) + later;
  }

  /** Raw lines and log records before the hello change nothing. */
  lemma {:induction false} TextBeforeHello(noise: seq<seq<Byte>>, bs: seq<Byte>)
    requires forall i :: 0 <= i < |noise| ==> IsNoise(noise[i])
    ensures AwaitHello(Flatten(noise) + bs) == AwaitHello(bs)
  {
    hide AwaitHello, IsLine;
    if noise == [] {
      assert [] + bs == bs;
    } else {
      var later := Flatten(noise[1..]) + bs;
      Regroup(noise[0], Flatten(noise[1..]), bs);
      if IsLine(noise[0]) {
        LineSkipped(noise[0], later);
      } else {
        var text :| |text| <= 16384 && noise[0] == [0xF3] + (Varint(|text|) + text);
        LogSkipped(text, later);
      }
      TextBeforeHello(noise[1..], bs);
    }
  }

  /** The client accepts the hello byte, and refuses whatever begins neither noise nor the hello; the log record it
      refuses is one that is too long. */
  lemma HelloByteDecides(b: Byte, n: nat, rest: seq<Byte>)
    ensures AwaitHello([0xF9] + rest) == Done((), rest)
    ensures b !in [9, 10, 11, 13, 0xF3, 0xF9] && !(32 <= b <= 126) ==> AwaitHello([b] + rest) == Bad
    ensures 16384 < n < 0x1_0000_0000 ==> AwaitHello([0xF3] + (Varint(n) + rest)) == Bad
  {
    assert ([0xF9] + rest)[1..] == rest;
    if 16384 < n < 0x1_0000_0000 {
      ReadUint32RoundTrip(n, rest);
      assert ([0xF3] + (Varint(n) + rest))[1..] == Varint(n) + rest;
    }
  }
}
