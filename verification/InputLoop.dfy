/** The client's input worker as it runs: reading one server message, with the pending queue and the registered
    callbacks deciding how much of the stream belongs to it. */
module InputLoop {
  import opened Wire
  import opened Schemas
  import opened Reader
  import opened Decoder
  import opened Chunks
  import opened Frames
  import opened PendingQueue

  /** The reply type of the oldest pending call. */
  ghost function HeadOf(q: Queue): Option<Option<nat>>
    reads q
  {
    if q.Calls == [] then None else Some(q.Calls[0].resp)
  }

  /** A message body of a known type, or none. */
  method ReadBodyFrom(input: Input, s: Schema, t: Option<nat>) returns (ok: bool, body: Option<Value>)
    requires t.Some? ==> t.value < |s|
    modifies input
    ensures var p := ReadBody(s, t, old(input.bytes));
      ok == p.Done? && (ok ==> body == p.value && input.bytes == p.rest)
  {
    match t
    case None => ok, body := true, None;
    case Some(ty) =>
      var v;
      ok, v := input.Unmarshal(s, ty);
      body := Some(v);
  }

  /** `handle_reply`. The popped caller is notified even if its reply could not be read. */
  method HandleReply(input: Input, s: Schema, q: Queue) returns (ok: bool, body: Option<Value>)
    requires q.Valid() && TypesKnown(s, HeadOf(q), map[])
    modifies input, q, q.Calls
    ensures q.Valid() && q.Calls == (if old(q.Calls) == [] then [] else old(q.Calls)[1..]) && (ok ==> old(q.Calls) != [])
    ensures var p := ReadReply(s, old(input.bytes), old(HeadOf(q)));
      && ok == p.Done?
      && (ok ==> input.bytes == p.rest && p.value == GotReply(body) && old(q.Calls)[0].outcome == Response(body))
    ensures old(q.Calls) != [] ==> old(q.Calls)[0].waiter == Notified
    ensures forall c <- old(q.Calls) :: c in q.Calls ==> c.outcome == old(c.outcome) && c.waiter == old(c.waiter)
  {
    var call := q.Pop();
    if call == null {
      return false, None;
    }
    ok, body := ReadBodyFrom(input, s, call.resp);
    if ok {
      call.outcome := Response(body);
    }
    call.Notify();
  }

  /** `handle_chunked_error_reply`. */
  method HandleErrorReply(input: Input, q: Queue) returns (ok: bool, text: seq<Byte>)
    requires q.Valid()
    modifies input, q, q.Calls
    ensures q.Valid() && q.Calls == (if old(q.Calls) == [] then [] else old(q.Calls)[1..]) && (ok ==> old(q.Calls) != [])
    ensures var p := ReadErrorReply(old(input.bytes), old(q.Calls) != []);
      && ok == p.Done?
      && (ok ==> input.bytes == p.rest && p.value == GotError(text) && old(q.Calls)[0].outcome == Failure(text))
    ensures old(q.Calls) != [] ==> old(q.Calls)[0].waiter == Notified && old(q.Calls)[0].outcome.Failure?
    ensures forall c <- old(q.Calls) :: c in q.Calls ==> c.outcome == old(c.outcome) && c.waiter == old(c.waiter)
  {
    var call := q.Pop();
    if call == null {
      return false, [];
    }
    ok, text := ReadChunked(input);
    call.outcome := Failure(text);
    call.Notify();
  }

  /** `handle_event` and the callback it runs. */
  method HandleEvent(input: Input, s: Schema, events: map<nat, Option<nat>>) returns (ok: bool, ep: nat, body: Option<Value>)
    requires TypesKnown(s, None, events)
    modifies input
    ensures var p := ReadEvent(s, old(input.bytes), events);
      ok == p.Done? && (ok ==> input.bytes == p.rest && p.value == GotEvent(ep, body))
  {
    var p := ReadUint32(input.bytes);
    if !p.Done? {
      return false, 0, None;
    }
    input.bytes := p.rest;
    ep := p.value;
    if ep !in events {
      return false, ep, None;
    }
    ok, body := ReadBodyFrom(input, s, events[ep]);
  }

  /** `handle_log`. */
  method HandleLog(input: Input) returns (ok: bool, text: seq<Byte>)
    modifies input
    ensures var p := ReadLog(old(input.bytes));
      ok == p.Done? && (ok ==> input.bytes == p.rest && p.value == GotLog(text))
  {
    var p := ReadUint32(input.bytes);
    if !p.Done? {
      return false, [];
    }
    input.bytes := p.rest;
    if p.value > MAX_STRING_SIZE {
      return false, [];
    }
    ok, text := p.value <= |input.bytes|, [];
    if ok {
      text := input.bytes[..p.value];
      input.bytes := input.bytes[p.value..];
    }
  }

  /** `print_line`, after its first byte was read and put back. */
  method PrintLine(input: Input) returns (ok: bool)
    modifies input
    ensures var p := ReadLine(old(input.bytes));
      ok == p.Done? && (ok ==> input.bytes == p.rest)
  {
    ghost var start := input.bytes;
    while input.bytes != []
      invariant ReadLine(input.bytes) == ReadLine(start)
      decreases |input.bytes|
    {
      var b := input.bytes[0];
      input.bytes := input.bytes[1..];
      if b == 10 {
        return true;
      }
    }
    return false;
  }

  /** One iteration of the input loop reads exactly what `ReadFrame` says, hands a reply to the oldest pending call
      and to no other, and leaves every other call record alone. */
  method ReadMessage(input: Input, s: Schema, q: Queue, events: map<nat, Option<nat>>) returns (ok: bool, got: Got)
    requires q.Valid() && TypesKnown(s, HeadOf(q), events)
    modifies input, q, q.Calls
    ensures q.Valid()
    ensures var p := ReadFrame(s, old(input.bytes), old(HeadOf(q)), events);
      ok == p.Done? && (ok ==> got == p.value && input.bytes == p.rest)
    ensures old(input.bytes) != [] && (old(input.bytes[0]) in [9, 10, 11, 13] || 32 <= old(input.bytes[0]) <= 126) ==>
      got == GotText && (ok <==> 10 in old(input.bytes))
    ensures ok && (got.GotReply? || got.GotError?) ==>
      && old(q.Calls) != [] && q.Calls == old(q.Calls)[1..]
      && old(q.Calls)[0].waiter == Notified
      && old(q.Calls)[0].outcome == if got.GotReply? then Response(got.body) else Failure(got.text)
    ensures ok && !got.GotReply? && !got.GotError? ==> q.Calls == old(q.Calls)
    ensures forall c <- old(q.Calls) :: c in q.Calls ==> c.outcome == old(c.outcome) && c.waiter == old(c.waiter)
  {
    hide ReadReply, ReadErrorReply, ReadEvent, ReadLog, ReadLine;
    if input.bytes == [] {
      return false, GotText;
    }
    var b := input.bytes[0];
    if IsPrintable(b) {
      ReadLineExactly(input.bytes);
      ok := PrintLine(input);
      return ok, GotText;
    }
    input.bytes := input.bytes[1..];
    if b == 0xF0 {
      var body;
      ok, body := HandleReply(input, s, q);
      got := GotReply(body);
    } else if b == 0xF1 {
      var text;
      ok, text := HandleErrorReply(input, q);
      got := GotError(text);
    } else if b == 0xF2 {
      var ep, body;
      ok, ep, body := HandleEvent(input, s, events);
      got := GotEvent(ep, body);
    } else if b == 0xF3 {
      var text;
      ok, text := HandleLog(input);
      got := GotLog(text);
    } else {
      ok, got := b == 0xFA, GotGoodbye;
    }
  }
}
