/** Every action keeps both streams whole and the calls in lockstep. */
module LockstepSteps {
  import opened Wire
  import opened Schemas
  import opened Frames
  import opened Channels
  import opened Session
  import opened Streams
  import opened Lockstep

  // ---- client to server ----

  lemma BeginBytes(p: Protocol, up: Channel, unread: seq<Call>, call: Call)
    requires UpBytes(p, up, unread, false) && RequestOk(p, call.q)
    ensures UpBytes(p, up.Start(RequestBytes(p, call.q)), unread + [call], false)
    ensures up.Idle() ==> var up2 := up.Start(RequestBytes(p, call.q));
      up2.buf + up2.todo == RequestBytes(p, call.q) && AfterId(p, call.q) <= |up2.todo|
  {
    hide RequestOk, RequestTyped, RequestBytes;
    CallsSnoc(p, unread, call);
    StartAddsBytes(up, RequestBytes(p, call.q));
    AppendNothing(EncodeCalls(p, unread));
    AppendNothing(EncodeCalls(p, unread + [call]));
    assert [] + RequestBytes(p, call.q) == RequestBytes(p, call.q);
  }

  lemma AppendNothing(bs: seq<Byte>)
    ensures bs + [] == bs
  {
  }

  lemma BeginUp(p: Protocol, c: Conn, h: History, id: nat, q: Request)
    requires UpInv(p, c, h) && CanBegin(p, c, q)
    ensures UpInv(p, BeginIn(p, c, id, q), BeginLog(c, h, id, q))
  {
    hide BodyOk, RequestBytes, UpBytes;
    var h2 := BeginLog(c, h, id, q);
    var call := h2.calls[|h.calls|];
    assert h2.calls[|h.served|..] == h.calls[|h.served|..] + [call];
    BeginBytes(p, c.up, h.calls[|h.served|..], call);
  }

  lemma MoveBytes(p: Protocol, up: Channel, unread: seq<Call>, close: bool, n: nat)
    requires UpBytes(p, up, unread, close)
    ensures n <= |up.todo| ==> UpBytes(p, up.Write(n), unread, close)
    ensures n <= |up.buf| ==> UpBytes(p, up.Flush(n), unread, close)
  {
    hide CallsOk, EncodeCalls;
    if n <= |up.todo| {
      WriteKeepsBytes(up, n);
    }
    if n <= |up.buf| {
      FlushKeepsBytes(up, n);
    }
  }

  lemma WriteMoves(up: Channel, n: nat)
    requires n <= |up.todo|
    ensures |up.Write(n).todo| == |up.todo| - n && (up.Idle() ==> up.Write(n).Idle())
  {
  }

  lemma WriteUpKeeps(p: Protocol, c: Conn, h: History, n: nat)
    requires UpInv(p, c, h) && CanWriteUp(p, c, n)
    ensures UpInv(p, c.(up := c.up.Write(n)), h)
  {
    hide AllRequestsOk, RequestOk, RequestTyped, RequestBytes, UpBytes, AfterId, Channel.Write, Channel.Bytes;
    MoveBytes(p, c.up, h.calls[|h.served|..], Closed(c) && !CloseRead(c), n);
    WriteKeepsBytes(c.up, n);
    WriteMoves(c.up, n);
  }

  lemma FlushUpKeeps(p: Protocol, c: Conn, h: History, n: nat)
    requires UpInv(p, c, h) && CanFlushUp(c, n)
    ensures UpInv(p, c.(up := c.up.Flush(n)), h)
  {
    hide AllRequestsOk, RequestOk, RequestTyped, RequestBytes, UpBytes;
    MoveBytes(p, c.up, h.calls[|h.served|..], Closed(c) && !CloseRead(c), n);
  }

  lemma BeginCloseUp(p: Protocol, c: Conn, h: History)
    requires UpInv(p, c, h) && c.caller == Free
    ensures UpInv(p, c.(caller := Closing, up := c.up.Start([0])), h)
  {
    StartAddsBytes(c.up, [0]);
    AppendNothing(EncodeCalls(p, h.calls[|h.served|..]));
  }

  /** `r` is the first unread request, or the close byte once there is none. */
  ghost predicate ReadsNext(p: Protocol, c: Conn, h: History, r: Parse<Request>)
    requires p.Valid() && UpInv(p, c, h)
  {
    && r.Done?
    && (if |h.served| < |h.calls| then
          && |h.served| < PushedCount(c, h)
          && r.value == RequestSeen(p, h.calls[|h.served|].q)
          && UpBytes(p, c.up.Consume(r.rest), h.calls[|h.served| + 1..], Closed(c))
        else r.value == CloseRequest && Closed(c) && UpBytes(p, c.up.Consume(r.rest), [], false))
  }

  lemma DispatchReads(p: Protocol, c: Conn, h: History)
    requires p.Valid() && UpInv(p, c, h) && QueueInv(c, h) && c.server == Idle && !ReadUp(p, c).Short?
    ensures ReadsNext(p, c, h, ReadUp(p, c))
  {
    hide RequestOk, RequestTyped, ReadRequest, RequestSeen, UpBytes, Unpushed;
    if Unpushed(c) && |h.served| == |h.calls| - 1 {
      HeldBack(p, c, h);
    }
    var unread := h.calls[|h.served|..];
    if |h.served| < |h.calls| {
      assert unread[1..] == h.calls[|h.served| + 1..];
      RequestArrives(p, c.up, unread, Closed(c));
    } else {
      assert unread == [];
      CloseArrives(p, c.up, Closed(c));
    }
  }

  /** While the newest request is held back and is the only one unread, the server has nothing to read. */
  lemma HeldBack(p: Protocol, c: Conn, h: History)
    requires p.TableOk() && UpInv(p, c, h) && Unpushed(c) && |h.served| == |h.calls| - 1
    ensures ReadUp(p, c).Short?
  {
    var unread := h.calls[|h.served|..];
    assert unread == [h.calls[|h.calls| - 1]] && unread[1..] == [];
    assert |EncodeCalls(p, unread[1..])| == 0;
    assert |c.up.Bytes()| == |c.up.wire| + |RequestBytes(p, c.caller.q)|;
  }

  lemma RequestArrives(p: Protocol, up: Channel, unread: seq<Call>, close: bool)
    requires p.Valid() && unread != [] && UpBytes(p, up, unread, close) && !ReadRequest(p, up.wire).Short?
    ensures var r := ReadRequest(p, up.wire);
            r.Done? && r.value == RequestSeen(p, unread[0].q) && UpBytes(p, up.Consume(r.rest), unread[1..], close)
  {
    var end: seq<Byte> := if close then [0] else [];
    var q := unread[0].q;
    HeadRequest(p, q, EncodeCalls(p, unread[1..]) + end, up.wire, up.buf + up.todo) by {
      Regroup(RequestBytes(p, q), EncodeCalls(p, unread[1..]), end);
      hide RequestOk, RequestTyped, RequestBytes;
    }
    hide RequestOk, RequestTyped, RequestBytes, ReadRequest, RequestSeen;
  }

  lemma CloseArrives(p: Protocol, up: Channel, close: bool)
    requires p.Valid() && UpBytes(p, up, [], close) && !ReadRequest(p, up.wire).Short?
    ensures close && ReadRequest(p, up.wire).Done? && ReadRequest(p, up.wire).value == CloseRequest
    ensures UpBytes(p, up.Consume(ReadRequest(p, up.wire).rest), [], false)
  {
    var end: seq<Byte> := if close then [0] else [];
    assert [] + end == end;
    if close {
      HeadClose(p, up.wire, up.buf + up.todo);
    }
  }

  lemma DispatchUp(p: Protocol, c: Conn, h: History, r: Parse<Request>)
    requires p.Valid() && UpInv(p, c, h) && QueueInv(c, h) && c.server == Idle && ReadsNext(p, c, h, r)
    ensures UpInv(p, DispatchIn(c, r), DispatchLog(h, r))
    ensures QueueInv(DispatchIn(c, r), DispatchLog(h, r))
    ensures !c.broken ==> !DispatchIn(c, r).broken
  {
    hide RequestOk, RequestTyped, RequestBytes, RequestSeen, UpBytes;
    if |h.served| < |h.calls| {
      DispatchQueue(c, h, r);
    } else {
      assert h.calls[|h.served|..] == [];
    }
  }

  lemma DispatchQueue(c: Conn, h: History, r: Parse<Request>)
    requires QueueInv(c, h) && c.server == Idle && r.Done? && r.value.Request? && |h.served| < PushedCount(c, h)
    ensures QueueInv(DispatchIn(c, r), DispatchLog(h, r))
  {
  }
}
