/** The server's messages reach the client whole and in order. */
module Deliveries {
  import opened Wire
  import opened Schemas
  import opened Frames
  import opened Channels
  import opened Session
  import opened Streams
  import opened Lockstep

  // ---- sending ----

  lemma SendBytes(p: Protocol, down: Channel, frames: seq<Sent>, x: Sent)
    requires DownBytes(p, down, frames) && FrameOk(p, x.t, x.f)
    ensures DownBytes(p, down.Start(FrameBytes(p, x.t, x.f)), frames + [x])
  {
    FramesSnoc(p, frames, x);
    StartAddsBytes(down, FrameBytes(p, x.t, x.f));
  }

  /** The server answers the oldest unanswered call. */
  lemma AnswerDown(p: Protocol, c: Conn, h: History, reply: Frame)
    requires AllRequestsOk(p, h.calls) && |c.delivered| <= |h.answers| < |h.calls| && |c.routed| <= |h.emitted|
    requires DownInv(p, c, h) && CanAnswer(p, c, reply)
    requires c.server.q.ep == h.calls[|h.answers|].q.ep && c.server.q.op == h.calls[|h.answers|].q.op
    ensures DownInv(p, AnswerIn(p, c, reply), AnswerLog(p, c, h, reply))
  {
    hide FrameOk, FrameTyped, FrameBytes, RequestOk, RequestTyped, EmissionOk, FramesOk, EncodeFrames;
    var h2 := AnswerLog(p, c, h, reply);
    var x := h2.frames[|h.frames|];
    SendBytes(p, c.down, h.frames, x);
    GoodbyesSnoc(h.frames, x);
    InOrderGrow(p, h.calls, h.answers, h.emitted, h.frames, |c.delivered|, |h.answers|, |c.routed|, |h.emitted|,
                h.calls, h2.answers, h.emitted);
    assert [x][1..] == [];
    InOrderSnoc(p, h.calls, h2.answers, h.emitted, h.frames, |c.delivered|, |h.answers|, |c.routed|, |h.emitted|,
                x, |h2.answers|, |h.emitted|);
  }

  lemma EmitDown(p: Protocol, c: Conn, h: History, ep: nat, body: Option<Value>)
    requires AllRequestsOk(p, h.calls) && |c.delivered| <= |h.answers| <= |h.calls| && |c.routed| <= |h.emitted|
    requires DownInv(p, c, h) && CanEmit(p, c, ep, body)
    ensures DownInv(p, EmitIn(p, c, ep, body), EmitLog(p, h, ep, body))
  {
    hide FrameOk, FrameTyped, FrameBytes, RequestOk, RequestTyped, FramesOk, EncodeFrames;
    var h2 := EmitLog(p, h, ep, body);
    var x := h2.frames[|h.frames|];
    SendBytes(p, c.down, h.frames, x);
    GoodbyesSnoc(h.frames, x);
    InOrderGrow(p, h.calls, h.answers, h.emitted, h.frames, |c.delivered|, |h.answers|, |c.routed|, |h.emitted|,
                h.calls, h.answers, h2.emitted);
    assert [x][1..] == [];
    InOrderSnoc(p, h.calls, h.answers, h2.emitted, h.frames, |c.delivered|, |h.answers|, |c.routed|, |h.emitted|,
                x, |h.answers|, |h2.emitted|);
  }

  /** Log records, raw text and the goodbye. */
  lemma SayOrder(p: Protocol, c: Conn, h: History, noise: Frame)
    requires AllRequestsOk(p, h.calls) && |c.delivered| <= |h.answers| <= |h.calls| && |c.routed| <= |h.emitted|
    requires noise.Log? || noise.Text? || noise.Goodbye?
    requires InOrder(p, h.calls, h.answers, h.emitted, h.frames, |c.delivered|, |h.answers|, |c.routed|, |h.emitted|)
    ensures var h2 := SayLog(h, noise);
      InOrder(p, h.calls, h.answers, h.emitted, h2.frames, |c.delivered|, |h.answers|, |c.routed|, |h.emitted|)
  {
    hide FrameOk, FrameTyped, RequestOk, RequestTyped, EmissionOk;
    var x := Sent(None, noise, 0);
    assert [x][1..] == [];
    InOrderSnoc(p, h.calls, h.answers, h.emitted, h.frames, |c.delivered|, |h.answers|, |c.routed|, |h.emitted|,
                x, |h.answers|, |h.emitted|);
  }

  lemma SayDown(p: Protocol, c: Conn, h: History, noise: Frame)
    requires AllRequestsOk(p, h.calls) && |c.delivered| <= |h.answers| <= |h.calls| && |c.routed| <= |h.emitted|
    requires DownInv(p, c, h) && CanSay(p, c, noise)
    ensures DownInv(p, SayIn(p, c, noise), SayLog(h, noise))
  {
    hide FrameOk, FrameTyped, FrameBytes, RequestOk, RequestTyped, EmissionOk, FramesOk, EncodeFrames, InOrder;
    var x := Sent(None, noise, 0);
    SendBytes(p, c.down, h.frames, x);
    GoodbyesSnoc(h.frames, x);
    SayOrder(p, c, h, noise);
  }

  lemma PartDown(p: Protocol, c: Conn, h: History)
    requires AllRequestsOk(p, h.calls) && |c.delivered| <= |h.answers| <= |h.calls| && |c.routed| <= |h.emitted|
    requires DownInv(p, c, h) && CanPart(c)
    ensures DownInv(p, PartIn(p, c), SayLog(h, Goodbye))
  {
    var x := Sent(None, Goodbye, 0);
    assert FrameOk(p, x.t, x.f);
    hide FrameOk, FrameTyped, FrameBytes, RequestOk, RequestTyped, EmissionOk, FramesOk, EncodeFrames, InOrder;
    SendBytes(p, c.down, h.frames, x);
    GoodbyesSnoc(h.frames, x);
    SayOrder(p, c, h, Goodbye);
  }

  lemma MoveDown(p: Protocol, c: Conn, h: History, n: nat)
    requires AllRequestsOk(p, h.calls) && |c.delivered| <= |h.answers| <= |h.calls| && |c.routed| <= |h.emitted|
    requires DownInv(p, c, h)
    ensures n <= |c.down.todo| ==> DownInv(p, c.(down := c.down.Write(n)), h)
    ensures n <= |c.down.buf| ==> DownInv(p, c.(down := c.down.Flush(n)), h)
  {
    hide FramesOk, EncodeFrames, RequestOk, RequestTyped, InOrder;
    if n <= |c.down.todo| {
      WriteKeepsBytes(c.down, n);
    }
    if n <= |c.down.buf| {
      FlushKeepsBytes(c.down, n);
    }
  }

  // ---- receiving ----

  /** A message the client expects arrives whole or is waited for. */
  lemma FrameArrives(
      p: Protocol, down: Channel, frames: seq<Sent>, head: Option<Option<nat>>, events: map<nat, Option<nat>>)
    requires p.Valid() && frames != [] && DownBytes(p, down, frames)
    requires TypesKnown(p.client, head, events) && Expected(p, frames[0].t, frames[0].f, head, events)
    ensures var r := ReadFrame(p.client, down.wire, head, events);
      || r.Short?
      || (r.Done? && r.value == FrameSeen(p, frames[0].t, frames[0].f) && DownBytes(p, down.Consume(r.rest), frames[1..]))
    ensures ReadFrame(p.client, down.wire, head, events).Short? ==> down.buf + down.todo != []
  {
    hide TypesKnown, Expected, ReadFrame, FrameSeen, FrameOk, FrameTyped, FrameBytes;
    HeadFrame(p, frames[0], EncodeFrames(p, frames[1..]), down.wire, down.buf + down.todo, head, events);
  }
}
