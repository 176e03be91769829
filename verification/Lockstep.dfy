/** What holds in every state of every run: both byte streams hold whole messages, and the client's queue, the server
    and the messages in flight account for every call exactly once and in order. */
module Lockstep {
  import opened Wire
  import opened Schemas
  import opened Frames
  import opened Channels
  import opened Session
  import opened Streams

  ghost function TypeOf(p: Protocol, call: Call): Option<nat>
    requires RequestOk(p, call.q)
  {
    ReplyType(p, call.q.ep, call.q.op)
  }

  function Entry(call: Call): Pending
    requires call.q.Request?
  {
    Pending(call.id, call.q.ep, call.q.op)
  }

  predicate CloseRead(c: Conn) {
    c.server == Parting || c.server == Leaving || c.server == Gone
  }

  predicate GoodbyeSent(c: Conn) {
    c.server == Leaving || c.server == Gone
  }

  predicate Unpushed(c: Conn) {
    c.caller.Writing? && !c.caller.pushed
  }

  function PushedCount(c: Conn, h: History): int {
    |h.calls| - if Unpushed(c) then 1 else 0
  }

  // ---- the invariants ----

  predicate AllRequestsOk(p: Protocol, calls: seq<Call>) {
    forall i :: 0 <= i < |calls| ==> RequestOk(p, calls[i].q)
  }

  /** The bytes not yet read by the server are those of the unread requests, then the close byte if there is one. */
  predicate UpBytes(p: Protocol, up: Channel, unread: seq<Call>, close: bool) {
    CallsOk(p, unread) && up.Bytes() == EncodeCalls(p, unread) + (if close then [0] else [])
  }

  /** Client to server. Until its call record is pushed, nothing of the newest request has reached the server. */
  predicate UpInv(p: Protocol, c: Conn, h: History) {
    && AllRequestsOk(p, h.calls)
    && |h.served| <= |h.calls|
    && UpBytes(p, c.up, h.calls[|h.served|..], Closed(c) && !CloseRead(c))
    && (CloseRead(c) ==> Closed(c) && |h.served| == |h.calls|)
    && (c.caller == Free || c.caller == Finished ==> c.up.Idle())
    && (c.caller.Writing? ==>
          && |h.calls| > 0 && h.calls[|h.calls| - 1].id == c.caller.id && h.calls[|h.calls| - 1].q == c.caller.q
          && (!c.caller.pushed ==>
                && |h.served| < |h.calls| && RequestOk(p, c.caller.q)
                && c.up.buf + c.up.todo == RequestBytes(p, c.caller.q) && AfterId(p, c.caller.q) <= |c.up.todo|))
  }

  /** The pending queue is, in order: calls whose replies are in flight, the call being served, and unread requests. */
  predicate QueueInv(c: Conn, h: History) {
    && |c.delivered| <= |h.answers| <= |h.served| <= PushedCount(c, h)
    && |h.answers| == |h.served| - (if c.server.Serving? then 1 else 0)
    && (c.server.Serving? ==> h.served[|h.served| - 1] == c.server.q)
    && |c.queue| == PushedCount(c, h) - |c.delivered|
    && Entries(c.queue, h.calls, |c.delivered|)
  }

  /** `queue` holds the entries of the calls from number `from` on. */
  predicate Entries(queue: seq<Pending>, calls: seq<Call>, from: nat) {
    && from + |queue| <= |calls|
    && forall k :: from <= k < from + |queue| ==> calls[k].q.Request? && queue[k - from] == Entry(calls[k])
  }

  /** The server read what each caller sent. */
  ghost predicate ServedOk(p: Protocol, calls: seq<Call>, served: seq<Request>)
    requires p.Valid() && AllRequestsOk(p, calls)
  {
    |served| <= |calls| && forall i :: 0 <= i < |served| ==> served[i] == RequestSeen(p, calls[i].q)
  }

  ghost predicate AnswerOk(p: Protocol, call: Call, answer: Frame)
    requires RequestOk(p, call.q)
  {
    (answer.Reply? || answer.ErrorReply?) && FrameOk(p, TypeOf(p, call), answer)
  }

  ghost predicate AnswersOk(p: Protocol, calls: seq<Call>, answers: seq<Frame>)
    requires AllRequestsOk(p, calls)
  {
    |answers| <= |calls| && forall i :: 0 <= i < |answers| ==> AnswerOk(p, calls[i], answers[i])
  }

  /** The caller of `call` was notified with the server's answer to it, read as that call's reply type. */
  ghost predicate DeliveryOk(p: Protocol, call: Call, answer: Frame, delivery: Delivery)
    requires p.Valid() && RequestOk(p, call.q)
  {
    AnswerOk(p, call, answer) && delivery == Delivery(call.id, FrameSeen(p, TypeOf(p, call), answer))
  }

  ghost predicate DeliveriesOk(p: Protocol, calls: seq<Call>, answers: seq<Frame>, delivered: seq<Delivery>)
    requires p.Valid() && AllRequestsOk(p, calls)
  {
    && |delivered| <= |answers| <= |calls|
    && forall i :: 0 <= i < |delivered| ==> DeliveryOk(p, calls[i], answers[i], delivered[i])
  }

  ghost predicate LogInv(p: Protocol, c: Conn, h: History)
    requires p.Valid() && AllRequestsOk(p, h.calls)
  {
    && ServedOk(p, h.calls, h.served)
    && AnswersOk(p, h.calls, h.answers)
    && DeliveriesOk(p, h.calls, h.answers, c.delivered)
  }

  predicate EmissionOk(p: Protocol, e: Emission) {
    1 <= e.ep <= |p.table| && FrameOk(p, p.table[e.ep - 1].resp, Event(e.ep, e.body))
  }

  ghost function RoutedAs(p: Protocol, e: Emission): Routed
    requires p.Valid() && EmissionOk(p, e)
  {
    Routed(e.sub, e.ep, Seen(p.server, p.client, p.table[e.ep - 1].resp, e.body))
  }

  predicate EmissionsOk(p: Protocol, emitted: seq<Emission>) {
    forall j :: 0 <= j < |emitted| ==> EmissionOk(p, emitted[j])
  }

  /** Each callback ran with an event of its own subscription, in the order they were emitted. */
  ghost predicate RoutedOk(p: Protocol, emitted: seq<Emission>, routed: seq<Routed>)
    requires p.Valid() && EmissionsOk(p, emitted)
  {
    |routed| <= |emitted| && forall j :: 0 <= j < |routed| ==> routed[j] == RoutedAs(p, emitted[j])
  }

  ghost predicate EventLogInv(p: Protocol, c: Conn, h: History)
    requires p.Valid()
  {
    |c.routed| <= |h.emitted| && EmissionsOk(p, h.emitted) && RoutedOk(p, h.emitted, c.routed)
  }

  /** The replies among `frames` are exactly the answers from `lo` to `hi`, the events the emissions from `elo` to
      `ehi`, and no reply follows a goodbye. */
  ghost predicate InOrder(
      p: Protocol, calls: seq<Call>, answers: seq<Frame>, emitted: seq<Emission>,
      frames: seq<Sent>, lo: nat, hi: nat, elo: nat, ehi: nat)
    requires AllRequestsOk(p, calls) && hi <= |answers| <= |calls| && ehi <= |emitted|
  {
    if frames == [] then lo == hi && elo == ehi
    else
      var x := frames[0];
      if x.f.Reply? || x.f.ErrorReply? then
        && lo < hi && x == Sent(TypeOf(p, calls[lo]), answers[lo], lo)
        && InOrder(p, calls, answers, emitted, frames[1..], lo + 1, hi, elo, ehi)
      else if x.f.Event? then
        && elo < ehi && EmissionOk(p, emitted[elo])
        && x == Sent(p.table[emitted[elo].ep - 1].resp, Event(emitted[elo].ep, emitted[elo].body), elo)
        && InOrder(p, calls, answers, emitted, frames[1..], lo, hi, elo + 1, ehi)
      else
        && (x.f.Goodbye? ==> lo == hi)
        && InOrder(p, calls, answers, emitted, frames[1..], lo, hi, elo, ehi)
  }

  /** The bytes not yet read by the client are those of the server's messages in flight. */
  predicate DownBytes(p: Protocol, down: Channel, frames: seq<Sent>) {
    FramesOk(p, frames) && down.Bytes() == EncodeFrames(p, frames)
  }

  /** One goodbye is in flight from when the server starts to write it until the worker reads it, which is its last. */
  predicate GoodbyeInv(c: Conn, h: History) {
    && Goodbyes(h.frames) == (if GoodbyeSent(c) && c.worker == Running then 1 else 0)
    && (c.worker == Returned ==> GoodbyeSent(c) && |c.delivered| == |h.answers|)
  }

  function Goodbyes(frames: seq<Sent>): nat {
    if frames == [] then 0 else (if frames[0].f.Goodbye? then 1 else 0) + Goodbyes(frames[1..])
  }

  lemma {:induction false} GoodbyesSnoc(frames: seq<Sent>, x: Sent)
    ensures Goodbyes(frames + [x]) == Goodbyes(frames) + if x.f.Goodbye? then 1 else 0
  {
    if frames == [] {
      assert [] + [x] == [x];
    } else {
      assert (frames + [x])[1..] == frames[1..] + [x];
      GoodbyesSnoc(frames[1..], x);
    }
  }

  /** Server to client: the messages the worker has not read. */
  ghost predicate DownInv(p: Protocol, c: Conn, h: History)
    requires AllRequestsOk(p, h.calls) && |c.delivered| <= |h.answers| <= |h.calls| && |c.routed| <= |h.emitted|
  {
    && DownBytes(p, c.down, h.frames)
    && InOrder(p, h.calls, h.answers, h.emitted, h.frames, |c.delivered|, |h.answers|, |c.routed|, |h.emitted|)
    && GoodbyeInv(c, h)
  }

  // ---- message order ----

  lemma {:induction false} InOrderSnoc(
      p: Protocol, calls: seq<Call>, answers: seq<Frame>, emitted: seq<Emission>,
      frames: seq<Sent>, lo: nat, hi: nat, elo: nat, ehi: nat, x: Sent, hi2: nat, ehi2: nat)
    requires AllRequestsOk(p, calls) && hi <= hi2 <= |answers| <= |calls| && ehi <= ehi2 <= |emitted|
    requires InOrder(p, calls, answers, emitted, frames, lo, hi, elo, ehi)
    requires hi2 > hi ==> Goodbyes(frames) == 0
    requires InOrder(p, calls, answers, emitted, [x], hi, hi2, ehi, ehi2)
    ensures InOrder(p, calls, answers, emitted, frames + [x], lo, hi2, elo, ehi2)
    decreases |frames|
  {
    if frames == [] {
      assert [] + [x] == [x];
    } else {
      assert (frames + [x])[1..] == frames[1..] + [x];
      var y := frames[0];
      if y.f.Reply? || y.f.ErrorReply? {
        InOrderSnoc(p, calls, answers, emitted, frames[1..], lo + 1, hi, elo, ehi, x, hi2, ehi2);
      } else if y.f.Event? {
        InOrderSnoc(p, calls, answers, emitted, frames[1..], lo, hi, elo + 1, ehi, x, hi2, ehi2);
      } else {
        InOrderSnoc(p, calls, answers, emitted, frames[1..], lo, hi, elo, ehi, x, hi2, ehi2);
      }
    }
  }

  /** Longer logs change nothing for the messages already in flight. */
  lemma {:induction false} InOrderGrow(
      p: Protocol, calls: seq<Call>, answers: seq<Frame>, emitted: seq<Emission>, frames: seq<Sent>,
      lo: nat, hi: nat, elo: nat, ehi: nat, calls2: seq<Call>, answers2: seq<Frame>, emitted2: seq<Emission>)
    requires AllRequestsOk(p, calls) && hi <= |answers| <= |calls| && ehi <= |emitted|
    requires AllRequestsOk(p, calls2) && |answers2| <= |calls2|
    requires calls <= calls2 && answers <= answers2 && emitted <= emitted2
    requires InOrder(p, calls, answers, emitted, frames, lo, hi, elo, ehi)
    ensures InOrder(p, calls2, answers2, emitted2, frames, lo, hi, elo, ehi)
    decreases |frames|
  {
    if frames != [] {
      var y := frames[0];
      if y.f.Reply? || y.f.ErrorReply? {
        assert calls2[lo] == calls[lo] && answers2[lo] == answers[lo];
        InOrderGrow(p, calls, answers, emitted, frames[1..], lo + 1, hi, elo, ehi, calls2, answers2, emitted2);
      } else if y.f.Event? {
        assert emitted2[elo] == emitted[elo];
        InOrderGrow(p, calls, answers, emitted, frames[1..], lo, hi, elo + 1, ehi, calls2, answers2, emitted2);
      } else {
        InOrderGrow(p, calls, answers, emitted, frames[1..], lo, hi, elo, ehi, calls2, answers2, emitted2);
      }
    }
  }

  /** A reply in flight carries the answer its index says, and so does an event. */
  predicate Numbered(x: Sent, answers: seq<Frame>, emitted: seq<Emission>, lo: nat) {
    && (x.f.Reply? || x.f.ErrorReply? ==> lo <= x.idx < |answers| && x.f == answers[x.idx])
    && (x.f.Event? ==> x.idx < |emitted| && x.f == Event(emitted[x.idx].ep, emitted[x.idx].body))
  }

  predicate AllNumbered(frames: seq<Sent>, answers: seq<Frame>, emitted: seq<Emission>, lo: nat) {
    forall k :: 0 <= k < |frames| ==> Numbered(frames[k], answers, emitted, lo)
  }

  lemma {:induction false} InOrderNumbers(
      p: Protocol, calls: seq<Call>, answers: seq<Frame>, emitted: seq<Emission>,
      frames: seq<Sent>, lo: nat, hi: nat, elo: nat, ehi: nat)
    requires AllRequestsOk(p, calls) && hi <= |answers| <= |calls| && ehi <= |emitted|
    requires InOrder(p, calls, answers, emitted, frames, lo, hi, elo, ehi)
    ensures AllNumbered(frames, answers, emitted, lo)
    decreases |frames|
  {
    if frames != [] {
      var y := frames[0];
      if y.f.Reply? || y.f.ErrorReply? {
        InOrderNumbers(p, calls, answers, emitted, frames[1..], lo + 1, hi, elo, ehi);
      } else if y.f.Event? {
        InOrderNumbers(p, calls, answers, emitted, frames[1..], lo, hi, elo + 1, ehi);
      } else {
        InOrderNumbers(p, calls, answers, emitted, frames[1..], lo, hi, elo, ehi);
      }
      assert forall k :: 1 <= k < |frames| ==> frames[k] == frames[1..][k - 1];
    }
  }
}
