/** Event subscriptions: each endpoint's callback, the caller's phase, the service and the messages in flight agree. */
module Subscriptions {
  import opened Wire
  import opened Schemas
  import opened Frames
  import opened Session
  import opened Lockstep

  type Phases = map<nat, Phase>

  /** A service may be emitting for subscription `sub`, or its last events may be in flight. */
  predicate Active(ph: Phase, sub: nat) {
    ph == Subscribing(sub) || ph == On(sub) || ph == Unsubscribing(sub)
  }

  predicate Streaming(call: Call) {
    call.q.Request? && call.q.op != Unary
  }

  /** The phase of the caller of a streaming request until it sees the reply. */
  function Awaiting(call: Call): Phase
    requires Streaming(call)
  {
    if call.q.op == Subscribe then Subscribing(call.sub) else Unsubscribing(call.sub)
  }

  // ---- the invariants ----

  /** From call `d` on, which is not yet answered to its caller, callers are waiting. */
  predicate Waiting(phases: Phases, calls: seq<Call>, d: nat) {
    forall i :: d <= i < |calls| && Streaming(calls[i]) ==> PhaseOf(phases, calls[i].q.ep) == Awaiting(calls[i])
  }

  predicate OneAtATime(calls: seq<Call>, d: nat) {
    forall i, j :: d <= i < j < |calls| && Streaming(calls[i]) && Streaming(calls[j]) ==> calls[i].q.ep != calls[j].q.ep
  }

  /** The answer to this call means that its service emits no more. */
  predicate Ends(call: Call, answer: Frame) {
    Streaming(call) && EndsStream(call.q.op, answer)
  }

  /** No answer on its way to the client ends the stream of `ep`. */
  predicate NotEnding(calls: seq<Call>, answers: seq<Frame>, d: nat, ep: nat) {
    forall i :: d <= i < |answers| && i < |calls| && Ends(calls[i], answers[i]) ==> calls[i].q.ep != ep
  }

  /** A service emits for the subscription its endpoint's caller is in. */
  predicate LiveOk(
      phases: Phases, live: set<nat>, source: map<nat, nat>, calls: seq<Call>, answers: seq<Frame>, d: nat) {
    forall ep :: ep in live ==>
      ep in source && Active(PhaseOf(phases, ep), source[ep]) && NotEnding(calls, answers, d, ep)
  }

  /** An event in flight belongs to the subscription its endpoint's caller is in. */
  predicate EventsOk(phases: Phases, emitted: seq<Emission>, frames: seq<Sent>) {
    forall k :: 0 <= k < |frames| && frames[k].f.Event? && frames[k].idx < |emitted| ==>
      Active(PhaseOf(phases, frames[k].f.ep), emitted[frames[k].idx].sub)
  }

  /** Message `x` is the answer that ends the stream of `ep`. */
  predicate Silences(calls: seq<Call>, x: Sent, ep: nat) {
    && (x.f.Reply? || x.f.ErrorReply?) && x.idx < |calls|
    && Ends(calls[x.idx], x.f) && calls[x.idx].q.ep == ep
  }

  /** No event of an endpoint follows the answer that ends its stream. */
  predicate EndsLast(calls: seq<Call>, frames: seq<Sent>) {
    forall k, l :: 0 <= k < l < |frames| && frames[l].f.Event? ==> !Silences(calls, frames[k], frames[l].f.ep)
  }

  /** While an endpoint is in use, its callback is that of the subscription in use. */
  predicate CallbacksOk(phases: Phases, callbacks: map<nat, nat>, n: nat) {
    forall ep :: ep in phases && phases[ep] != Off ==>
      1 <= ep <= n && ep in callbacks && callbacks[ep] == phases[ep].sub
  }

  predicate SubsInv(p: Protocol, c: Conn, h: History) {
    && Waiting(c.phases, h.calls, |c.delivered|)
    && OneAtATime(h.calls, |c.delivered|)
    && LiveOk(c.phases, c.live, h.source, h.calls, h.answers, |c.delivered|)
    && EventsOk(c.phases, h.emitted, h.frames)
    && EndsLast(h.calls, h.frames)
    && CallbacksOk(c.phases, c.callbacks, |p.table|)
  }

  // ---- the application ----

  lemma RegisterSubs(p: Protocol, c: Conn, h: History, ep: nat)
    requires SubsInv(p, c, h) && CanRegister(p, c, ep)
    ensures SubsInv(p, RegisterIn(c, ep), h)
  {
  }

  lemma UnregisterSubs(p: Protocol, c: Conn, h: History, ep: nat)
    requires SubsInv(p, c, h) && CanUnregister(c, ep)
    ensures SubsInv(p, UnregisterIn(c, ep), h)
  {
  }

  // ---- requests ----

  lemma BeginSubs(p: Protocol, c: Conn, h: History, id: nat, q: Request)
    requires SubsInv(p, c, h) && CanBegin(p, c, q) && |c.delivered| <= |h.calls| && |h.answers| <= |h.calls|
    requires AllNumbered(h.frames, h.answers, h.emitted, |c.delivered|)
    ensures SubsInv(p, BeginIn(p, c, id, q), BeginLog(c, h, id, q))
  {
    assert q.Request?;
    hide RequestBytes, RequestOk, RequestTyped;
    var h2 := BeginLog(c, h, id, q);
    var c2 := BeginIn(p, c, id, q);
    assert forall i :: 0 <= i < |h.calls| ==> h2.calls[i] == h.calls[i];
    assert LiveOk(c2.phases, c.live, h.source, h2.calls, h.answers, |c.delivered|) by {
      forall ep | ep in c.live ensures NotEnding(h2.calls, h.answers, |c.delivered|, ep) {
        assert NotEnding(h.calls, h.answers, |c.delivered|, ep);
      }
    }
    assert Waiting(c2.phases, h2.calls, |c.delivered|);
    assert OneAtATime(h2.calls, |c.delivered|);
    assert EndsLast(h2.calls, h.frames);
  }

  /** `sub` is what the request at the head of the unread ones carries. */
  lemma DispatchSubs(p: Protocol, c: Conn, h: History, r: Parse<Request>)
    requires SubsInv(p, c, h) && |c.delivered| <= |h.answers| <= |h.served|
    requires r.Done? && r.value.Request? ==>
      && |h.served| < |h.calls|
      && h.calls[|h.served|].q.Request? && r.value.ep == h.calls[|h.served|].q.ep && r.value.op == h.calls[|h.served|].q.op
    ensures SubsInv(p, DispatchIn(c, r), DispatchLog(h, r))
  {
    if r.Done? && r.value.Request? && r.value.op == Subscribe {
      assert Streaming(h.calls[|h.served|]);
      assert NotEnding(h.calls, h.answers, |c.delivered|, r.value.ep);
    }
  }

  // ---- server messages ----

  lemma AnswerSubs(p: Protocol, c: Conn, h: History, reply: Frame)
    requires SubsInv(p, c, h) && CanAnswer(p, c, reply) && |c.delivered| <= |h.answers| < |h.calls|
    requires h.calls[|h.answers|].q.Request?
    requires c.server.q.op == h.calls[|h.answers|].q.op && c.server.q.ep == h.calls[|h.answers|].q.ep
    ensures SubsInv(p, AnswerIn(p, c, reply), AnswerLog(p, c, h, reply))
  {
    hide FrameBytes, FrameOk, FrameTyped;
    var h2 := AnswerLog(p, c, h, reply);
    var c2 := AnswerIn(p, c, reply);
    assert LiveOk(c2.phases, c2.live, h2.source, h2.calls, h2.answers, |c.delivered|) by {
      forall ep | ep in c2.live ensures NotEnding(h2.calls, h2.answers, |c.delivered|, ep) {
        assert NotEnding(h.calls, h.answers, |c.delivered|, ep);
      }
    }
  }

  lemma EmitSubs(p: Protocol, c: Conn, h: History, ep: nat, body: Option<Value>)
    requires SubsInv(p, c, h) && CanEmit(p, c, ep, body) && |c.delivered| <= |h.answers| <= |h.calls|
    requires AllNumbered(h.frames, h.answers, h.emitted, |c.delivered|)
    ensures SubsInv(p, EmitIn(p, c, ep, body), EmitLog(p, h, ep, body))
  {
    hide FrameBytes, FrameOk, FrameTyped;
    assert NotEnding(h.calls, h.answers, |c.delivered|, ep);
  }

  lemma SaySubs(p: Protocol, c: Conn, h: History, noise: Frame)
    requires SubsInv(p, c, h) && !noise.Event?
    ensures SubsInv(p, c, SayLog(h, noise))
  {
  }

  /** Reading a message that is not an answer. */
  lemma ReadSubs(p: Protocol, c: Conn, h: History)
    requires SubsInv(p, c, h) && h.frames != []
    ensures SubsInv(p, c, h.(frames := h.frames[1..]))
  {
    var rest := h.frames[1..];
    assert forall k :: 0 <= k < |rest| ==> rest[k] == h.frames[k + 1];
    assert EndsLast(h.calls, rest);
    assert EventsOk(c.phases, h.emitted, rest);
  }

  /** Reading the answer to the oldest call: its caller's phase moves on, and an ended stream has no more events. */
  lemma NotifySubs(p: Protocol, c: Conn, h: History, got: Got)
    requires SubsInv(p, c, h) && h.frames != [] && |c.delivered| < |h.answers| <= |h.calls|
    requires var x := h.frames[0]; (x.f.Reply? || x.f.ErrorReply?) && x.idx == |c.delivered| && x.f == h.answers[x.idx]
    requires h.calls[|c.delivered|].q.Request? && c.queue != [] && c.queue[0] == Entry(h.calls[|c.delivered|])
    requires AllNumbered(h.frames, h.answers, h.emitted, |c.delivered|)
    requires if h.frames[0].f.Reply? then got.GotReply? else got.GotError?
    ensures SubsInv(p, Notify(c, got), h.(frames := h.frames[1..]))
  {
    var d := |c.delivered|;
    var call := h.calls[d];
    var c2 := Notify(c, got);
    ReadSubs(p, c, h);
    if call.q.op != Unary {
      var phase := PhaseOf(c.phases, call.q.ep);
      assert phase == Awaiting(call);
      if !Ends(call, h.answers[d]) {
        assert PhaseOf(c2.phases, call.q.ep) == On(call.sub);
      } else {
        assert call.q.ep !in c.live by {
          assert call.q.ep in c.live ==> NotEnding(h.calls, h.answers, d, call.q.ep);
        }
        NoEventsLeft(h.calls, h.frames, call.q.ep);
      }
    }
    assert LiveOk(c2.phases, c2.live, h.source, h.calls, h.answers, d + 1) by {
      forall ep | ep in c2.live ensures NotEnding(h.calls, h.answers, d + 1, ep) {
        assert NotEnding(h.calls, h.answers, d, ep);
      }
    }
  }

  lemma NoEventsLeft(calls: seq<Call>, frames: seq<Sent>, ep: nat)
    requires frames != [] && EndsLast(calls, frames) && Silences(calls, frames[0], ep)
    ensures forall k :: 0 <= k < |frames[1..]| && frames[1..][k].f.Event? ==> frames[1..][k].f.ep != ep
  {
    forall k | 0 <= k < |frames[1..]| && frames[1..][k].f.Event? ensures frames[1..][k].f.ep != ep {
      assert frames[1..][k] == frames[k + 1] && frames[k + 1].f.Event?;
    }
  }
}
