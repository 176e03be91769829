/** Which services may emit events, told from the requests the server has read and the answers it has given. */
module Emitters {
  import opened Wire
  import opened Schemas
  import opened Frames
  import opened Channels
  import opened Session
  import opened Lockstep
  import opened LockstepSteps
  import opened Subscriptions
  import opened Safety
  import opened Guarantees

  /** Request `i` starts the events of `ep`: it subscribes, and was not answered with an error. */
  predicate Starts(served: seq<Request>, answers: seq<Frame>, i: nat, ep: nat)
    requires i < |served|
  {
    served[i].Request? && served[i].ep == ep && served[i].op == Subscribe && (i < |answers| ==> answers[i].Reply?)
  }

  /** The answer to request `i` ends them: any answer to an unsubscribe request, or an error for a subscribe request. */
  predicate Stops(served: seq<Request>, answers: seq<Frame>, i: nat, ep: nat)
    requires i < |served|
  {
    && served[i].Request? && served[i].ep == ep && i < |answers|
    && (served[i].op == Unsubscribe || (served[i].op == Subscribe && !answers[i].Reply?))
  }

  predicate Emitting(served: seq<Request>, answers: seq<Frame>, ep: nat) {
    exists i :: 0 <= i < |served| && Starts(served, answers, i, ep)
                && forall j :: i < j < |served| ==> !Stops(served, answers, j, ep)
  }

  predicate EmittingFor(h: History, ep: nat, sub: nat) {
    Emitting(h.served, h.answers, ep) && ep in h.source && h.source[ep] == sub
  }

  // ---- the invariant ----

  ghost predicate LiveInv(c: Conn, h: History) {
    forall ep :: ep in c.live <==> c.server != Gone && Emitting(h.served, h.answers, ep)
  }

  /** The service of an endpoint whose caller is subscribed emits for that subscription, and so does one that has read a
      subscribe request and not refused it. */
  ghost predicate OnInv(c: Conn, h: History) {
    && (forall ep :: PhaseOf(c.phases, ep).On? ==> EmittingFor(h, ep, PhaseOf(c.phases, ep).sub))
    && (forall i :: |c.delivered| <= i < |h.served| && i < |h.calls| && Accepted(h, i) ==>
          EmittingFor(h, h.calls[i].q.ep, h.calls[i].sub))
  }

  predicate Accepted(h: History, i: nat)
    requires i < |h.calls|
  {
    Streaming(h.calls[i]) && h.calls[i].q.op == Subscribe && (i < |h.answers| ==> h.answers[i].Reply?)
  }

  ghost predicate EmittersInv(c: Conn, h: History) {
    LiveInv(c, h) && OnInv(c, h)
  }

  // ---- what one more request or answer changes ----

  lemma EmittingServed(served: seq<Request>, answers: seq<Frame>, q: Request, ep: nat)
    requires |answers| == |served|
    ensures Emitting(served + [q], answers, ep) <==>
            Emitting(served, answers, ep) || (q.Request? && q.op == Subscribe && q.ep == ep)
  {
    var after := served + [q];
    forall i | 0 <= i < |served|
      ensures Starts(after, answers, i, ep) == Starts(served, answers, i, ep)
      ensures Stops(after, answers, i, ep) == Stops(served, answers, i, ep)
    {
    }
    assert !Stops(after, answers, |served|, ep);
    if q.Request? && q.op == Subscribe && q.ep == ep {
      assert Starts(after, answers, |served|, ep);
    }
    if i :| 0 <= i < |served| && Starts(served, answers, i, ep)
            && forall j :: i < j < |served| ==> !Stops(served, answers, j, ep) {
      assert Starts(after, answers, i, ep);
    }
  }

  lemma EmittingAnswered(served: seq<Request>, answers: seq<Frame>, reply: Frame, ep: nat)
    requires |served| == |answers| + 1 && served[|answers|].Request? && (reply.Reply? || reply.ErrorReply?)
    ensures var q := served[|answers|];
      Emitting(served, answers + [reply], ep) <==>
      Emitting(served, answers, ep)
      && !(q.ep == ep && (q.op == Unsubscribe || (q.op == Subscribe && reply.ErrorReply?)))
  {
    var n, after := |answers|, answers + [reply];
    forall i | 0 <= i < n
      ensures Starts(served, after, i, ep) == Starts(served, answers, i, ep)
      ensures Stops(served, after, i, ep) == Stops(served, answers, i, ep)
    {
    }
    assert !Stops(served, answers, n, ep);
    if i :| 0 <= i < |served| && Starts(served, answers, i, ep)
            && forall j :: i < j < |served| ==> !Stops(served, answers, j, ep) {
      if !Stops(served, after, n, ep) {
        assert Starts(served, after, i, ep);
      }
    }
    if i :| 0 <= i < |served| && Starts(served, after, i, ep)
            && forall j :: i < j < |served| ==> !Stops(served, after, j, ep) {
      assert Starts(served, answers, i, ep);
    }
  }

  // ---- every action keeps it ----

  lemma StartEmitters()
    ensures EmittersInv(START, BLANK)
  {
  }

  /** No endpoint becomes subscribed, and nothing else that matters changes. */
  lemma QuietKeeps(c: Conn, h: History, c2: Conn)
    requires EmittersInv(c, h)
    requires c2.live == c.live && (c2.server == Gone <==> c.server == Gone) && c2.delivered == c.delivered
    requires forall ep :: PhaseOf(c2.phases, ep).On? ==> PhaseOf(c2.phases, ep) == PhaseOf(c.phases, ep)
    ensures EmittersInv(c2, h)
  {
    hide Emitting, PhaseOf;
  }

  lemma PhaseSet(phases: map<nat, Phase>, ep: nat, phase: Phase)
    ensures forall x: nat :: PhaseOf(phases[ep := phase], x) == if x == ep then phase else PhaseOf(phases, x)
  {
    forall x: nat ensures PhaseOf(phases[ep := phase], x) == if x == ep then phase else PhaseOf(phases, x) {
    }
  }

  lemma BeginKeeps(p: Protocol, c: Conn, h: History, id: nat, q: Request)
    requires EmittersInv(c, h) && CanBegin(p, c, q) && |h.served| <= |h.calls|
    ensures EmittersInv(BeginIn(p, c, id, q), BeginLog(c, h, id, q))
  {
    assert q.Request?;
    hide Emitting, RequestBytes, RequestOk, RequestTyped;
    var c2 := BeginIn(p, c, id, q);
    PhaseSet(c.phases, q.ep, PhaseOf(c2.phases, q.ep));
    QuietKeeps(c, h, c2);
    var h2 := BeginLog(c, h, id, q);
    assert forall i :: 0 <= i < |h.calls| ==> h2.calls[i] == h.calls[i];
    assert forall i :: 0 <= i < |h.calls| ==> Accepted(h2, i) == Accepted(h, i);
  }

  lemma DispatchKeeps(p: Protocol, c: Conn, h: History, r: Parse<Request>)
    requires p.Valid() && Inv(p, c, h) && EmittersInv(c, h) && c.server == Idle && ReadsNext(p, c, h, r)
    ensures EmittersInv(DispatchIn(c, r), DispatchLog(h, r))
  {
    hide Emitting, UpBytes, RequestOk, RequestTyped, RequestSeen, DownInv, LogInv, EventLogInv, Entries, LiveOk, EventsOk,
         EndsLast, CallbacksOk, Protocol.Valid, Protocol.TableOk;
    if |h.served| < |h.calls| {
      RequestAt(p, h.calls, |h.served|);
      forall ep
        ensures Emitting(h.served + [r.value], h.answers, ep) <==>
                Emitting(h.served, h.answers, ep) || (r.value.op == Subscribe && r.value.ep == ep)
      {
        EmittingServed(h.served, h.answers, r.value, ep);
      }
      NotPending(c, h, |h.served|);
      assert forall i :: 0 <= i < |h.calls| ==> Accepted(DispatchLog(h, r), i) == Accepted(h, i);
    }
  }

  /** The endpoint of a streaming request that is pending has no subscribed caller and no other such request. */
  lemma NotPending(c: Conn, h: History, i: nat)
    requires Waiting(c.phases, h.calls, |c.delivered|) && OneAtATime(h.calls, |c.delivered|)
    requires |c.delivered| <= i < |h.calls|
    ensures Streaming(h.calls[i]) ==> !PhaseOf(c.phases, h.calls[i].q.ep).On?
    ensures forall k :: |c.delivered| <= k < |h.calls| && k != i && Streaming(h.calls[i]) && Streaming(h.calls[k]) ==>
      h.calls[k].q.ep != h.calls[i].q.ep
  {
  }

  lemma AnswerKeeps(p: Protocol, c: Conn, h: History, reply: Frame)
    requires p.Valid() && Inv(p, c, h) && EmittersInv(c, h) && CanAnswer(p, c, reply)
    ensures EmittersInv(AnswerIn(p, c, reply), AnswerLog(p, c, h, reply))
  {
    hide Emitting, UpBytes, RequestOk, RequestTyped, RequestSeen, DownInv, EventLogInv, Entries, LiveOk, EventsOk, FrameOk,
         FrameTyped, FrameBytes, EndsLast, CallbacksOk, AnswersOk, DeliveriesOk, Protocol.Valid, Protocol.TableOk;
    var n := |h.answers|;
    ServedAt(p, h.calls, h.served, n);
    forall ep
      ensures Emitting(h.served, h.answers + [reply], ep) <==>
              Emitting(h.served, h.answers, ep) && !(h.served[n].ep == ep && EndsStream(h.served[n].op, reply))
    {
      EmittingAnswered(h.served, h.answers, reply, ep);
    }
    NotPending(c, h, n);
    var h2 := AnswerLog(p, c, h, reply);
    assert forall i :: 0 <= i < |h.calls| && Accepted(h2, i) ==> Accepted(h, i);
  }

  lemma MessagesIrrelevant(c: Conn, h: History, frames: seq<Sent>)
    ensures EmittersInv(c, h.(frames := frames)) <==> EmittersInv(c, h)
  {
    hide Emitting;
  }

  lemma BytesIrrelevant(c: Conn, h: History, down: Channel)
    ensures EmittersInv(c.(down := down), h) <==> EmittersInv(c, h)
  {
    hide Emitting;
  }

  /** The worker reads an answer, another message, or the goodbye. */
  lemma ReceiveKeeps(p: Protocol, c: Conn, h: History, r: Parse<Got>)
    requires p.Valid() && Inv(p, c, h) && EmittersInv(c, h) && Arrives(p, c, h, r)
    ensures EmittersInv(ReceiveIn(c, r), ReceiveLog(h, r))
  {
    hide Emitting, UpBytes, RequestOk, RequestTyped, DownBytes, EventLogInv, LiveOk, EventsOk, FrameOk, FrameTyped, Seen,
         EndsLast, CallbacksOk, AnswersOk, DeliveriesOk, ServedOk, AllRequestsOk, Protocol.Valid, Protocol.TableOk;
    hide LiveInv, OnInv, PhaseOf;
    MessagesIrrelevant(c, h, h.frames[1..]);
    MessagesIrrelevant(ReceiveIn(c, r), h, h.frames[1..]);
    if h.frames[0].f.Reply? || h.frames[0].f.ErrorReply? {
      AnswerExpected(p, c, h);
      NotifyKeeps(c, h, r.value);
      BytesIrrelevant(Notify(c, r.value), h, c.down.Consume(r.rest));
    } else {
      QuietKeeps(c, h, ReceiveIn(c, r));
    }
  }

  /** The caller of a subscribe request sees the reply. */
  lemma NotifyKeeps(c: Conn, h: History, got: Got)
    requires EmittersInv(c, h) && Waiting(c.phases, h.calls, |c.delivered|) && OneAtATime(h.calls, |c.delivered|)
    requires |c.delivered| < |h.answers| <= |h.served| && |h.answers| <= |h.calls|
    requires c.queue != [] && h.calls[|c.delivered|].q.Request? && c.queue[0] == Entry(h.calls[|c.delivered|])
    requires if h.answers[|c.delivered|].Reply? then got.GotReply? else got.GotError?
    ensures EmittersInv(Notify(c, got), h)
  {
    hide Emitting;
    var call, c2 := h.calls[|c.delivered|], Notify(c, got);
    if call.q.op != Unary {
      PhaseSet(c.phases, call.q.ep, PhaseOf(c2.phases, call.q.ep));
      assert PhaseOf(c.phases, call.q.ep) == Awaiting(call);
      assert Accepted(h, |c.delivered|) ==> EmittingFor(h, call.q.ep, call.sub);
    }
    forall ep: nat | PhaseOf(c2.phases, ep).On? ensures EmittingFor(h, ep, PhaseOf(c2.phases, ep).sub) {
      assert PhaseOf(c2.phases, ep) == PhaseOf(c.phases, ep) || (call.q.op != Unary && ep == call.q.ep);
    }
    assert LiveInv(c2, h);
    assert forall i :: |c2.delivered| <= i < |h.served| && i < |h.calls| && Accepted(h, i) ==>
      EmittingFor(h, h.calls[i].q.ep, h.calls[i].sub);
  }

  lemma ServerKeeps(p: Protocol, c: Conn, h: History)
    requires EmittersInv(c, h)
    ensures CanEndAnswer(c) ==> EmittersInv(EndAnswerIn(c), h)
    ensures CanPart(c) ==> EmittersInv(PartIn(p, c), SayLog(h, Goodbye))
  {
    hide Emitting, FrameBytes, PhaseOf;
    MessagesIrrelevant(PartIn(p, c), h, SayLog(h, Goodbye).frames);
  }

  lemma EmittersStep(p: Protocol, c: Conn, h: History, a: Action)
    requires p.Valid() && Inv(p, c, h) && EmittersInv(c, h) && Enabled(p, c, a)
    ensures EmittersInv(Next(p, c, a), Record(p, c, h, a))
  {
    hide Inv, EmittersInv, Protocol.TableOk, Protocol.Valid, CanRegister, CanUnregister, CanBegin, CanWriteUp, CanPush,
         CanFlushUp, CanEndRequest, CanFinishClose, CanDispatch, CanAnswer, CanEmit, CanSay, CanPart, CanEndAnswer,
         CanReceive, RegisterIn, UnregisterIn, BeginIn, DispatchIn, AnswerIn, PartIn, EndAnswerIn, ReceiveIn, BeginLog,
         DispatchLog, AnswerLog, SayLog, ReceiveLog, ReadUp, ReadDown, TypesKnown, ReadsNext, Arrives;
    match a
    case Register(ep) => PhaseKeeps(p, c, h, ep);
    case Unregister(ep) => PhaseKeeps(p, c, h, ep);
    case Begin(id, q) => ServedWithinCalls(p, c, h); BeginKeeps(p, c, h, id, q);
    case Dispatch => DispatchStep(p, c, h);
    case Answer(reply) => AnswerKeeps(p, c, h, reply);
    case Emit(ep, body) => EmitKeeps(p, c, h, ep, body);
    case Say(noise) => SayKeeps(p, c, h, noise);
    case Part => ServerKeeps(p, c, h);
    case EndAnswer => ServerKeeps(p, c, h);
    case Receive => ReceiveStep(p, c, h);
    case _ => CallerKeeps(p, c, h, a);
  }

  lemma PhaseKeeps(p: Protocol, c: Conn, h: History, ep: nat)
    requires EmittersInv(c, h)
    ensures CanRegister(p, c, ep) ==> EmittersInv(RegisterIn(c, ep), h)
    ensures CanUnregister(c, ep) ==> EmittersInv(UnregisterIn(c, ep), h)
  {
    hide EmittersInv;
    PhaseSet(c.phases, ep, Registered(c.nextSub));
    PhaseSet(c.phases, ep, Off);
    QuietKeeps(c, h, RegisterIn(c, ep));
    QuietKeeps(c, h, UnregisterIn(c, ep));
  }

  lemma ServedWithinCalls(p: Protocol, c: Conn, h: History)
    requires p.Valid() && Inv(p, c, h)
    ensures |h.served| <= |h.calls|
  {
    hide AllRequestsOk, UpBytes, QueueInv, LogInv, EventLogInv, DownInv, SubsInv, Protocol.TableOk;
  }

  lemma DispatchStep(p: Protocol, c: Conn, h: History)
    requires p.Valid() && Inv(p, c, h) && EmittersInv(c, h) && CanDispatch(p, c)
    ensures EmittersInv(DispatchIn(c, ReadUp(p, c)), DispatchLog(h, ReadUp(p, c)))
  {
    hide UpInv, QueueInv, LogInv, EventLogInv, DownInv, SubsInv, ReadUp, ReadsNext, DispatchIn, DispatchLog, EmittersInv,
         Protocol.TableOk;
    DispatchReads(p, c, h);
    DispatchKeeps(p, c, h, ReadUp(p, c));
  }

  lemma EmitKeeps(p: Protocol, c: Conn, h: History, ep: nat, body: Option<Value>)
    requires EmittersInv(c, h) && CanEmit(p, c, ep, body)
    ensures EmittersInv(EmitIn(p, c, ep, body), EmitLog(p, h, ep, body))
  {
    hide Emitting, FrameBytes, FrameOk, FrameTyped, PhaseOf;
    var h2 := EmitLog(p, h, ep, body);
    assert forall i :: 0 <= i < |h.calls| ==> Accepted(h2, i) == Accepted(h, i);
  }

  lemma SayKeeps(p: Protocol, c: Conn, h: History, noise: Frame)
    requires EmittersInv(c, h) && CanSay(p, c, noise)
    ensures EmittersInv(SayIn(p, c, noise), SayLog(h, noise))
  {
    hide EmittersInv, FrameBytes, FrameOk, FrameTyped;
    MessagesIrrelevant(c, h, SayLog(h, noise).frames);
    BytesIrrelevant(c, SayLog(h, noise), SayIn(p, c, noise).down);
  }

  lemma ReceiveStep(p: Protocol, c: Conn, h: History)
    requires p.Valid() && Inv(p, c, h) && EmittersInv(c, h) && CanReceive(p, c)
    ensures TypesKnown(p.client, HeadType(p, c), EventTypes(p, c))
    ensures EmittersInv(ReceiveIn(c, ReadDown(p, c)), ReceiveLog(h, ReadDown(p, c)))
  {
    hide Inv, EmittersInv, HeadType, EventTypes, ReadDown, TypesKnown, Arrives, ReceiveIn, ReceiveLog, Protocol.TableOk;
    ReceiveReads(p, c, h);
    ReceiveKeeps(p, c, h, ReadDown(p, c));
  }

  /** The actions of callers and of the two writers that change neither phases nor services. */
  lemma CallerKeeps(p: Protocol, c: Conn, h: History, a: Action)
    requires p.Valid() && EmittersInv(c, h) && Enabled(p, c, a)
    requires a.WriteUp? || a.Push? || a.FlushUp? || a.EndRequest? || a.BeginClose? || a.FinishClose? || a.WriteDown?
             || a.FlushDown?
    ensures EmittersInv(Next(p, c, a), Record(p, c, h, a))
  {
    hide EmittersInv, RequestOk, RequestTyped, AfterId, PhaseOf, Protocol.TableOk;
    QuietKeeps(c, h, Next(p, c, a));
  }

  lemma {:induction false} EmittersRun(p: Protocol, w: World, run: seq<Action>)
    requires p.Valid() && Inv(p, w.c, w.h) && EmittersInv(w.c, w.h) && Runs(p, w, run)
    ensures Inv(p, After(p, w, run).c, After(p, w, run).h)
    ensures EmittersInv(After(p, w, run).c, After(p, w, run).h)
    decreases |run|
  {
    hide Inv, EmittersInv, Enabled, Next, Record, Protocol.TableOk;
    if run != [] {
      StepInv(p, w.c, w.h, run[0]);
      EmittersStep(p, w.c, w.h, run[0]);
      EmittersRun(p, World(Next(p, w.c, run[0]), Record(p, w.c, w.h, run[0])), run[1..]);
    }
  }

  // ---- main results ----

  /** In every run a service may emit an event exactly while it is known to the client's callers as started: the server
      has read a subscribe request for the endpoint that it did not refuse, has answered no unsubscribe request and
      refused no subscribe request for it since, and is not gone. */
  lemma EmitExactly(p: Protocol, run: seq<Action>, ep: nat, body: Option<Value>)
    requires p.Valid() && Runs(p, INITIALLY, run)
    ensures var w := After(p, INITIALLY, run);
      Enabled(p, w.c, Emit(ep, body)) <==>
        && w.c.server != Gone && Emitting(w.h.served, w.h.answers, ep) && w.c.down.Idle()
        && 1 <= ep <= |p.table| && FrameOk(p, p.table[ep - 1].resp, Event(ep, body))
  {
    hide Inv, Runs, After, Emitting, OnInv, FrameOk, Protocol.TableOk;
    StartInv(p);
    StartEmitters();
    EmittersRun(p, INITIALLY, run);
    Unbroken(p, After(p, INITIALLY, run).c, After(p, INITIALLY, run).h);
  }

  lemma Unbroken(p: Protocol, c: Conn, h: History)
    requires p.Valid() && Inv(p, c, h)
    ensures !c.broken
  {
    hide UpInv, QueueInv, LogInv, EventLogInv, DownInv, SubsInv, Protocol.TableOk;
  }

  /** While a caller is subscribed the service may emit any event at any time, between any two other messages, and for
      that very subscription, until the server is gone. */
  lemma SubscribedMayEmit(p: Protocol, run: seq<Action>, ep: nat, body: Option<Value>)
    requires p.Valid() && Runs(p, INITIALLY, run)
    requires var c := After(p, INITIALLY, run).c; PhaseOf(c.phases, ep).On? && c.down.Idle() && c.server != Gone
    requires 1 <= ep <= |p.table| && FrameOk(p, p.table[ep - 1].resp, Event(ep, body))
    ensures var w := After(p, INITIALLY, run);
      && Enabled(p, w.c, Emit(ep, body))
      && Record(p, w.c, w.h, Emit(ep, body)).emitted == w.h.emitted + [Emission(PhaseOf(w.c.phases, ep).sub, ep, body)]
  {
    hide Inv, Runs, After, Emitting, FrameOk, PhaseOf, Protocol.TableOk;
    StartInv(p);
    StartEmitters();
    EmittersRun(p, INITIALLY, run);
    Unbroken(p, After(p, INITIALLY, run).c, After(p, INITIALLY, run).h);
  }
}
