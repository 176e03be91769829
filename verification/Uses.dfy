/** What applications and services can do with a connection, from every state it can get into: any call can be answered
    with any answer of its type, any streaming endpoint can be subscribed, events reach its callback, and it can be
    unsubscribed. */
module Uses {
  import opened Wire
  import opened Schemas
  import opened Frames
  import opened Channels
  import opened Session
  import opened Streams
  import opened Lockstep
  import opened LockstepSteps
  import opened Subscriptions
  import opened Deliveries
  import opened Safety
  import opened Guarantees
  import opened Progress
  import opened Emitters

  ghost predicate Good(p: Protocol, w: World)
    requires p.Valid()
  {
    Inv(p, w.c, w.h) && EmittersInv(w.c, w.h)
  }

  lemma GoodAfter(p: Protocol, w: World, run: seq<Action>)
    requires p.Valid() && Good(p, w) && Runs(p, w, run)
    ensures Good(p, After(p, w, run))
  {
    hide Inv, EmittersInv, Protocol.TableOk, Runs, After;
    EmittersRun(p, w, run);
  }

  lemma {:induction false} RunsJoin(p: Protocol, w: World, a: seq<Action>, b: seq<Action>)
    requires p.Valid() && Runs(p, w, a) && Runs(p, After(p, w, a), b)
    ensures Runs(p, w, a + b) && After(p, w, a + b) == After(p, After(p, w, a), b)
    decreases |a|
  {
    hide Enabled, Next, Record, Protocol.TableOk;
    if a == [] {
      assert a + b == b;
    } else {
      assert (a + b)[1..] == a[1..] + b;
      RunsJoin(p, World(Next(p, w.c, a[0]), Record(p, w.c, w.h, a[0])), a[1..], b);
    }
  }

  lemma OneStep(p: Protocol, w: World, a: Action)
    requires p.Valid() && Good(p, w) && Enabled(p, w.c, a)
    ensures Runs(p, w, [a]) && After(p, w, [a]) == World(Next(p, w.c, a), Record(p, w.c, w.h, a))
    ensures Good(p, After(p, w, [a]))
  {
    hide Inv, EmittersInv, Enabled, Next, Record, Protocol.TableOk;
    assert [a][1..] == [];
    StepInv(p, w.c, w.h, a);
    EmittersStep(p, w.c, w.h, a);
  }

  // ---- events ----

  /** Everything the server's threads have begun to write reaches the client. */
  lemma FlushRun(p: Protocol, w: World) returns (run: seq<Action>)
    requires p.Valid() && Good(p, w)
    ensures Runs(p, w, run) && Good(p, After(p, w, run))
    ensures After(p, w, run) == World(w.c.(down := After(p, w, run).c.down), w.h) && After(p, w, run).c.down.Idle()
  {
    hide Good, Protocol.TableOk, Runs, After;
    assert !w.c.broken by {
      hide *;
      GoodUnbroken(p, w);
    }
    var a, b := WriteDown(|w.c.down.todo|), FlushDown(|w.c.down.buf + w.c.down.todo|);
    OneStep(p, w, a);
    var w1 := After(p, w, [a]);
    OneStep(p, w1, b);
    RunsJoin(p, w, [a], [b]);
    run := [a] + [b];
  }

  lemma GoodUnbroken(p: Protocol, w: World)
    requires p.Valid() && Good(p, w)
    ensures !w.c.broken
  {
    hide UpInv, QueueInv, LogInv, EventLogInv, DownInv, SubsInv, EmittersInv, Protocol.TableOk;
  }

  lemma ReadNext(p: Protocol, c: Conn, h: History)
    requires p.Valid() && Inv(p, c, h) && CanReceive(p, c) && !GoodbyeSent(c)
    ensures TypesKnown(p.client, HeadType(p, c), EventTypes(p, c))
    ensures var (c2, h2) := (ReceiveIn(c, ReadDown(p, c)), ReceiveLog(h, ReadDown(p, c)));
      && h.frames != [] && h2 == h.(frames := h.frames[1..])
      && c.routed <= c2.routed && c2.server == c.server && c2.caller == c.caller
      && c2.down.buf == c.down.buf && c2.down.todo == c.down.todo
  {
    hide Inv, HeadType, EventTypes, ReadDown, TypesKnown, DownBytes, FrameOk, FrameTyped, FrameSeen, Protocol.TableOk;
    ReceiveReads(p, c, h);
  }

  /** Reading a message leaves a subscribed caller subscribed: no answer for its endpoint is on its way. */
  lemma StaysOn(p: Protocol, c: Conn, h: History, ep: nat)
    requires p.Valid() && Inv(p, c, h) && CanReceive(p, c) && PhaseOf(c.phases, ep).On?
    ensures TypesKnown(p.client, HeadType(p, c), EventTypes(p, c))
    ensures PhaseOf(ReceiveIn(c, ReadDown(p, c)).phases, ep) == PhaseOf(c.phases, ep)
  {
    hide Inv, HeadType, EventTypes, ReadDown, TypesKnown, DownBytes, FrameOk, FrameTyped, FrameSeen, Protocol.TableOk,
         Arrives;
    ReceiveReads(p, c, h);
    ReadStaysOn(p, c, h, ReadDown(p, c), ep);
  }

  lemma ReadStaysOn(p: Protocol, c: Conn, h: History, r: Parse<Got>, ep: nat)
    requires p.Valid() && Inv(p, c, h) && Arrives(p, c, h, r) && PhaseOf(c.phases, ep).On?
    ensures PhaseOf(ReceiveIn(c, r).phases, ep) == PhaseOf(c.phases, ep)
  {
    hide UpBytes, RequestOk, RequestTyped, DownBytes, EventLogInv, LogInv, LiveOk, EventsOk, EndsLast, CallbacksOk, FrameOk,
         FrameTyped, Seen, AllRequestsOk, Protocol.Valid, Protocol.TableOk;
    if h.frames[0].f.Reply? || h.frames[0].f.ErrorReply? {
      AnswerExpected(p, c, h);
      assert Streaming(h.calls[|c.delivered|]) ==> h.calls[|c.delivered|].q.ep != ep;
    }
  }

  lemma WorkerRuns(p: Protocol, c: Conn, h: History)
    requires p.Valid() && Inv(p, c, h)
    ensures !GoodbyeSent(c) ==> c.worker == Running
    ensures h.frames == [] ==> |c.routed| == |h.emitted|
  {
    hide UpInv, QueueInv, LogInv, EventLogInv, SubsInv, DownBytes, Protocol.TableOk;
  }

  /** The worker reads every message in flight. */
  lemma ReadRun(p: Protocol, w: World, ep: nat) returns (run: seq<Action>)
    requires p.Valid() && Good(p, w) && w.c.down.Idle() && !GoodbyeSent(w.c) && PhaseOf(w.c.phases, ep).On?
    ensures Runs(p, w, run) && Good(p, After(p, w, run)) && !GoodbyeSent(After(p, w, run).c)
    ensures var w2 := After(p, w, run);
      && w2.h == w.h.(frames := []) && w.c.routed <= w2.c.routed && w2.c.caller == w.c.caller
      && PhaseOf(w2.c.phases, ep) == PhaseOf(w.c.phases, ep)
    decreases |w.h.frames|
  {
    hide Inv, EmittersInv, Protocol.TableOk, CanReceive, ReceiveIn, ReceiveLog, ReadDown, TypesKnown, PhaseOf;
    if w.h.frames == [] {
      run := [];
    } else {
      WorkerRuns(p, w.c, w.h);
      WorkerHasInput(p, w.c, w.h);
      Unbroken(p, w.c, w.h);
      ReadNext(p, w.c, w.h);
      StaysOn(p, w.c, w.h, ep);
      OneStep(p, w, Receive);
      var w2 := After(p, w, [Receive]);
      var rest := ReadRun(p, w2, ep);
      RunsJoin(p, w, [Receive], rest);
      run := [Receive] + rest;
    }
  }

  /** `w2` has one event more than `w`, and the callback of its subscription has run with it, right behind the events
      that were still on their way. */
  ghost predicate EventArrived(p: Protocol, w: World, w2: World, sub: nat, ep: nat, body: Option<Value>)
    requires p.Valid() && 1 <= ep <= |p.table| && FrameOk(p, p.table[ep - 1].resp, Event(ep, body))
  {
    && w2.h.emitted == w.h.emitted + [Emission(sub, ep, body)]
    && w.c.routed <= w2.c.routed && |w2.c.routed| == |w.h.emitted| + 1
    && w2.c.routed[|w.h.emitted|] == Routed(sub, ep, Seen(p.server, p.client, p.table[ep - 1].resp, body))
  }

  lemma EventRun(p: Protocol, w: World, ep: nat, body: Option<Value>) returns (run: seq<Action>)
    requires p.Valid() && Good(p, w) && PhaseOf(w.c.phases, ep).On? && !GoodbyeSent(w.c)
    requires 1 <= ep <= |p.table| && FrameOk(p, p.table[ep - 1].resp, Event(ep, body))
    ensures Runs(p, w, run) && Good(p, After(p, w, run)) && !GoodbyeSent(After(p, w, run).c)
    ensures EventArrived(p, w, After(p, w, run), PhaseOf(w.c.phases, ep).sub, ep, body)
    ensures var w2 := After(p, w, run);
      w2.h.calls == w.h.calls && w2.c.caller == w.c.caller && PhaseOf(w2.c.phases, ep) == PhaseOf(w.c.phases, ep)
  {
    hide Good, Protocol.TableOk, PhaseOf, FrameOk, Runs, After;
    var a := FlushRun(p, w);
    var w1 := After(p, w, a);
    MayEmitNow(p, w1, ep, body);
    OneStep(p, w1, Emit(ep, body));
    var w2 := After(p, w1, [Emit(ep, body)]);
    var b := FlushRun(p, w2);
    var w3 := After(p, w2, b);
    var d := ReadRun(p, w3, ep);
    RunsJoin(p, w2, b, d);
    RunsJoin(p, w1, [Emit(ep, body)], b + d);
    RunsJoin(p, w, a, [Emit(ep, body)] + (b + d));
    run := a + ([Emit(ep, body)] + (b + d));
    AllRouted(p, After(p, w3, d));
  }

  /** The service of a subscribed caller may emit, for its subscription. */
  lemma MayEmitNow(p: Protocol, w: World, ep: nat, body: Option<Value>)
    requires p.Valid() && Good(p, w) && PhaseOf(w.c.phases, ep).On? && w.c.server != Gone && w.c.down.Idle()
    requires 1 <= ep <= |p.table| && FrameOk(p, p.table[ep - 1].resp, Event(ep, body))
    ensures Enabled(p, w.c, Emit(ep, body))
    ensures Record(p, w.c, w.h, Emit(ep, body)).emitted == w.h.emitted + [Emission(PhaseOf(w.c.phases, ep).sub, ep, body)]
  {
    hide Inv, FrameOk, PhaseOf, Emitting, Protocol.TableOk;
    Unbroken(p, w.c, w.h);
  }

  /** With nothing in flight every event emitted has been routed. */
  lemma AllRouted(p: Protocol, w: World)
    requires p.Valid() && Good(p, w) && w.h.frames == []
    ensures |w.c.routed| == |w.h.emitted| && RoutedInOrder(p, w.c, w.h)
  {
    hide Inv, EmittersInv, RoutedInOrder, Protocol.TableOk;
    WorkerRuns(p, w.c, w.h);
    RoutedFacts(p, w.c, w.h);
  }

  // ---- calls ----

  /** Taking the lock and beginning a request, and everything that must happen until all is settled; `answer` is what the
      service says to it. */
  lemma CallRun(p: Protocol, w: World, id: nat, q: Request, answer: Frame) returns (run: seq<Action>)
    requires p.Valid() && Good(p, w) && w.c.caller == Free && MayBegin(p, w.c, q)
    requires (answer.Reply? || answer.ErrorReply?) && FrameOk(p, ReplyType(p, q.ep, q.op), answer)
    ensures Runs(p, w, run) && Good(p, After(p, w, run)) && !GoodbyeSent(After(p, w, run).c)
    ensures var (w2, n) := (After(p, w, run), |w.h.calls|);
      && w2.h.calls == w.h.calls + [BeginLog(w.c, w.h, id, q).calls[n]] && w2.h.emitted == w.h.emitted
      && w.c.routed <= w2.c.routed && w2.c.caller == Free && |w2.c.delivered| == n + 1
      && n < |w2.h.answers| && w2.h.answers[n] == answer
    ensures Fate(After(p, w, run).c, After(p, w, run).h, |w.h.calls|)
  {
    hide Inv, EmittersInv, Protocol.TableOk, MayBegin, FrameOk, Runs, After, NothingLeft, Fate, AnswerOk, RequestOk;
    Unbroken(p, w.c, w.h);
    OneStep(p, w, Begin(id, q));
    var w1 := After(p, w, [Begin(id, q)]);
    var choice := map[|w.h.calls| := answer];
    Begun(p, w.c, w.h, id, q, answer, choice);
    var rest := SettlingRun(p, w1, choice);
    FateRun(p, w1, rest, |w.h.calls|);
    GoodAfter(p, w1, rest);
    RunsJoin(p, w, [Begin(id, q)], rest);
    run := [Begin(id, q)] + rest;
    Settled(p, After(p, w1, rest));
  }

  lemma Begun(p: Protocol, c: Conn, h: History, id: nat, q: Request, answer: Frame, choice: map<nat, Frame>)
    requires p.Valid() && Inv(p, c, h) && CanBegin(p, c, q) && choice == map[|h.calls| := answer]
    requires (answer.Reply? || answer.ErrorReply?) && FrameOk(p, ReplyType(p, q.ep, q.op), answer)
    ensures var h2 := BeginLog(c, h, id, q);
      && |h2.calls| == |h.calls| + 1 && Answers(p, h2, choice) && Fate(BeginIn(p, c, id, q), h2, |h.calls|)
      && |h.answers| <= |h.calls| && |c.delivered| <= |h.calls| && !Closed(BeginIn(p, c, id, q))
  {
    hide UpBytes, LogInv, EventLogInv, DownInv, SubsInv, Entries, FrameOk, FrameTyped, BodyOk, RequestBytes, AllRequestsOk,
         Protocol.TableOk;
  }

  /** When nothing is left to do every call has been answered and its caller told. */
  lemma Settled(p: Protocol, w: World)
    requires p.Valid() && Good(p, w) && NothingLeft(w.c, w.h)
    ensures |w.c.delivered| == |w.h.calls| == |w.h.answers|
    ensures !Closed(w.c) ==> w.c.caller == Free && !GoodbyeSent(w.c)
  {
    hide UpBytes, LogInv, EventLogInv, DownInv, SubsInv, Entries, AllRequestsOk, EmittersInv, Protocol.TableOk;
  }

  /** What the caller of streaming request `i` is left with once it has been told the answer. */
  function Outcome(call: Call, answer: Frame): Phase {
    if !answer.Reply? then Off
    else if call.q.Request? && call.q.op == Subscribe then On(call.sub) else Removing(call.sub)
  }

  predicate Fate(c: Conn, h: History, i: nat) {
    && i < |h.calls|
    && (Streaming(h.calls[i]) && i < |c.delivered| ==>
          i < |h.answers| && PhaseOf(c.phases, h.calls[i].q.ep) == Outcome(h.calls[i], h.answers[i]))
  }

  lemma FateStep(p: Protocol, c: Conn, h: History, a: Action, i: nat)
    requires p.Valid() && Inv(p, c, h) && Internal(a) && Enabled(p, c, a) && Fate(c, h, i)
    ensures Fate(Next(p, c, a), Record(p, c, h, a), i)
  {
    hide Inv, Protocol.TableOk, ReadUp, ReadDown, CanDispatch, CanReceive, CanAnswer, TypesKnown, ReceiveIn, ReceiveLog,
         Arrives, PhaseOf, RequestOk, RequestTyped, FrameBytes;
    if a == Receive {
      ReceiveReads(p, c, h);
      FateRead(p, c, h, ReadDown(p, c), i);
    }
  }

  lemma FateRead(p: Protocol, c: Conn, h: History, r: Parse<Got>, i: nat)
    requires p.Valid() && Inv(p, c, h) && Arrives(p, c, h, r) && Fate(c, h, i)
    ensures Fate(ReceiveIn(c, r), ReceiveLog(h, r), i)
  {
    hide UpBytes, RequestOk, RequestTyped, DownBytes, EventLogInv, LogInv, LiveOk, EventsOk, EndsLast, CallbacksOk, FrameOk,
         FrameTyped, Seen, AllRequestsOk, Protocol.Valid, Protocol.TableOk;
    if h.frames[0].f.Reply? || h.frames[0].f.ErrorReply? {
      AnswerExpected(p, c, h);
      FateNotified(c, h, r.value, i);
    }
  }

  lemma FateNotified(c: Conn, h: History, got: Got, i: nat)
    requires Waiting(c.phases, h.calls, |c.delivered|) && Fate(c, h, i)
    requires |c.delivered| < |h.answers| <= |h.calls| && c.queue != []
    requires h.calls[|c.delivered|].q.Request? && c.queue[0] == Entry(h.calls[|c.delivered|])
    requires if h.answers[|c.delivered|].Reply? then got.GotReply? else got.GotError?
    ensures Fate(Notify(c, got), h, i)
  {
    var call := h.calls[|c.delivered|];
    if Streaming(call) {
      assert PhaseOf(c.phases, call.q.ep) == Awaiting(call);
    }
  }

  lemma {:induction false} FateRun(p: Protocol, w: World, run: seq<Action>, i: nat)
    requires p.Valid() && Inv(p, w.c, w.h) && Runs(p, w, run) && Fate(w.c, w.h, i)
    requires forall k :: 0 <= k < |run| ==> Internal(run[k])
    ensures Fate(After(p, w, run).c, After(p, w, run).h, i)
    decreases |run|
  {
    hide Inv, Enabled, Next, Record, Fate, Protocol.TableOk;
    if run != [] {
      StepInv(p, w.c, w.h, run[0]);
      FateStep(p, w.c, w.h, run[0], i);
      FateRun(p, World(Next(p, w.c, run[0]), Record(p, w.c, w.h, run[0])), run[1..], i);
    }
  }

  // ---- the life of a subscription ----

  /** A callback is registered and the endpoint subscribed. */
  lemma SubscribeRun(p: Protocol, w: World, ep: nat, id: nat, body: Option<Value>, answer: Frame) returns (run: seq<Action>)
    requires p.Valid() && Good(p, w) && w.c.caller == Free && CanRegister(p, w.c, ep)
    requires RequestOk(p, Request(ep, Subscribe, body))
    requires (answer.Reply? || answer.ErrorReply?) && FrameOk(p, None, answer)
    ensures Runs(p, w, run) && Good(p, After(p, w, run)) && !GoodbyeSent(After(p, w, run).c)
    ensures var w2 := After(p, w, run);
      && w2.h.calls == w.h.calls + [Call(id, Request(ep, Subscribe, body), w.c.nextSub)] && w2.h.emitted == w.h.emitted
      && w.c.routed <= w2.c.routed && w2.c.caller == Free
      && PhaseOf(w2.c.phases, ep) == if answer.Reply? then On(w.c.nextSub) else Off
  {
    hide Inv, EmittersInv, Protocol.TableOk, FrameOk, RequestOk, Runs, After;
    Unbroken(p, w.c, w.h);
    OneStep(p, w, Register(ep));
    var w1 := After(p, w, [Register(ep)]);
    var rest := CallRun(p, w1, id, Request(ep, Subscribe, body), answer);
    RunsJoin(p, w, [Register(ep)], rest);
    run := [Register(ep)] + rest;
  }

  /** Any answer without a body will do for a streaming request, and no body is needed to unsubscribe. */
  lemma NoBodyNeeded(p: Protocol, ep: nat, body: Option<Value>)
    ensures FrameOk(p, None, Reply(None))
    ensures RequestOk(p, Request(ep, Subscribe, body)) ==> RequestOk(p, Request(ep, Unsubscribe, None))
  {
  }

  /** The endpoint is unsubscribed and its callback removed. */
  lemma UnsubscribeRun(p: Protocol, w: World, ep: nat, id: nat) returns (run: seq<Action>)
    requires p.Valid() && Good(p, w) && w.c.caller == Free && PhaseOf(w.c.phases, ep).On?
    requires RequestOk(p, Request(ep, Unsubscribe, None))
    ensures Runs(p, w, run) && Good(p, After(p, w, run))
    ensures var w2 := After(p, w, run);
      && w2.h.calls == w.h.calls + [Call(id, Request(ep, Unsubscribe, None), PhaseOf(w.c.phases, ep).sub)]
      && w2.h.emitted == w.h.emitted && w.c.routed <= w2.c.routed && w2.c.caller == Free
      && PhaseOf(w2.c.phases, ep) == Off && ep !in w2.c.callbacks
  {
    hide Inv, EmittersInv, Protocol.TableOk, FrameOk, RequestOk, Runs, After;
    NoBodyNeeded(p, ep, None);
    var a := CallRun(p, w, id, Request(ep, Unsubscribe, None), Reply(None));
    var w1 := After(p, w, a);
    Unbroken(p, w1.c, w1.h);
    OneStep(p, w1, Unregister(ep));
    RunsJoin(p, w, a, [Unregister(ep)]);
    run := a + [Unregister(ep)];
  }

  lemma SubscriptionRun(
      p: Protocol, w: World, ep: nat, id: nat, body: Option<Value>, event: Option<Value>, id2: nat)
    returns (run: seq<Action>)
    requires p.Valid() && Good(p, w) && w.c.caller == Free && CanRegister(p, w.c, ep)
    requires RequestOk(p, Request(ep, Subscribe, body)) && FrameOk(p, p.table[ep - 1].resp, Event(ep, event))
    ensures Runs(p, w, run)
    ensures var w2 := After(p, w, run);
      && EventArrived(p, w, w2, w.c.nextSub, ep, event) && w2.c.caller == Free
      && PhaseOf(w2.c.phases, ep) == Off && ep !in w2.c.callbacks
  {
    hide Protocol.TableOk, FrameOk, RequestOk, Runs, After, PhaseOf, Good, CanRegister, EventArrived;
    NoBodyNeeded(p, ep, body);
    var a := SubscribeRun(p, w, ep, id, body, Reply(None));
    var w1 := After(p, w, a);
    var b := EventRun(p, w1, ep, event);
    var w2 := After(p, w1, b);
    var d := UnsubscribeRun(p, w2, ep, id2);
    RunsJoin(p, w1, b, d);
    RunsJoin(p, w, a, b + d);
    run := a + (b + d);
    SameRouted(p, After(p, w2, d));
    EventKept(p, w, w1, w2, After(p, w2, d), w.c.nextSub, ep, event);
  }

  /** An event that has arrived, with no other event before or after. */
  lemma EventKept(p: Protocol, w: World, w1: World, w2: World, w3: World, sub: nat, ep: nat, body: Option<Value>)
    requires p.Valid() && 1 <= ep <= |p.table| && FrameOk(p, p.table[ep - 1].resp, Event(ep, body))
    requires EventArrived(p, w1, w2, sub, ep, body)
    requires w1.h.emitted == w.h.emitted && w.c.routed <= w1.c.routed
    requires w3.h.emitted == w2.h.emitted && w2.c.routed <= w3.c.routed && |w3.c.routed| <= |w3.h.emitted|
    ensures EventArrived(p, w, w3, sub, ep, body)
  {
    hide FrameOk, Protocol.TableOk;
  }

  /** No more events have been routed than emitted. */
  lemma SameRouted(p: Protocol, w: World)
    requires p.Valid() && Good(p, w)
    ensures |w.c.routed| <= |w.h.emitted|
  {
    hide UpInv, QueueInv, LogInv, DownInv, SubsInv, EmittersInv, Protocol.TableOk;
  }

  // ---- main results, from every state that a run can reach ----

  lemma Reachable(p: Protocol, run: seq<Action>)
    requires p.Valid() && Runs(p, INITIALLY, run)
    ensures Good(p, After(p, INITIALLY, run))
  {
    hide Inv, EmittersInv, Runs, After, Protocol.TableOk;
    StartInv(p);
    StartEmitters();
    EmittersRun(p, INITIALLY, run);
  }

  /** Whenever the call lock is free, any request to a unary endpoint can be made, reaches the server as it was made, and
      can be answered with any reply of the endpoint's type or any error, which its own caller gets. */
  lemma AnyCallAnyAnswer(p: Protocol, run: seq<Action>, id: nat, q: Request, answer: Frame) returns (more: seq<Action>)
    requires p.Valid() && Runs(p, INITIALLY, run) && After(p, INITIALLY, run).c.caller == Free
    requires RequestOk(p, q) && !p.table[q.ep - 1].streaming
    requires (answer.Reply? || answer.ErrorReply?) && FrameOk(p, p.table[q.ep - 1].resp, answer)
    ensures var (w, n) := (After(p, INITIALLY, run), |After(p, INITIALLY, run).h.calls|);
      && Runs(p, w, more)
      && var w2 := After(p, w, more);
      && |w2.c.delivered| == |w2.h.served| == n + 1 && w2.h.served[n] == RequestSeen(p, q)
      && w2.c.delivered[n] == Delivery(id, FrameSeen(p, p.table[q.ep - 1].resp, answer)) && w2.c.caller == Free
  {
    hide Good, Runs, After, FrameOk, RequestSeen, FrameSeen, Protocol.TableOk;
    Reachable(p, run);
    var w := After(p, INITIALLY, run);
    more := CallRun(p, w, id, q, answer);
    Told(p, After(p, w, more), |w.h.calls|);
  }

  lemma Told(p: Protocol, w: World, n: nat)
    requires p.Valid() && Good(p, w) && |w.h.calls| == |w.c.delivered| == n + 1
    ensures RequestOk(p, w.h.calls[n].q) && w.h.calls[n].q.Request? && |w.h.served| == n + 1 == |w.h.answers|
    ensures w.h.served[n] == RequestSeen(p, w.h.calls[n].q) && DeliveryOk(p, w.h.calls[n], w.h.answers[n], w.c.delivered[n])
  {
    hide Inv, EmittersInv, RequestOk, RequestTyped, DeliveryOk, RequestSeen, Entries, Protocol.TableOk;
    LockstepFacts(p, w.c, w.h);
    RequestAt(p, w.h.calls, n);
  }

  /** Events get through: from every state in which a caller is subscribed and the server has not said goodbye, the
      service can emit any event and the callback of that very subscription runs with it, behind those of the events
      that were still on their way and of no others. */
  lemma EventReachesItsCallback(p: Protocol, run: seq<Action>, ep: nat, body: Option<Value>) returns (more: seq<Action>)
    requires p.Valid() && Runs(p, INITIALLY, run)
    requires var c := After(p, INITIALLY, run).c; PhaseOf(c.phases, ep).On? && !GoodbyeSent(c)
    requires 1 <= ep <= |p.table| && FrameOk(p, p.table[ep - 1].resp, Event(ep, body))
    ensures var w := After(p, INITIALLY, run);
      Runs(p, w, more) && EventArrived(p, w, After(p, w, more), PhaseOf(w.c.phases, ep).sub, ep, body)
  {
    hide Good, Runs, After, FrameOk, PhaseOf, EventArrived, Protocol.TableOk;
    Reachable(p, run);
    more := EventRun(p, After(p, INITIALLY, run), ep, body);
  }

  /** The life of a subscription: whenever the call lock is free, a streaming endpoint that is not in use can be
      subscribed, any event then reaches the callback registered for it, and it can be unsubscribed and its callback
      removed. The start of a connection is such a state. */
  lemma SubscriptionsWork(
      p: Protocol, run: seq<Action>, ep: nat, id: nat, body: Option<Value>, event: Option<Value>, id2: nat)
    returns (more: seq<Action>)
    requires p.Valid() && Runs(p, INITIALLY, run)
    requires var c := After(p, INITIALLY, run).c; c.caller == Free && PhaseOf(c.phases, ep).Off?
    requires 1 <= ep <= |p.table| && p.table[ep - 1].streaming && RequestOk(p, Request(ep, Subscribe, body))
    requires FrameOk(p, p.table[ep - 1].resp, Event(ep, event))
    ensures var w := After(p, INITIALLY, run);
      && Runs(p, w, more)
      && var w2 := After(p, w, more);
      && EventArrived(p, w, w2, w.c.nextSub, ep, event) && w2.c.caller == Free
      && PhaseOf(w2.c.phases, ep).Off? && ep !in w2.c.callbacks
  {
    hide Good, Runs, After, FrameOk, RequestOk, PhaseOf, EventArrived, Protocol.TableOk;
    Reachable(p, run);
    more := SubscriptionRun(p, After(p, INITIALLY, run), ep, id, body, event, id2);
  }

  /** What may begin in a state that a run can reach: a log record of up to 16384 bytes or a raw line whenever nobody else
      is writing, calls and closes whenever the call lock is free, and the use of any streaming endpoint not in use. */
  lemma MayBeginExactly(p: Protocol, run: seq<Action>, text: seq<Byte>, line: seq<Byte>, id: nat, q: Request, ep: nat)
    requires p.Valid() && Runs(p, INITIALLY, run)
    ensures var c := After(p, INITIALLY, run).c;
      && (Enabled(p, c, Say(Log(text))) <==> c.down.Idle() && |text| <= 16384)
      && (Enabled(p, c, Say(Frame.Text(line))) <==> c.down.Idle() && IsLine(line))
      && (Enabled(p, c, BeginClose) <==> c.caller == Free)
      && (q.Request? && q.op == Unary ==> (Enabled(p, c, Begin(id, q)) <==> c.caller == Free && RequestOk(p, q)))
      && (Enabled(p, c, Register(ep)) <==>
          1 <= ep <= |p.table| && p.table[ep - 1].streaming && PhaseOf(c.phases, ep).Off?)
  {
    hide Good, Runs, After, RequestOk, IsLine, Protocol.TableOk;
    Reachable(p, run);
    GoodUnbroken(p, After(p, INITIALLY, run));
  }
}
