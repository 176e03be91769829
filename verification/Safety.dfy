/** Every action keeps the connection's invariant, so it holds over every run. */
module Safety {
  import opened Wire
  import opened Schemas
  import opened Frames
  import opened Channels
  import opened Session
  import opened Streams
  import opened Lockstep
  import opened LockstepSteps
  import opened Subscriptions
  import opened Deliveries

  ghost predicate Inv(p: Protocol, c: Conn, h: History)
    requires p.Valid()
  {
    && !c.broken
    && UpInv(p, c, h)
    && QueueInv(c, h)
    && LogInv(p, c, h)
    && EventLogInv(p, c, h)
    && DownInv(p, c, h)
    && SubsInv(p, c, h)
  }

  lemma StartInv(p: Protocol)
    requires p.Valid()
    ensures Inv(p, START, BLANK)
  {
  }

  // ---- the logs ----

  lemma EmissionsGrow(p: Protocol, emitted: seq<Emission>, e: Emission, routed: seq<Routed>)
    requires p.Valid() && EmissionsOk(p, emitted) && RoutedOk(p, emitted, routed) && EmissionOk(p, e)
    ensures EmissionsOk(p, emitted + [e]) && RoutedOk(p, emitted + [e], routed)
  {
    hide EmissionOk, Protocol.Valid, RoutedAs;
  }

  lemma CallsGrow(
      p: Protocol, calls: seq<Call>, call: Call, served: seq<Request>, answers: seq<Frame>, delivered: seq<Delivery>)
    requires p.Valid() && AllRequestsOk(p, calls) && RequestOk(p, call.q)
    requires ServedOk(p, calls, served) && AnswersOk(p, calls, answers) && DeliveriesOk(p, calls, answers, delivered)
    ensures AllRequestsOk(p, calls + [call]) && ServedOk(p, calls + [call], served)
    ensures AnswersOk(p, calls + [call], answers) && DeliveriesOk(p, calls + [call], answers, delivered)
  {
    hide RequestOk, RequestTyped, RequestSeen, Protocol.Valid, AnswerOk, DeliveryOk;
    assert forall i :: 0 <= i < |calls| ==> (calls + [call])[i] == calls[i];
  }

  lemma ServedGrows(p: Protocol, calls: seq<Call>, served: seq<Request>, q: Request)
    requires p.Valid() && AllRequestsOk(p, calls) && ServedOk(p, calls, served)
    requires |served| < |calls| && q == RequestSeen(p, calls[|served|].q)
    ensures ServedOk(p, calls, served + [q])
  {
    hide RequestOk, RequestTyped, RequestSeen, Protocol.Valid;
  }

  lemma AnswersGrow(p: Protocol, calls: seq<Call>, answers: seq<Frame>, delivered: seq<Delivery>, answer: Frame)
    requires p.Valid() && AllRequestsOk(p, calls) && AnswersOk(p, calls, answers)
    requires DeliveriesOk(p, calls, answers, delivered)
    requires |answers| < |calls| && AnswerOk(p, calls[|answers|], answer)
    ensures AnswersOk(p, calls, answers + [answer]) && DeliveriesOk(p, calls, answers + [answer], delivered)
  {
    hide RequestOk, RequestTyped, Protocol.Valid, AnswerOk, DeliveryOk;
  }

  lemma DeliveriesGrow(p: Protocol, calls: seq<Call>, answers: seq<Frame>, delivered: seq<Delivery>)
    requires p.Valid() && AllRequestsOk(p, calls) && AnswersOk(p, calls, answers)
    requires DeliveriesOk(p, calls, answers, delivered) && |delivered| < |answers|
    ensures var i := |delivered|;
      var last := Delivery(calls[i].id, FrameSeen(p, TypeOf(p, calls[i]), answers[i]));
      DeliveriesOk(p, calls, answers, delivered + [last])
  {
    hide RequestOk, RequestTyped, Protocol.Valid, FrameSeen, TypeOf, FrameOk, FrameTyped;
    assert AnswerOk(p, calls[|delivered|], answers[|delivered|]);
  }

  lemma RoutedGrows(p: Protocol, emitted: seq<Emission>, routed: seq<Routed>)
    requires p.Valid() && EmissionsOk(p, emitted) && RoutedOk(p, emitted, routed) && |routed| < |emitted|
    ensures RoutedOk(p, emitted, routed + [RoutedAs(p, emitted[|routed|])])
  {
    hide EmissionOk, Protocol.Valid, RoutedAs;
  }

  // ---- the application ----

  lemma RegisterInv(p: Protocol, c: Conn, h: History, ep: nat)
    requires p.Valid() && Inv(p, c, h) && CanRegister(p, c, ep)
    ensures Inv(p, RegisterIn(c, ep), h)
  {
    hide AllRequestsOk, UpBytes, RequestOk, RequestTyped, RequestBytes, FrameBytes, Entries, ServedOk, AnswersOk,
         DeliveriesOk, EmissionsOk, RoutedOk, DownBytes, InOrder, Goodbyes, Waiting, OneAtATime, LiveOk, EventsOk,
         EndsLast, CallbacksOk, Protocol.Valid, Protocol.TableOk, CanRegister;
    RegisterSubs(p, c, h, ep);
  }

  lemma UnregisterInv(p: Protocol, c: Conn, h: History, ep: nat)
    requires p.Valid() && Inv(p, c, h) && CanUnregister(c, ep)
    ensures Inv(p, UnregisterIn(c, ep), h)
  {
    hide AllRequestsOk, UpBytes, RequestOk, RequestTyped, RequestBytes, FrameBytes, Entries, ServedOk, AnswersOk,
         DeliveriesOk, EmissionsOk, RoutedOk, DownBytes, InOrder, Goodbyes, Waiting, OneAtATime, LiveOk, EventsOk,
         EndsLast, CallbacksOk, Protocol.Valid, Protocol.TableOk, CanUnregister;
    UnregisterSubs(p, c, h, ep);
  }

  // ---- callers ----

  lemma WriteUpInv(p: Protocol, c: Conn, h: History, n: nat)
    requires p.Valid() && Inv(p, c, h) && CanWriteUp(p, c, n)
    ensures Inv(p, c.(up := c.up.Write(n)), h)
  {
    hide AllRequestsOk, UpBytes, RequestOk, RequestTyped, RequestBytes, FrameBytes, Entries, ServedOk, AnswersOk,
         DeliveriesOk, EmissionsOk, RoutedOk, DownBytes, InOrder, Goodbyes, Waiting, OneAtATime, LiveOk, EventsOk,
         EndsLast, CallbacksOk, Protocol.Valid, Protocol.TableOk, UpInv;
    WriteUpKeeps(p, c, h, n);
  }

  lemma FlushUpInv(p: Protocol, c: Conn, h: History, n: nat)
    requires p.Valid() && Inv(p, c, h) && CanFlushUp(c, n)
    ensures Inv(p, c.(up := c.up.Flush(n)), h)
  {
    hide AllRequestsOk, UpBytes, RequestOk, RequestTyped, RequestBytes, FrameBytes, Entries, ServedOk, AnswersOk,
         DeliveriesOk, EmissionsOk, RoutedOk, DownBytes, InOrder, Goodbyes, Waiting, OneAtATime, LiveOk, EventsOk,
         EndsLast, CallbacksOk, Protocol.Valid, Protocol.TableOk, UpInv;
    FlushUpKeeps(p, c, h, n);
  }

  lemma EndRequestInv(p: Protocol, c: Conn, h: History)
    requires p.Valid() && Inv(p, c, h) && CanEndRequest(c)
    ensures Inv(p, c.(caller := Free), h)
  {
    hide AllRequestsOk, UpBytes, RequestOk, RequestTyped, RequestBytes, FrameBytes, Entries, ServedOk, AnswersOk,
         DeliveriesOk, EmissionsOk, RoutedOk, DownBytes, InOrder, Goodbyes, Waiting, OneAtATime, LiveOk, EventsOk,
         EndsLast, CallbacksOk, Protocol.Valid, Protocol.TableOk;
  }

  lemma BeginCloseInv(p: Protocol, c: Conn, h: History)
    requires p.Valid() && Inv(p, c, h) && c.caller == Free
    ensures Inv(p, c.(caller := Closing, up := c.up.Start([0])), h)
  {
    hide AllRequestsOk, UpBytes, RequestOk, RequestTyped, RequestBytes, FrameBytes, Entries, ServedOk, AnswersOk,
         DeliveriesOk, EmissionsOk, RoutedOk, DownBytes, InOrder, Goodbyes, Waiting, OneAtATime, LiveOk, EventsOk,
         EndsLast, CallbacksOk, Protocol.Valid, Protocol.TableOk, UpInv;
    BeginCloseUp(p, c, h);
  }

  lemma FinishCloseInv(p: Protocol, c: Conn, h: History)
    requires p.Valid() && Inv(p, c, h) && CanFinishClose(c)
    ensures Inv(p, c.(caller := Finished), h)
  {
    hide AllRequestsOk, UpBytes, RequestOk, RequestTyped, RequestBytes, FrameBytes, Entries, ServedOk, AnswersOk,
         DeliveriesOk, EmissionsOk, RoutedOk, DownBytes, InOrder, Goodbyes, Waiting, OneAtATime, LiveOk, EventsOk,
         EndsLast, CallbacksOk, Protocol.Valid, Protocol.TableOk;
  }

  lemma BeginInv(p: Protocol, c: Conn, h: History, id: nat, q: Request)
    requires p.Valid() && Inv(p, c, h) && CanBegin(p, c, q)
    ensures Inv(p, BeginIn(p, c, id, q), BeginLog(c, h, id, q))
  {
    hide AllRequestsOk, UpBytes, BodyOk, RequestBytes, FrameBytes, Entries, ServedOk, AnswersOk, DeliveriesOk,
         EmissionsOk, RoutedOk, DownBytes, InOrder, Goodbyes, Waiting, OneAtATime, LiveOk, EventsOk, EndsLast,
         CallbacksOk, Protocol.Valid, Protocol.TableOk;
    var h2 := BeginLog(c, h, id, q);
    InOrderNumbers(p, h.calls, h.answers, h.emitted, h.frames, |c.delivered|, |h.answers|, |c.routed|, |h.emitted|);
    BeginUp(p, c, h, id, q);
    BeginSubs(p, c, h, id, q);
    CallsGrow(p, h.calls, h2.calls[|h.calls|], h.served, h.answers, c.delivered);
    InOrderGrow(p, h.calls, h.answers, h.emitted, h.frames, |c.delivered|, |h.answers|, |c.routed|, |h.emitted|,
                h2.calls, h.answers, h.emitted);
    assert Entries(c.queue, h2.calls, |c.delivered|) by {
      EntriesKept(c.queue, h.calls, h2.calls, |c.delivered|);
    }
  }

  lemma EntriesKept(queue: seq<Pending>, calls: seq<Call>, calls2: seq<Call>, from: nat)
    requires Entries(queue, calls, from) && calls <= calls2
    ensures Entries(queue, calls2, from)
  {
    assert forall i :: 0 <= i < |calls| ==> calls2[i] == calls[i];
  }

  lemma PushInv(p: Protocol, c: Conn, h: History)
    requires p.Valid() && Inv(p, c, h) && CanPush(p, c)
    ensures Inv(p, PushIn(c), h)
  {
    hide AllRequestsOk, UpBytes, BodyOk, RequestBytes, FrameBytes, Entries, ServedOk, AnswersOk, DeliveriesOk,
         EmissionsOk, RoutedOk, DownBytes, InOrder, Goodbyes, Waiting, OneAtATime, LiveOk, EventsOk, EndsLast,
         CallbacksOk, Protocol.Valid, Protocol.TableOk;
    PushEntries(c.queue, h.calls, |c.delivered|);
  }

  lemma PushEntries(queue: seq<Pending>, calls: seq<Call>, from: nat)
    requires Entries(queue, calls, from) && from + |queue| < |calls| && calls[from + |queue|].q.Request?
    ensures Entries(queue + [Entry(calls[from + |queue|])], calls, from)
  {
  }

  // ---- the server ----

  lemma RequestAt(p: Protocol, calls: seq<Call>, i: nat)
    requires AllRequestsOk(p, calls) && i < |calls|
    ensures RequestOk(p, calls[i].q) && calls[i].q.Request?
  {
  }

  lemma ServedAt(p: Protocol, calls: seq<Call>, served: seq<Request>, i: nat)
    requires p.Valid() && AllRequestsOk(p, calls) && ServedOk(p, calls, served) && i < |served|
    ensures RequestOk(p, calls[i].q) && calls[i].q.Request? && served[i] == RequestSeen(p, calls[i].q)
  {
    hide Protocol.Valid, RequestSeen;
  }

  lemma DispatchInv(p: Protocol, c: Conn, h: History)
    requires p.Valid() && Inv(p, c, h) && CanDispatch(p, c)
    ensures Inv(p, DispatchIn(c, ReadUp(p, c)), DispatchLog(h, ReadUp(p, c)))
  {
    hide UpInv, QueueInv, LogInv, EventLogInv, DownInv, SubsInv, ReadUp, ReadsNext, DispatchIn, DispatchLog,
         Protocol.TableOk;
    DispatchReads(p, c, h);
    ServeInv(p, c, h, ReadUp(p, c));
  }

  lemma ServeInv(p: Protocol, c: Conn, h: History, r: Parse<Request>)
    requires p.Valid() && Inv(p, c, h) && c.server == Idle && ReadsNext(p, c, h, r)
    ensures Inv(p, DispatchIn(c, r), DispatchLog(h, r))
  {
    hide AllRequestsOk, UpBytes, RequestOk, RequestTyped, RequestBytes, FrameBytes, Entries, ServedOk, AnswersOk,
         DeliveriesOk, EmissionsOk, RoutedOk, DownBytes, InOrder, Goodbyes, Waiting, OneAtATime, LiveOk, EventsOk,
         EndsLast, CallbacksOk, Protocol.Valid, Protocol.TableOk, RequestSeen;
    DispatchUp(p, c, h, r);
    if |h.served| < |h.calls| {
      RequestAt(p, h.calls, |h.served|);
      ServedGrows(p, h.calls, h.served, r.value);
    }
    DispatchSubs(p, c, h, r);
  }

  lemma AnswerInv(p: Protocol, c: Conn, h: History, reply: Frame)
    requires p.Valid() && Inv(p, c, h) && CanAnswer(p, c, reply)
    ensures Inv(p, AnswerIn(p, c, reply), AnswerLog(p, c, h, reply))
  {
    hide AllRequestsOk, UpBytes, RequestOk, RequestTyped, RequestBytes, FrameBytes, Entries, ServedOk, AnswersOk,
         DeliveriesOk, EmissionsOk, RoutedOk, DownBytes, InOrder, Goodbyes, Waiting, OneAtATime, LiveOk, EventsOk,
         EndsLast, CallbacksOk, Protocol.Valid, Protocol.TableOk, RequestSeen, FrameOk, FrameTyped;
    var a := |h.answers|;
    ServedAt(p, h.calls, h.served, a);
    AnswerDown(p, c, h, reply);
    AnswerSubs(p, c, h, reply);
    AnswersGrow(p, h.calls, h.answers, c.delivered, reply);
  }

  lemma EndAnswerInv(p: Protocol, c: Conn, h: History)
    requires p.Valid() && Inv(p, c, h) && CanEndAnswer(c)
    ensures Inv(p, EndAnswerIn(c), h)
  {
    hide AllRequestsOk, UpBytes, RequestOk, RequestTyped, RequestBytes, FrameBytes, Entries, ServedOk, AnswersOk,
         DeliveriesOk, EmissionsOk, RoutedOk, DownBytes, InOrder, Goodbyes, Waiting, OneAtATime, LiveOk, EventsOk,
         EndsLast, CallbacksOk, Protocol.Valid, Protocol.TableOk;
    NoneLive(c.phases, h.source, h.calls, h.answers, |c.delivered|);
  }

  lemma NoneLive(phases: Phases, source: map<nat, nat>, calls: seq<Call>, answers: seq<Frame>, d: nat)
    ensures LiveOk(phases, {}, source, calls, answers, d)
  {
  }

  lemma EmitInv(p: Protocol, c: Conn, h: History, ep: nat, body: Option<Value>)
    requires p.Valid() && Inv(p, c, h) && CanEmit(p, c, ep, body)
    ensures Inv(p, EmitIn(p, c, ep, body), EmitLog(p, h, ep, body))
  {
    hide AllRequestsOk, UpBytes, RequestOk, RequestTyped, RequestBytes, FrameBytes, Entries, ServedOk, AnswersOk,
         DeliveriesOk, EmissionsOk, RoutedOk, DownBytes, InOrder, Goodbyes, Waiting, OneAtATime, LiveOk, EventsOk,
         EndsLast, CallbacksOk, Protocol.Valid, Protocol.TableOk;
    InOrderNumbers(p, h.calls, h.answers, h.emitted, h.frames, |c.delivered|, |h.answers|, |c.routed|, |h.emitted|);
    EmitDown(p, c, h, ep, body);
    EmitSubs(p, c, h, ep, body);
    EmissionsGrow(p, h.emitted, EmitLog(p, h, ep, body).emitted[|h.emitted|], c.routed);
  }

  lemma SayInv(p: Protocol, c: Conn, h: History, noise: Frame)
    requires p.Valid() && Inv(p, c, h) && CanSay(p, c, noise)
    ensures Inv(p, SayIn(p, c, noise), SayLog(h, noise))
  {
    hide AllRequestsOk, UpBytes, RequestOk, RequestTyped, RequestBytes, FrameBytes, Entries, ServedOk, AnswersOk,
         DeliveriesOk, EmissionsOk, RoutedOk, DownBytes, InOrder, Goodbyes, Waiting, OneAtATime, LiveOk, EventsOk,
         EndsLast, CallbacksOk, Protocol.Valid, Protocol.TableOk, FrameOk, FrameTyped;
    SayDown(p, c, h, noise);
    SaySubs(p, c, h, noise);
  }

  lemma PartInv(p: Protocol, c: Conn, h: History)
    requires p.Valid() && Inv(p, c, h) && CanPart(c)
    ensures Inv(p, PartIn(p, c), SayLog(h, Goodbye))
  {
    hide AllRequestsOk, UpBytes, RequestOk, RequestTyped, RequestBytes, FrameBytes, Entries, ServedOk, AnswersOk,
         DeliveriesOk, EmissionsOk, RoutedOk, DownBytes, InOrder, Goodbyes, Waiting, OneAtATime, LiveOk, EventsOk,
         EndsLast, CallbacksOk, Protocol.Valid, Protocol.TableOk;
    PartDown(p, c, h);
    SaySubs(p, c, h, Goodbye);
  }

  lemma WriteDownInv(p: Protocol, c: Conn, h: History, n: nat)
    requires p.Valid() && Inv(p, c, h) && n <= |c.down.todo|
    ensures Inv(p, c.(down := c.down.Write(n)), h)
  {
    hide AllRequestsOk, UpBytes, RequestOk, RequestTyped, RequestBytes, FrameBytes, Entries, ServedOk, AnswersOk,
         DeliveriesOk, EmissionsOk, RoutedOk, DownBytes, InOrder, Goodbyes, Waiting, OneAtATime, LiveOk, EventsOk,
         EndsLast, CallbacksOk, Protocol.Valid, Protocol.TableOk, DownInv;
    MoveDown(p, c, h, n);
  }

  lemma FlushDownInv(p: Protocol, c: Conn, h: History, n: nat)
    requires p.Valid() && Inv(p, c, h) && n <= |c.down.buf|
    ensures Inv(p, c.(down := c.down.Flush(n)), h)
  {
    hide AllRequestsOk, UpBytes, RequestOk, RequestTyped, RequestBytes, FrameBytes, Entries, ServedOk, AnswersOk,
         DeliveriesOk, EmissionsOk, RoutedOk, DownBytes, InOrder, Goodbyes, Waiting, OneAtATime, LiveOk, EventsOk,
         EndsLast, CallbacksOk, Protocol.Valid, Protocol.TableOk, DownInv;
    MoveDown(p, c, h, n);
  }

  // ---- the input worker ----

  /** The worker expects the first message in flight: a reply of the oldest pending call's type, or an event whose
      callback is registered. */
  lemma HeadExpected(p: Protocol, c: Conn, h: History)
    requires p.Valid() && Inv(p, c, h) && h.frames != []
    ensures Expected(p, h.frames[0].t, h.frames[0].f, HeadType(p, c), EventTypes(p, c))
  {
    hide AllRequestsOk, UpBytes, RequestOk, RequestTyped, RequestBytes, FrameBytes, Entries, ServedOk, AnswersOk,
         DeliveriesOk, EmissionsOk, RoutedOk, DownBytes, InOrder, Goodbyes, Waiting, OneAtATime, LiveOk, EventsOk,
         EndsLast, CallbacksOk, Protocol.Valid, Protocol.TableOk, EmissionOk, FrameOk, FrameTyped;
    var x := h.frames[0];
    if x.f.Reply? || x.f.ErrorReply? {
      AnswerExpected(p, c, h);
    } else if x.f.Event? {
      EventExpected(p, c, h);
    }
  }

  lemma AnswerExpected(p: Protocol, c: Conn, h: History)
    requires p.Valid() && Inv(p, c, h) && h.frames != [] && (h.frames[0].f.Reply? || h.frames[0].f.ErrorReply?)
    ensures |c.delivered| < |h.answers| && c.queue != [] && h.calls[|c.delivered|].q.Request?
    ensures c.queue[0] == Entry(h.calls[|c.delivered|])
    ensures h.frames[0] == Sent(TypeOf(p, h.calls[|c.delivered|]), h.answers[|c.delivered|], |c.delivered|)
    ensures HeadType(p, c) == Some(h.frames[0].t)
  {
    hide AllRequestsOk, UpBytes, BodyOk, RequestBytes, FrameBytes, ServedOk, AnswersOk, DeliveriesOk, EmissionsOk,
         RoutedOk, DownBytes, Goodbyes, Waiting, OneAtATime, LiveOk, EventsOk, EndsLast, CallbacksOk, Protocol.Valid,
         Protocol.TableOk, EmissionOk, FrameOk, FrameTyped;
    RequestAt(p, h.calls, |c.delivered|);
  }

  lemma EventExpected(p: Protocol, c: Conn, h: History)
    requires p.Valid() && Inv(p, c, h) && h.frames != [] && h.frames[0].f.Event?
    ensures |c.routed| < |h.emitted|
    ensures var e := h.emitted[|c.routed|];
      && EmissionOk(p, e) && h.frames[0] == Sent(p.table[e.ep - 1].resp, Event(e.ep, e.body), |c.routed|)
      && e.ep in c.callbacks && c.callbacks[e.ep] == e.sub
      && e.ep in EventTypes(p, c) && EventTypes(p, c)[e.ep] == h.frames[0].t
  {
    hide AllRequestsOk, UpBytes, BodyOk, RequestBytes, FrameBytes, Entries, ServedOk, AnswersOk, DeliveriesOk,
         EmissionsOk, RoutedOk, DownBytes, Goodbyes, Waiting, OneAtATime, LiveOk, EndsLast, Protocol.Valid,
         Protocol.TableOk;
  }

  /** `r` is the first message in flight, read whole. */
  ghost predicate Arrives(p: Protocol, c: Conn, h: History, r: Parse<Got>)
    requires p.Valid()
  {
    && r.Done? && h.frames != [] && FrameOk(p, h.frames[0].t, h.frames[0].f)
    && r.value == FrameSeen(p, h.frames[0].t, h.frames[0].f)
    && DownBytes(p, c.down.Consume(r.rest), h.frames[1..])
  }

  lemma ReceiveReads(p: Protocol, c: Conn, h: History)
    requires p.Valid() && Inv(p, c, h) && CanReceive(p, c)
    ensures TypesKnown(p.client, HeadType(p, c), EventTypes(p, c)) && Arrives(p, c, h, ReadDown(p, c))
  {
    hide UpInv, QueueInv, LogInv, EventLogInv, SubsInv, GoodbyeInv, InOrder, HeadType, EventTypes, ReadFrame,
         FrameSeen, TypesKnown, Expected, FrameOk, FrameTyped, Protocol.TableOk;
    TypesAreKnown(p, c);
    if h.frames == [] {
      NothingSent(p, c.down, h.frames, HeadType(p, c), EventTypes(p, c));
    } else {
      HeadExpected(p, c, h);
      FrameArrives(p, c.down, h.frames, HeadType(p, c), EventTypes(p, c));
    }
  }

  lemma NothingSent(
      p: Protocol, down: Channel, frames: seq<Sent>, head: Option<Option<nat>>, events: map<nat, Option<nat>>)
    requires frames == [] && DownBytes(p, down, frames) && TypesKnown(p.client, head, events)
    ensures ReadFrame(p.client, down.wire, head, events).Short?
  {
    assert |down.Bytes()| == 0;
  }

  lemma ReceiveInv(p: Protocol, c: Conn, h: History)
    requires p.Valid() && Inv(p, c, h) && CanReceive(p, c)
    ensures TypesKnown(p.client, HeadType(p, c), EventTypes(p, c))
    ensures Inv(p, ReceiveIn(c, ReadDown(p, c)), ReceiveLog(h, ReadDown(p, c)))
  {
    hide UpInv, QueueInv, LogInv, EventLogInv, DownInv, SubsInv, HeadType, EventTypes, ReadDown, TypesKnown, Arrives,
         ReceiveIn, ReceiveLog, Protocol.TableOk;
    ReceiveReads(p, c, h);
    ReadInv(p, c, h, ReadDown(p, c));
  }

  lemma ReadInv(p: Protocol, c: Conn, h: History, r: Parse<Got>)
    requires p.Valid() && Inv(p, c, h) && c.worker == Running && Arrives(p, c, h, r)
    ensures Inv(p, ReceiveIn(c, r), ReceiveLog(h, r))
  {
    hide UpInv, QueueInv, LogInv, EventLogInv, DownInv, SubsInv, FrameOk, FrameTyped, FrameSeen, DownBytes,
         Protocol.TableOk, ReceiveIn, ReceiveLog;
    var f := h.frames[0].f;
    if f.Reply? || f.ErrorReply? {
      AnswerRead(p, c, h, r);
    } else if f.Event? {
      EventRead(p, c, h, r);
    } else if f.Goodbye? {
      GoodbyeRead(p, c, h, r);
    } else {
      NoiseRead(p, c, h, r);
    }
  }

  lemma AnswerRead(p: Protocol, c: Conn, h: History, r: Parse<Got>)
    requires p.Valid() && Inv(p, c, h) && Arrives(p, c, h, r)
    requires h.frames[0].f.Reply? || h.frames[0].f.ErrorReply?
    ensures Inv(p, ReceiveIn(c, r), ReceiveLog(h, r))
  {
    hide AllRequestsOk, UpBytes, RequestOk, RequestTyped, RequestBytes, FrameBytes, Entries, ServedOk, AnswersOk,
         DeliveriesOk, EmissionsOk, RoutedOk, DownBytes, Waiting, OneAtATime, LiveOk, EventsOk, EndsLast, CallbacksOk,
         Protocol.Valid, Protocol.TableOk, FrameOk, FrameTyped, Seen;
    AnswerExpected(p, c, h);
    InOrderNumbers(p, h.calls, h.answers, h.emitted, h.frames, |c.delivered|, |h.answers|, |c.routed|, |h.emitted|);
    DeliveriesGrow(p, h.calls, h.answers, c.delivered);
    EntriesPopped(c.queue, h.calls, |c.delivered|);
    NotifySubs(p, c, h, r.value);
  }

  lemma EntriesPopped(queue: seq<Pending>, calls: seq<Call>, from: nat)
    requires Entries(queue, calls, from) && queue != []
    ensures Entries(queue[1..], calls, from + 1)
  {
  }

  lemma EventRead(p: Protocol, c: Conn, h: History, r: Parse<Got>)
    requires p.Valid() && Inv(p, c, h) && Arrives(p, c, h, r) && h.frames[0].f.Event?
    ensures Inv(p, ReceiveIn(c, r), ReceiveLog(h, r))
  {
    hide AllRequestsOk, UpBytes, RequestOk, RequestTyped, RequestBytes, FrameBytes, Entries, ServedOk, AnswersOk,
         DeliveriesOk, EmissionsOk, RoutedOk, DownBytes, Waiting, OneAtATime, LiveOk, EventsOk, EndsLast, CallbacksOk,
         Protocol.Valid, Protocol.TableOk, FrameOk, FrameTyped, Seen;
    EventExpected(p, c, h);
    RoutedGrows(p, h.emitted, c.routed);
    ReadSubs(p, c, h);
  }

  lemma NoiseRead(p: Protocol, c: Conn, h: History, r: Parse<Got>)
    requires p.Valid() && Inv(p, c, h) && Arrives(p, c, h, r) && (h.frames[0].f.Log? || h.frames[0].f.Text?)
    ensures Inv(p, ReceiveIn(c, r), ReceiveLog(h, r))
  {
    hide AllRequestsOk, UpBytes, RequestOk, RequestTyped, RequestBytes, FrameBytes, Entries, ServedOk, AnswersOk,
         DeliveriesOk, EmissionsOk, RoutedOk, DownBytes, Waiting, OneAtATime, LiveOk, EventsOk, EndsLast, CallbacksOk,
         Protocol.Valid, Protocol.TableOk, FrameOk, FrameTyped, Seen;
    ReadSubs(p, c, h);
  }

  /** The worker stops at the goodbye, by which time every answer has been delivered. */
  lemma GoodbyeRead(p: Protocol, c: Conn, h: History, r: Parse<Got>)
    requires p.Valid() && Inv(p, c, h) && c.worker == Running && Arrives(p, c, h, r) && h.frames[0].f.Goodbye?
    ensures Inv(p, ReceiveIn(c, r), ReceiveLog(h, r))
  {
    hide AllRequestsOk, UpBytes, RequestOk, RequestTyped, RequestBytes, FrameBytes, Entries, ServedOk, AnswersOk,
         DeliveriesOk, EmissionsOk, RoutedOk, DownBytes, Waiting, OneAtATime, LiveOk, EventsOk, EndsLast, CallbacksOk,
         Protocol.Valid, Protocol.TableOk, FrameOk, FrameTyped, Seen;
    ReadSubs(p, c, h);
  }
}
