/** What every run of a connection guarantees. */
module Guarantees {
  import opened Wire
  import opened Schemas
  import opened Frames
  import opened Channels
  import opened Session
  import opened Streams
  import opened Lockstep
  import opened Subscriptions
  import opened Safety
  import opened LockstepSteps
  import opened Deliveries

  lemma StepInv(p: Protocol, c: Conn, h: History, a: Action)
    requires p.Valid() && Inv(p, c, h) && Enabled(p, c, a)
    ensures Inv(p, Next(p, c, a), Record(p, c, h, a))
  {
    hide Inv, Protocol.TableOk, Protocol.Valid, CanRegister, CanUnregister, CanBegin, CanWriteUp, CanPush,
         CanFlushUp, CanEndRequest, CanFinishClose, CanDispatch, CanAnswer, CanEmit, CanSay, CanPart, CanEndAnswer,
         CanReceive, RegisterIn, UnregisterIn, BeginIn, PushIn, DispatchIn, AnswerIn, EmitIn, SayIn, PartIn,
         EndAnswerIn, ReceiveIn, BeginLog, DispatchLog, AnswerLog, EmitLog, SayLog, ReceiveLog, ReadUp, ReadDown,
         TypesKnown;
    match a
    case Register(ep) => RegisterInv(p, c, h, ep);
    case Unregister(ep) => UnregisterInv(p, c, h, ep);
    case Begin(id, q) => BeginInv(p, c, h, id, q);
    case WriteUp(n) => WriteUpInv(p, c, h, n);
    case Push => PushInv(p, c, h);
    case FlushUp(n) => FlushUpInv(p, c, h, n);
    case EndRequest => EndRequestInv(p, c, h);
    case BeginClose => BeginCloseInv(p, c, h);
    case FinishClose => FinishCloseInv(p, c, h);
    case Dispatch => DispatchInv(p, c, h);
    case Answer(reply) => AnswerInv(p, c, h, reply);
    case Emit(ep, body) => EmitInv(p, c, h, ep, body);
    case Say(noise) => SayInv(p, c, h, noise);
    case Part => PartInv(p, c, h);
    case WriteDown(n) => WriteDownInv(p, c, h, n);
    case FlushDown(n) => FlushDownInv(p, c, h, n);
    case EndAnswer => EndAnswerInv(p, c, h);
    case Receive => ReceiveInv(p, c, h);
  }

  lemma {:induction false} RunInv(p: Protocol, w: World, run: seq<Action>)
    requires p.Valid() && Inv(p, w.c, w.h) && Runs(p, w, run)
    ensures Inv(p, After(p, w, run).c, After(p, w, run).h)
    decreases |run|
  {
    hide Inv, Enabled, Next, Record, Protocol.TableOk;
    if run != [] {
      StepInv(p, w.c, w.h, run[0]);
      RunInv(p, World(Next(p, w.c, run[0]), Record(p, w.c, w.h, run[0])), run[1..]);
    }
  }

  // ---- main theorems, over every run from the start of a connection ----

  /** No reader ever reports an error. The server reads the requests callers sent, in the order they took the lock; the
      pending queue holds exactly the calls whose answers the client has not read, oldest first; each answer goes to the
      caller of the request it answers, read as that call's reply type. */
  ghost predicate InLockstep(p: Protocol, c: Conn, h: History)
    requires p.Valid()
  {
    && !c.broken
    && AllRequestsOk(p, h.calls)
    && |c.delivered| <= |h.answers| <= |h.served| <= PushedCount(c, h) <= |h.calls|
    && |c.queue| == PushedCount(c, h) - |c.delivered|
    && Entries(c.queue, h.calls, |c.delivered|)
    && (forall i :: 0 <= i < |h.served| ==> h.served[i] == RequestSeen(p, h.calls[i].q))
    && (forall i :: 0 <= i < |c.delivered| ==> DeliveryOk(p, h.calls[i], h.answers[i], c.delivered[i]))
  }

  lemma CallsStayInLockstep(p: Protocol, run: seq<Action>)
    requires p.Valid() && Runs(p, INITIALLY, run)
    ensures InLockstep(p, After(p, INITIALLY, run).c, After(p, INITIALLY, run).h)
  {
    hide Inv, Runs, After, InLockstep, Protocol.TableOk;
    StartInv(p);
    RunInv(p, INITIALLY, run);
    LockstepFacts(p, After(p, INITIALLY, run).c, After(p, INITIALLY, run).h);
  }

  lemma LockstepFacts(p: Protocol, c: Conn, h: History)
    requires p.Valid() && Inv(p, c, h)
    ensures InLockstep(p, c, h)
  {
    hide RequestOk, RequestTyped, Entries, DeliveryOk, RequestSeen, UpBytes, DownInv, SubsInv, EventLogInv,
         Protocol.TableOk;
  }

  /** Callbacks have run for a prefix of the events emitted, in order, and each for the subscription whose service
      emitted it. */
  ghost predicate RoutedInOrder(p: Protocol, c: Conn, h: History)
    requires p.Valid()
  {
    && |c.routed| <= |h.emitted|
    && forall j :: 0 <= j < |c.routed| ==> EmissionOk(p, h.emitted[j]) && c.routed[j] == RoutedAs(p, h.emitted[j])
  }

  lemma EventsReachTheirSubscription(p: Protocol, run: seq<Action>)
    requires p.Valid() && Runs(p, INITIALLY, run)
    ensures RoutedInOrder(p, After(p, INITIALLY, run).c, After(p, INITIALLY, run).h)
  {
    hide Inv, Runs, After, RoutedInOrder, Protocol.TableOk;
    StartInv(p);
    RunInv(p, INITIALLY, run);
    RoutedFacts(p, After(p, INITIALLY, run).c, After(p, INITIALLY, run).h);
  }

  lemma RoutedFacts(p: Protocol, c: Conn, h: History)
    requires p.Valid() && Inv(p, c, h)
    ensures RoutedInOrder(p, c, h)
  {
    hide UpInv, QueueInv, LogInv, DownInv, SubsInv, EmissionOk, RoutedAs, Protocol.TableOk;
  }

  /** `close` has joined the worker when it returns. */
  predicate Joined(c: Conn) {
    c.caller == Finished ==> c.worker == Returned
  }

  lemma JoinedStep(p: Protocol, c: Conn, a: Action)
    requires p.Valid() && Joined(c) && Enabled(p, c, a)
    ensures Joined(Next(p, c, a))
  {
    hide ReadUp, ReadDown, TypesKnown, CanReceive, CanAnswer, CanEmit, CanSay, FrameBytes, RequestBytes, RequestOk,
         RequestTyped, AfterId, Protocol.TableOk;
  }

  lemma {:induction false} JoinedRun(p: Protocol, w: World, run: seq<Action>)
    requires p.Valid() && Joined(w.c) && Runs(p, w, run)
    ensures Joined(After(p, w, run).c)
    decreases |run|
  {
    hide Enabled, Next, Record, Joined, Protocol.TableOk;
    if run != [] {
      JoinedStep(p, w.c, run[0]);
      JoinedRun(p, World(Next(p, w.c, run[0]), Record(p, w.c, w.h, run[0])), run[1..]);
    }
  }

  /** Graceful close drains: when the worker has returned, as it has once `close` has, every call was answered and its
      caller notified, and nothing is pending or in flight. */
  ghost predicate Drained(p: Protocol, c: Conn, h: History)
    requires p.Valid()
  {
    && InLockstep(p, c, h) && RoutedInOrder(p, c, h)
    && c.queue == [] && |c.delivered| == |h.calls| && Closed(c)
  }

  lemma CloseDrains(p: Protocol, run: seq<Action>)
    requires p.Valid() && Runs(p, INITIALLY, run)
    requires var c := After(p, INITIALLY, run).c; c.worker == Returned || c.caller == Finished
    ensures After(p, INITIALLY, run).c.worker == Returned
    ensures Drained(p, After(p, INITIALLY, run).c, After(p, INITIALLY, run).h)
  {
    hide Inv, Runs, After, InLockstep, RoutedInOrder, Protocol.TableOk;
    StartInv(p);
    RunInv(p, INITIALLY, run);
    JoinedRun(p, INITIALLY, run);
    var w := After(p, INITIALLY, run);
    LockstepFacts(p, w.c, w.h);
    RoutedFacts(p, w.c, w.h);
    DrainedFacts(p, w.c, w.h);
  }

  lemma DrainedFacts(p: Protocol, c: Conn, h: History)
    requires p.Valid() && Inv(p, c, h) && c.worker == Returned
    ensures c.queue == [] && |c.delivered| == |h.calls| && Closed(c)
  {
    hide RequestOk, RequestTyped, Entries, UpBytes, LogInv, SubsInv, EventLogInv, DownBytes, InOrder, Protocol.TableOk;
  }
}
