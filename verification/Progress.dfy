/** A connection is never stuck: from every state that a run can reach, every call made can be answered and a close can
    return, and the steps that lead there cannot go on for ever. */
module Progress {
  import opened Wire
  import opened Schemas
  import opened Chunks
  import opened Frames
  import opened Channels
  import opened Session
  import opened Streams
  import opened Lockstep
  import opened LockstepSteps
  import opened Subscriptions
  import opened Safety
  import opened Deliveries
  import opened Guarantees

  /** The steps that finish what was begun: no new calls, subscriptions, closes, events, text or log records. */
  predicate Internal(a: Action) {
    match a
    case WriteUp(n) => n > 0
    case FlushUp(n) => n > 0
    case WriteDown(n) => n > 0
    case FlushDown(n) => n > 0
    case Push => true
    case EndRequest => true
    case Answer(_) => true
    case Dispatch => true
    case Part => true
    case EndAnswer => true
    case Receive => true
    case FinishClose => true
    case _ => false
  }

  /** Every call was answered and its caller notified, and nobody holds the call lock. */
  predicate NothingLeft(c: Conn, h: History) {
    (c.caller == Free || c.caller == Finished) && |c.delivered| == |h.calls|
  }

  // ---- what is left to do ----

  function ServerRank(s: Server): nat {
    match s
    case Gone => 0
    case Leaving => 1
    case Parting => 2
    case Idle => 3
    case Answering => 4
    case Serving(_) => 5
  }

  function Work(c: Conn, h: History): nat {
    ServerRank(c.server) + if |h.served| <= |h.calls| then 6 * (|h.calls| - |h.served|) else 0
  }

  function ToWrite(ch: Channel): nat {
    2 * |ch.todo| + |ch.buf|
  }

  function ToRead(ch: Channel): nat {
    3 * |ch.todo| + 2 * |ch.buf| + |ch.wire|
  }

  function CallerRank(c: Conn): nat {
    match c.caller
    case Writing(_, _, pushed) => if pushed then 1 else 2
    case Closing => 1
    case _ => 0
  }

  /** There is less left to do in `c2` than in `c`. */
  predicate Closer(c2: Conn, h2: History, c: Conn, h: History) {
    || Work(c2, h2) < Work(c, h)
    || (Work(c2, h2) == Work(c, h) && ToWrite(c2.up) < ToWrite(c.up))
    || (Work(c2, h2) == Work(c, h) && ToWrite(c2.up) == ToWrite(c.up) && ToRead(c2.down) < ToRead(c.down))
    || (Work(c2, h2) == Work(c, h) && ToWrite(c2.up) == ToWrite(c.up) && ToRead(c2.down) == ToRead(c.down)
        && CallerRank(c2) < CallerRank(c))
  }

  /** Every internal step leaves less to do, and makes no new call. */
  lemma InternalGetsCloser(p: Protocol, c: Conn, h: History, a: Action)
    requires p.Valid() && Inv(p, c, h) && Internal(a) && Enabled(p, c, a)
    ensures Closer(Next(p, c, a), Record(p, c, h, a), c, h)
    ensures Record(p, c, h, a).calls == h.calls
  {
    hide Inv, Protocol.TableOk, Protocol.Valid, CanDispatch, CanAnswer, CanPart, CanEndAnswer, CanReceive,
         FrameBytes, DispatchIn, AnswerIn, PartIn, EndAnswerIn, ReceiveIn, Work, ToWrite, ToRead, FrameOk, FrameTyped,
         CallerRank, RequestOk, RequestTyped, PushIn, ReadUp, ReadDown, TypesKnown, Closer;
    match a
    case WriteUp(n) => MovesCloser(c, h, n);
    case FlushUp(n) => MovesCloser(c, h, n);
    case WriteDown(n) => MovesCloser(c, h, n);
    case FlushDown(n) => MovesCloser(c, h, n);
    case Push => PushCloser(p, c, h);
    case EndRequest => CallerCloser(c, h);
    case Dispatch => DispatchCloser(p, c, h);
    case Answer(reply) => AnswerCloser(p, c, h, reply);
    case Part => PartCloser(p, c, h);
    case EndAnswer => EndAnswerCloser(c, h);
    case Receive => ReceiveCloser(p, c, h);
    case FinishClose => CallerCloser(c, h);
  }

  lemma MovesCloser(c: Conn, h: History, n: nat)
    requires n > 0
    ensures n <= |c.up.todo| ==> Closer(c.(up := c.up.Write(n)), h, c, h)
    ensures n <= |c.up.buf| ==> Closer(c.(up := c.up.Flush(n)), h, c, h)
    ensures n <= |c.down.todo| ==> Closer(c.(down := c.down.Write(n)), h, c, h)
    ensures n <= |c.down.buf| ==> Closer(c.(down := c.down.Flush(n)), h, c, h)
  {
  }

  lemma PushCloser(p: Protocol, c: Conn, h: History)
    requires CanPush(p, c)
    ensures Closer(PushIn(c), h, c, h)
  {
    hide BodyOk, RequestBytes, AfterId;
  }

  lemma CallerCloser(c: Conn, h: History)
    ensures CanEndRequest(c) ==> Closer(c.(caller := Free), h, c, h)
    ensures CanFinishClose(c) ==> Closer(c.(caller := Finished), h, c, h)
  {
  }

  lemma DispatchCloser(p: Protocol, c: Conn, h: History)
    requires p.Valid() && Inv(p, c, h) && CanDispatch(p, c)
    ensures Closer(DispatchIn(c, ReadUp(p, c)), DispatchLog(h, ReadUp(p, c)), c, h)
  {
    hide AllRequestsOk, UpBytes, LogInv, EventLogInv, DownInv, SubsInv, Entries, RequestOk, RequestTyped, RequestSeen,
         ReadUp, ToRead, ToWrite, Protocol.TableOk;
    DispatchReads(p, c, h);
  }

  lemma AnswerCloser(p: Protocol, c: Conn, h: History, reply: Frame)
    requires CanAnswer(p, c, reply)
    ensures Closer(AnswerIn(p, c, reply), AnswerLog(p, c, h, reply), c, h)
  {
    hide FrameOk, FrameTyped, FrameBytes;
  }

  lemma PartCloser(p: Protocol, c: Conn, h: History)
    requires CanPart(c)
    ensures Closer(PartIn(p, c), SayLog(h, Goodbye), c, h)
  {
    hide FrameBytes;
  }

  lemma EndAnswerCloser(c: Conn, h: History)
    requires CanEndAnswer(c)
    ensures Closer(EndAnswerIn(c), h, c, h)
  {
  }

  lemma ReceiveCloser(p: Protocol, c: Conn, h: History)
    requires p.Valid() && Inv(p, c, h) && CanReceive(p, c)
    ensures TypesKnown(p.client, HeadType(p, c), EventTypes(p, c))
    ensures Closer(ReceiveIn(c, ReadDown(p, c)), ReceiveLog(h, ReadDown(p, c)), c, h)
  {
    hide Inv, FrameOk, FrameTyped, FrameSeen, DownBytes, HeadType, EventTypes, ReadFrame, TypesKnown, Protocol.TableOk;
    ReceiveReads(p, c, h);
    assert |ReadDown(p, c).rest| < |c.down.wire|;
  }

  // ---- some step is always possible ----

  /** An idle server has a request or the close byte to read, once all that was begun has been sent. */
  lemma ServerHasInput(p: Protocol, c: Conn, h: History)
    requires p.Valid() && Inv(p, c, h) && c.up.Idle() && c.server == Idle && (Closed(c) || |h.served| < |h.calls|)
    ensures !ReadUp(p, c).Short?
  {
    hide LogInv, EventLogInv, DownInv, SubsInv, Entries, RequestOk, RequestTyped, RequestBytes, RequestSeen,
         ReadRequest, AfterId, Protocol.TableOk;
    var unread := h.calls[|h.served|..];
    var end: seq<Byte> := if Closed(c) then [0] else [];
    AppendNothing([]);
    AppendNothing(c.up.wire);
    if unread != [] {
      Regroup(RequestBytes(p, unread[0].q), EncodeCalls(p, unread[1..]), end);
      HeadRequest(p, unread[0].q, EncodeCalls(p, unread[1..]) + end, c.up.wire, []);
    } else {
      assert [] + end == end;
      HeadClose(p, c.up.wire, []);
    }
  }

  /** A running worker has a message to read while any is in flight, once all of the server's messages have been sent.
      */
  lemma WorkerHasInput(p: Protocol, c: Conn, h: History)
    requires p.Valid() && Inv(p, c, h) && c.down.Idle() && c.worker == Running && h.frames != []
    ensures CanReceive(p, c)
  {
    hide UpInv, QueueInv, LogInv, EventLogInv, SubsInv, InOrder, HeadType, EventTypes, ReadFrame, FrameSeen,
         TypesKnown, Expected, FrameOk, FrameTyped, DownBytes, Protocol.TableOk;
    TypesAreKnown(p, c);
    HeadExpected(p, c, h);
    FrameArrives(p, c.down, h.frames, HeadType(p, c), EventTypes(p, c));
    AppendNothing([]);
  }

  /** Answers that services might give to some of the calls not yet answered. */
  ghost predicate Answers(p: Protocol, h: History, choice: map<nat, Frame>)
    requires p.Valid()
  {
    forall i :: i in choice && i < |h.calls| ==> RequestOk(p, h.calls[i].q) && AnswerOk(p, h.calls[i], choice[i])
  }

  /** The service's answer to call `i`; without a choice, an empty error text. */
  function Chosen(choice: map<nat, Frame>, i: nat): Frame {
    if i in choice then choice[i] else ErrorReply([])
  }

  /** The service may give any answer of the right type to the request being served. */
  lemma ServiceMayAnswer(p: Protocol, c: Conn, h: History, choice: map<nat, Frame>)
    requires p.Valid() && Inv(p, c, h) && c.down.Idle() && c.server.Serving? && Answers(p, h, choice)
    ensures CanAnswer(p, c, Chosen(choice, |h.answers|))
  {
    hide UpBytes, EventLogInv, DownInv, SubsInv, Entries, AnswersOk, DeliveriesOk, BodyOk, RequestSeen,
         Protocol.TableOk;
    assert Flatten([]) == [];
    ServedAt(p, h.calls, h.served, |h.served| - 1);
  }

  /** A caller that still holds its request back can go on writing its endpoint id, or push its record. */
  lemma CallerMayGoOn(p: Protocol, c: Conn, h: History) returns (a: Action)
    requires p.Valid() && Inv(p, c, h) && Unpushed(c)
    ensures Internal(a) && Enabled(p, c, a) && !a.Answer?
  {
    hide UpBytes, QueueInv, LogInv, EventLogInv, DownInv, SubsInv, BodyOk, RequestBytes, AfterId, AllRequestsOk,
         Protocol.TableOk;
    var left := |c.up.todo| - AfterId(p, c.caller.q);
    a := if left > 0 then WriteUp(left) else Push;
  }

  /** With everything sent and the server idle behind an open client, an unnotified call's answer is in flight. */
  lemma AnswerInFlight(p: Protocol, c: Conn, h: History)
    requires p.Valid() && Inv(p, c, h)
    requires
      || (c.server == Idle && |h.served| == |h.calls| && |c.delivered| < |h.calls|)
      || (c.server == Gone && c.worker == Running)
    ensures h.frames != [] && c.worker == Running
  {
    hide UpBytes, LogInv, EventLogInv, SubsInv, Entries, DownBytes, AllRequestsOk, RequestOk, RequestTyped, EmissionOk,
         Protocol.TableOk;
  }

  /** What holds once the worker has returned. */
  lemma WorkerGone(p: Protocol, c: Conn, h: History)
    requires p.Valid() && Inv(p, c, h) && c.server == Gone && c.worker == Returned
    ensures Closed(c) && |c.delivered| == |h.calls|
  {
    hide Inv, Protocol.TableOk;
    DrainedFacts(p, c, h);
  }

  lemma GoneMeansClosed(p: Protocol, c: Conn, h: History)
    requires p.Valid() && Inv(p, c, h)
    ensures CloseRead(c) ==> Closed(c)
    ensures |h.served| <= |h.calls|
  {
    hide UpBytes, QueueInv, LogInv, EventLogInv, DownInv, SubsInv, AllRequestsOk, Protocol.TableOk;
  }

  /** As long as anything is left to do, some internal step is possible: no two threads wait for each other, whoever
      holds the call lock, `close` joining the worker included. */
  lemma NeverStuck(p: Protocol, c: Conn, h: History, choice: map<nat, Frame>) returns (a: Action)
    requires p.Valid() && Inv(p, c, h) && !NothingLeft(c, h) && Answers(p, h, choice)
    ensures Internal(a) && Enabled(p, c, a) && (a.Answer? ==> a.reply == Chosen(choice, |h.answers|))
  {
    hide UpInv, QueueInv, LogInv, EventLogInv, DownInv, SubsInv, CanAnswer, CanReceive, ReadUp, Protocol.TableOk;
    GoneMeansClosed(p, c, h);
    if Unpushed(c) {
      a := CallerMayGoOn(p, c, h);
    } else if c.up.todo != [] {
      a := WriteUp(|c.up.todo|);
    } else if c.up.buf != [] {
      a := FlushUp(|c.up.buf|);
    } else if c.caller.Writing? {
      a := EndRequest;
    } else if c.down.todo != [] {
      a := WriteDown(|c.down.todo|);
    } else if c.down.buf != [] {
      a := FlushDown(|c.down.buf|);
    } else {
      a := PeersGoOn(p, c, h, choice);
    }
  }

  lemma PeersGoOn(p: Protocol, c: Conn, h: History, choice: map<nat, Frame>) returns (a: Action)
    requires p.Valid() && Inv(p, c, h) && !NothingLeft(c, h) && c.up.Idle() && c.down.Idle() && !c.caller.Writing?
    requires Answers(p, h, choice)
    ensures Internal(a) && Enabled(p, c, a) && (a.Answer? ==> a.reply == Chosen(choice, |h.answers|))
  {
    hide UpInv, QueueInv, LogInv, EventLogInv, DownInv, SubsInv, CanAnswer, CanReceive, ReadUp, Protocol.TableOk;
    GoneMeansClosed(p, c, h);
    match c.server
    case Serving(_) =>
      ServiceMayAnswer(p, c, h, choice);
      a := Answer(Chosen(choice, |h.answers|));
    case Answering => a := EndAnswer;
    case Parting => a := Part;
    case Leaving => a := EndAnswer;
    case Idle =>
      if Closed(c) || |h.served| < |h.calls| {
        ServerHasInput(p, c, h);
        a := Dispatch;
      } else {
        DeliveredAtMost(p, c, h);
        AnswerInFlight(p, c, h);
        WorkerHasInput(p, c, h);
        a := Receive;
      }
    case Gone =>
      if c.worker == Running {
        AnswerInFlight(p, c, h);
        WorkerHasInput(p, c, h);
        a := Receive;
      } else {
        WorkerGone(p, c, h);
        a := FinishClose;
      }
  }

  lemma DeliveredAtMost(p: Protocol, c: Conn, h: History)
    requires p.Valid() && Inv(p, c, h)
    ensures |c.delivered| <= |h.calls|
  {
    hide UpBytes, LogInv, EventLogInv, DownInv, SubsInv, Entries, AllRequestsOk, Protocol.TableOk;
  }

  /** The answers so far, and those chosen for the calls between. */
  predicate GivenAsChosen(before: seq<Frame>, after: seq<Frame>, choice: map<nat, Frame>) {
    before <= after && forall i :: |before| <= i < |after| && i in choice ==> after[i] == choice[i]
  }

  /** What internal steps leave alone: calls, events, whether a close was begun, and what callbacks have run. */
  predicate Onward(w: World, w2: World) {
    && w2.h.calls == w.h.calls && w2.h.emitted == w.h.emitted && w.c.routed <= w2.c.routed
    && (Closed(w2.c) <==> Closed(w.c))
  }

  lemma AnswersStep(p: Protocol, c: Conn, h: History, a: Action, choice: map<nat, Frame>)
    requires p.Valid() && Inv(p, c, h) && Internal(a) && Enabled(p, c, a)
    requires a.Answer? ==> a.reply == Chosen(choice, |h.answers|)
    ensures GivenAsChosen(h.answers, Record(p, c, h, a).answers, choice)
    ensures Onward(World(c, h), World(Next(p, c, a), Record(p, c, h, a)))
  {
    hide Inv, Protocol.TableOk, ReadUp, ReadDown, CanDispatch, CanReceive, CanAnswer, TypesKnown, RequestOk, RequestTyped,
         AfterId, FrameBytes, DispatchIn, DispatchLog, ReceiveIn, ReceiveLog, GivenAsChosen;
    SameAnswers(h.answers, choice);
    if a == Dispatch {
      DispatchOnward(c, h, ReadUp(p, c));
    } else if a == Receive {
      TypesAreKnown(p, c);
      ReceiveOnward(c, h, ReadDown(p, c));
    } else if a.Answer? {
      OneMoreAnswer(h.answers, choice);
    }
  }

  lemma SameAnswers(answers: seq<Frame>, choice: map<nat, Frame>)
    ensures GivenAsChosen(answers, answers, choice)
  {
  }

  lemma OneMoreAnswer(answers: seq<Frame>, choice: map<nat, Frame>)
    ensures GivenAsChosen(answers, answers + [Chosen(choice, |answers|)], choice)
  {
  }

  lemma DispatchOnward(c: Conn, h: History, r: Parse<Request>)
    ensures Onward(World(c, h), World(DispatchIn(c, r), DispatchLog(h, r))) && DispatchLog(h, r).answers == h.answers
  {
  }

  lemma ReceiveOnward(c: Conn, h: History, r: Parse<Got>)
    ensures Onward(World(c, h), World(ReceiveIn(c, r), ReceiveLog(h, r))) && ReceiveLog(h, r).answers == h.answers
  {
    hide PhaseAfter, PhaseOf;
  }

  /** From every state that satisfies the invariant there is a way on, by internal steps alone, to one that is settled,
      whatever the services answer. */
  lemma SettlingRun(p: Protocol, w: World, choice: map<nat, Frame>) returns (run: seq<Action>)
    requires p.Valid() && Inv(p, w.c, w.h) && Answers(p, w.h, choice)
    ensures Runs(p, w, run) && NothingLeft(After(p, w, run).c, After(p, w, run).h) && Onward(w, After(p, w, run))
    ensures GivenAsChosen(w.h.answers, After(p, w, run).h.answers, choice)
    ensures forall i :: 0 <= i < |run| ==> Internal(run[i])
    decreases Work(w.c, w.h), ToWrite(w.c.up), ToRead(w.c.down), CallerRank(w.c)
  {
    hide Inv, Enabled, Next, Record, Work, ToWrite, ToRead, CallerRank, NothingLeft, Protocol.TableOk, Chosen, AnswerOk;
    if NothingLeft(w.c, w.h) {
      run := [];
    } else {
      var a := NeverStuck(p, w.c, w.h, choice);
      InternalGetsCloser(p, w.c, w.h, a);
      AnswersStep(p, w.c, w.h, a, choice);
      StepInv(p, w.c, w.h, a);
      var w2 := World(Next(p, w.c, a), Record(p, w.c, w.h, a));
      var rest := SettlingRun(p, w2, choice);
      run := [a] + rest;
      assert run[1..] == rest;
    }
  }

  /** After any run, every call made so far can be answered and its caller notified, with any answers of the right types
      that the services may choose, and a close that was begun can return, without anything new being started. As every
      internal step leaves less to do, every sequence of them ends, and as the connection is never stuck, only when all
      is settled. */
  lemma EverythingSettles(p: Protocol, run: seq<Action>, choice: map<nat, Frame>) returns (more: seq<Action>)
    requires p.Valid() && Runs(p, INITIALLY, run)
    requires Answers(p, After(p, INITIALLY, run).h, choice)
    ensures var w := After(p, INITIALLY, run);
      && Runs(p, w, more) && NothingLeft(After(p, w, more).c, After(p, w, more).h) && After(p, w, more).h.calls == w.h.calls
      && GivenAsChosen(w.h.answers, After(p, w, more).h.answers, choice)
      && After(p, w, more).c.caller == (if Closed(w.c) then Finished else Free)
      && forall i :: 0 <= i < |more| ==> Internal(more[i])
  {
    hide Inv, Runs, After, Protocol.TableOk, AnswerOk;
    StartInv(p);
    RunInv(p, INITIALLY, run);
    more := SettlingRun(p, After(p, INITIALLY, run), choice);
  }
}
