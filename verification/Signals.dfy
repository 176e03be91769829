/** The life cycle with a condition variable that wakes one sleeper for every signal: whether the thread that holds the
    call lock, in `start`, `close` or a call, can return. */
module Signals {
  import opened Control

  datatype Wake = WakeNobody | WakeWaiter | WakeStart | WakeWorker

  /** `waits` threads are asleep in `wait`; the thread in `start` and the worker may be asleep too. */
  datatype Threads = Threads(c: Client, waits: nat, startAsleep: bool, workerAsleep: bool)

  const IDLE := Threads(FRESH, 0, false, false)

  /** The step calls `signal`. */
  predicate Signalling(c: Client, a: Action) {
    match a
    case Enter(_) => false
    case Hold(_) => c.holder.FailingStore? || c.holder.HelloStore? || c.holder.CloseFailingStore?
    case Work(_) => c.worker.RunSwap? || (c.worker.RunLoad? && !c.state.Starting?)
    case Await => c.waiter.WaitStore?
  }

  /** The step calls `broadcast`. */
  predicate Broadcasting(c: Client, a: Action) {
    a.Work? && c.worker.ErrorSwap? && c.worker.seen == c.state
  }

  /** A signal wakes somebody if anybody is asleep. */
  predicate CanWake(t: Threads, w: Wake) {
    match w
    case WakeNobody => t.waits == 0 && !t.startAsleep && !t.workerAsleep
    case WakeWaiter => t.waits > 0
    case WakeStart => t.startAsleep
    case WakeWorker => t.workerAsleep
  }

  function Woken(t: Threads, w: Wake): Threads
    requires CanWake(t, w)
  {
    match w
    case WakeNobody => t
    case WakeWaiter => t.(waits := t.waits - 1)
    case WakeStart => t.(startAsleep := false)
    case WakeWorker => t.(workerAsleep := false)
  }

  datatype Turn = Turn(a: Action, w: Wake)

  predicate MayStep(t: Threads, n: Turn) {
    && Enabled(t.c, n.a)
    && (n.a.Hold? && t.c.holder.HelloLock? ==> !t.startAsleep)
    && (n.a.Work? && t.c.worker.Parked? ==> !t.workerAsleep)
    && (if Signalling(t.c, n.a) then CanWake(t, n.w) else n.w.WakeNobody?)
  }

  function Step(t: Threads, n: Turn): Threads
    requires MayStep(t, n)
  {
    var c, d := t.c, Next(t.c, n.a);
    var u := if Signalling(c, n.a) then Woken(t, n.w)
             else if Broadcasting(c, n.a) then Threads(c, 0, false, false) else t;
    Threads(d, if n.a.Await? && c.waiter.WaitLoad? && d.waiter.NoWaiter? then u.waits + 1 else u.waits,
            u.startAsleep || (n.a.Hold? && c.holder.HelloLoad? && d.holder.HelloLock?),
            u.workerAsleep || (n.a.Work? && d.worker.Parked?))
  }

  predicate MayRun(t: Threads, run: seq<Turn>)
    decreases |run|
  {
    run == [] || (MayStep(t, run[0]) && MayRun(Step(t, run[0]), run[1..]))
  }

  function Reached(t: Threads, run: seq<Turn>): Threads
    requires MayRun(t, run)
    decreases |run|
  {
    if run == [] then t else Reached(Step(t, run[0]), run[1..])
  }

  function Actions(run: seq<Turn>): (r: seq<Action>)
    ensures |r| == |run|
  {
    if run == [] then [] else [run[0].a] + Actions(run[1..])
  }

  /** Every run with exact signals is one of the runs of `Control`, so all that holds there holds here. */
  lemma {:induction false} RunsAreRuns(t: Threads, run: seq<Turn>)
    requires MayRun(t, run)
    ensures Runs(t.c, Actions(run)) && After(t.c, Actions(run)) == Reached(t, run).c
    decreases |run|
  {
    hide Enabled, Next, Signalling, Broadcasting;
    if run != [] {
      assert Actions(run)[1..] == Actions(run[1..]);
      RunsAreRuns(Step(t, run[0]), run[1..]);
    }
  }

  // ---- invariant ----

  predicate Over(s: State) {
    s.Closed? || s.Failing? || s.Failed?
  }

  predicate SleepInv(t: Threads) {
    var c := t.c;
    && (t.workerAsleep ==> c.worker.Parked?)
    && (t.startAsleep ==> c.holder.HelloLock? && (c.state.Starting? || c.state.Running?))
    && (Handshaking(c.holder) ==> !c.worker.Absent?)
    && (c.worker.Reading? ==> !c.state.New? && !c.state.Starting?)
    && (c.worker.Parked? || c.worker.ErrorDone? || c.worker.Finished? ==> Over(c.state))
    && (c.holder.CloseWrite? || c.holder.CloseJoin? ==> c.state.Closed?)
    && (c.holder.CloseWrite? ==> !c.worker.Parked?)
    && (c.holder.CloseSwap? ==> !c.holder.seen.Closed?)
  }

  predicate AllInv(t: Threads) {
    Inv(t.c) && SleepInv(t)
  }

  lemma SleepEnter(t: Threads, n: Turn)
    requires AllInv(t) && MayStep(t, n) && n.a.Enter?
    ensures SleepInv(Step(t, n))
  {
    hide FailingInv, ErrorInv, OutputInv;
  }

  lemma SleepStart(t: Threads, n: Turn)
    requires AllInv(t) && MayStep(t, n) && n.a.Hold? && (AtStart(t.c.holder) || Handshaking(t.c.holder))
    ensures SleepInv(Step(t, n))
  {
    hide OwnerInv, ErrorInv, OutputInv, CloseStep, CheckStep, FailStep, WriteStep;
  }

  lemma SleepClose(t: Threads, n: Turn)
    requires AllInv(t) && MayStep(t, n) && n.a.Hold? && AtClose(t.c.holder)
    ensures SleepInv(Step(t, n))
  {
    hide OwnerInv, ErrorInv, OutputInv, StartStep, HelloStep, CheckStep, FailStep, WriteStep;
  }

  lemma SleepCall(t: Threads, n: Turn)
    requires AllInv(t) && MayStep(t, n) && n.a.Hold?
    requires !AtStart(t.c.holder) && !Handshaking(t.c.holder) && !AtClose(t.c.holder)
    ensures SleepInv(Step(t, n))
  {
    hide OwnerInv, ErrorInv, OutputInv, StartStep, HelloStep, CloseStep;
  }

  lemma SleepWork(t: Threads, n: Turn)
    requires AllInv(t) && MayStep(t, n) && n.a.Work?
    ensures SleepInv(Step(t, n))
  {
    hide OwnerInv, ErrorInv, OutputInv;
  }

  lemma SleepAwait(t: Threads, n: Turn)
    requires AllInv(t) && MayStep(t, n) && n.a.Await?
    ensures SleepInv(Step(t, n))
  {
    hide OwnerInv, ErrorInv, OutputInv;
  }

  lemma TurnInv(t: Threads, n: Turn)
    requires AllInv(t) && MayStep(t, n)
    ensures AllInv(Step(t, n))
  {
    hide Inv, Enabled, Next, SleepInv, Signalling, Broadcasting, AtStart, Handshaking, AtClose;
    StepInv(t.c, n.a);
    match n.a
    case Enter(_) => SleepEnter(t, n);
    case Hold(_) =>
      if AtStart(t.c.holder) || Handshaking(t.c.holder) {
        SleepStart(t, n);
      } else if AtClose(t.c.holder) {
        SleepClose(t, n);
      } else {
        SleepCall(t, n);
      }
    case Work(_) => SleepWork(t, n);
    case Await => SleepAwait(t, n);
  }

  lemma {:induction false} TurnsInv(t: Threads, run: seq<Turn>)
    requires AllInv(t) && MayRun(t, run)
    ensures AllInv(Reached(t, run))
    decreases |run|
  {
    hide AllInv, MayStep, Step;
    if run != [] {
      TurnInv(t, run[0]);
      TurnsInv(Step(t, run[0]), run[1..]);
    }
  }

  // ---- a close that cannot return ----

  /** The worker is asleep in its error handler, and the thread in `close` is past the only signal it will send. */
  predicate Doomed(t: Threads) {
    && t.workerAsleep
    && (t.c.holder.CloseJoin? || (t.c.state.Failed? && (t.c.holder.CloseLoad? || t.c.holder.CloseSwap?)))
  }

  lemma DoomedStep(t: Threads, n: Turn)
    requires AllInv(t) && MayStep(t, n) && Doomed(t)
    ensures Doomed(Step(t, n)) && !Step(t, n).c.crashed
  {
    hide OwnerInv, ErrorInv, PhaseInv, OutputInv;
  }

  lemma {:induction false} DoomedForever(t: Threads, run: seq<Turn>)
    requires AllInv(t) && Doomed(t) && !t.c.crashed && MayRun(t, run)
    ensures Doomed(Reached(t, run)) && !Reached(t, run).c.crashed
    decreases |run|
  {
    hide AllInv, Doomed, MayStep, Step;
    if run != [] {
      TurnInv(t, run[0]);
      DoomedStep(t, run[0]);
      DoomedForever(Step(t, run[0]), run[1..]);
    }
  }

  // ---- any other holder can return ----

  /** Who goes on: whoever owns the condition mutex, else the worker where the holder waits for it, else the holder. */
  function Pick(t: Threads): Action {
    var c := t.c;
    if c.cond.ByWorker? then Work(Fine)
    else if c.cond.ByWaiter? then Await
    else if t.startAsleep then Work(if c.worker.Reading? then Trouble else Fine)
    else if c.holder.CloseJoin? && !c.worker.Absent? && !c.worker.Finished? then
      Work(if c.worker.Reading? then Midway else Fine)
    else Hold(Fine)
  }

  function PickWake(t: Threads): Wake {
    if !Signalling(t.c, Pick(t)) then WakeNobody
    else if t.workerAsleep then WakeWorker
    else if t.startAsleep then WakeStart
    else if t.waits > 0 then WakeWaiter
    else WakeNobody
  }

  function WaiterRank(w: Waiter): nat {
    match w
    case NoWaiter => 0
    case WaitStore => 1
    case WaitRaise => 2
    case WaitCheck => 3
    case WaitLoad => 4
  }

  /** How far the worker is from being parked, or finished where the state tells it to. */
  function WorkerRank(c: Client): nat {
    match c.worker
    case Finished => 0
    case ErrorDone => 1
    case Parked => 3
    case ErrorSwap(seen) => if seen == c.state then 4 else 1 + LoadRank(c.state)
    case ErrorLoad => LoadRank(c.state)
    case ErrorLock => 7
    case Reading => 8
    case RunSwap => 9
    case RunLoad => 10
    case RunLock => 11
    case HelloRead => 12
    case HelloWrite => 13
    case Absent => 14
  }

  function LoadRank(s: State): nat {
    if s.Closed? || s.Failed? then 2 else if s.Failing? then 4 else 5
  }

  /** How far the holder is from returning while nobody else moves. */
  function HolderRank(t: Threads): nat {
    var (h, s) := (t.c.holder, t.c.state);
    match h
    case NoHolder => 0
    // start
    case StartSwap => if s.New? then 9 else 14
    case StartLoad => if s.New? then 10 else if s.Failing? then 13 else 1
    case FailingLock => 12
    case FailingLoad => 11
    case FailingRaise => 2
    case FailingStore => 1
    case StartingLock => 15
    case StartingLoad => 15
    case Spawn => 8
    case HelloLock => if t.startAsleep then 5 else 7
    case HelloLoad => if s.Starting? then 6 else 4
    case HelloCheck => 3
    case HelloRaise => 2
    case HelloStore => 1
    // close
    case CloseJoin => 1
    case CloseWrite => 2
    case CloseSwap(seen) => if seen == s then 3 else if s.Failing? then 8 else 4
    case CloseFailingStore => 6
    case CloseFailingLock => 7
    case CloseLoad => 9
    // a call
    case CallWrite => 1
    case FailSwap(seen) => if seen == s then 1 else 3
    case FailLoad => 2
    case CheckRaise => 3
    case CheckFailing => 7
    case CheckLock => 8
    case CheckLoad => if s.Failing? then 9 else 6
  }

  predicate Closer(u: Threads, t: Threads) {
    || WaiterRank(u.c.waiter) < WaiterRank(t.c.waiter)
    || (u.c.waiter == t.c.waiter
        && (WorkerRank(u.c) < WorkerRank(t.c) || (WorkerRank(u.c) == WorkerRank(t.c) && HolderRank(u) < HolderRank(t))))
  }

  predicate Returned(t: Threads) {
    t.c.holder.NoHolder? || t.c.crashed
  }

  lemma PickWork(t: Threads)
    requires AllInv(t) && !Returned(t) && !Doomed(t) && Pick(t).Work?
    ensures var n := Turn(Pick(t), PickWake(t));
      MayStep(t, n) && !Doomed(Step(t, n)) && Closer(Step(t, n), t)
  {
    hide OutputInv;
  }

  lemma PickAwait(t: Threads)
    requires AllInv(t) && !Returned(t) && !Doomed(t) && Pick(t).Await?
    ensures var n := Turn(Pick(t), PickWake(t));
      MayStep(t, n) && !Doomed(Step(t, n)) && (Returned(Step(t, n)) || Closer(Step(t, n), t))
  {
    hide OutputInv, PhaseInv;
  }

  lemma PickStart(t: Threads)
    requires AllInv(t) && !Returned(t) && !Doomed(t) && Pick(t).Hold? && AtStart(t.c.holder)
    ensures var n := Turn(Pick(t), PickWake(t));
      MayStep(t, n) && !Doomed(Step(t, n)) && (Returned(Step(t, n)) || Closer(Step(t, n), t))
  {
    hide OutputInv, HelloStep, CloseStep, CheckStep, FailStep, WriteStep;
  }

  lemma PickHello(t: Threads)
    requires AllInv(t) && !Returned(t) && !Doomed(t) && Pick(t).Hold? && Handshaking(t.c.holder)
    ensures var n := Turn(Pick(t), PickWake(t));
      MayStep(t, n) && !Doomed(Step(t, n)) && (Returned(Step(t, n)) || Closer(Step(t, n), t))
  {
    hide OutputInv, StartStep, CloseStep, CheckStep, FailStep, WriteStep;
  }

  lemma PickClose(t: Threads)
    requires AllInv(t) && !Returned(t) && !Doomed(t) && Pick(t).Hold? && AtClose(t.c.holder)
    ensures var n := Turn(Pick(t), PickWake(t));
      MayStep(t, n) && !Doomed(Step(t, n)) && (Returned(Step(t, n)) || Closer(Step(t, n), t))
  {
    hide OutputInv, StartStep, HelloStep, CheckStep, FailStep, WriteStep;
  }

  lemma PickCheck(t: Threads)
    requires AllInv(t) && !Returned(t) && !Doomed(t) && Pick(t).Hold? && AtCheck(t.c.holder)
    ensures var n := Turn(Pick(t), PickWake(t));
      MayStep(t, n) && !Doomed(Step(t, n)) && (Returned(Step(t, n)) || Closer(Step(t, n), t))
  {
    hide OutputInv, PhaseInv, ErrorInv, StartStep, HelloStep, CloseStep, FailStep, WriteStep;
  }

  lemma PickWrite(t: Threads)
    requires AllInv(t) && !Returned(t) && !Doomed(t) && Pick(t).Hold?
    requires t.c.holder.CallWrite? || t.c.holder.CloseWrite? || GivingUp(t.c.holder)
    ensures var n := Turn(Pick(t), PickWake(t));
      MayStep(t, n) && !Doomed(Step(t, n)) && (Returned(Step(t, n)) || Closer(Step(t, n), t))
  {
    hide OutputInv, PhaseInv, ErrorInv, StartStep, HelloStep, CloseStep, CheckStep;
  }

  lemma HolderCases(h: Holder)
    requires !h.NoHolder?
    ensures AtStart(h) || Handshaking(h) || AtClose(h) || AtCheck(h) || GivingUp(h) || h.CallWrite? || h.CloseWrite?
  {
  }

  lemma NotReturned(t: Threads)
    ensures Returned(t) <==> t.c.holder.NoHolder? || t.c.crashed
  {
  }

  /** The step of whoever goes on brings the holder closer to its return. */
  lemma PickHelps(t: Threads)
    requires AllInv(t) && !Returned(t) && !Doomed(t)
    ensures var n := Turn(Pick(t), PickWake(t));
      MayStep(t, n) && !Doomed(Step(t, n)) && (Returned(Step(t, n)) || Closer(Step(t, n), t))
  {
    hide AllInv, Returned, Doomed, PickWake, MayStep, Step, Closer, AtStart, Handshaking, AtClose, AtCheck,
         GivingUp;
    assert !t.c.holder.NoHolder? by {
      NotReturned(t);
    }
    HolderCases(t.c.holder);
    if Pick(t).Work? {
      PickWork(t);
    } else if Pick(t).Await? {
      PickAwait(t);
    } else if AtStart(t.c.holder) {
      PickStart(t);
    } else if Handshaking(t.c.holder) {
      PickHello(t);
    } else if AtClose(t.c.holder) {
      PickClose(t);
    } else if AtCheck(t.c.holder) {
      PickCheck(t);
    } else {
      PickWrite(t);
    }
  }

  lemma {:induction false} HolderReturns(t: Threads) returns (run: seq<Turn>)
    requires AllInv(t) && (Returned(t) || !Doomed(t))
    ensures MayRun(t, run) && Returned(Reached(t, run))
    decreases WaiterRank(t.c.waiter), WorkerRank(t.c), HolderRank(t)
  {
    hide AllInv, Returned, Doomed, PickWake, Pick, MayStep, Step, WaiterRank, WorkerRank, HolderRank;
    if Returned(t) {
      run := [];
    } else {
      PickHelps(t);
      var n := Turn(Pick(t), PickWake(t));
      TurnInv(t, n);
      var rest := [];
      if !Returned(Step(t, n)) {
        rest := HolderReturns(Step(t, n));
      }
      run := [n] + rest;
      assert run[1..] == rest;
    }
  }

  // ---- the main results ----

  lemma IdleInv()
    ensures AllInv(IDLE)
  {
    FreshInv();
  }

  ghost predicate CanReturn(t: Threads) {
    exists run :: MayRun(t, run) && Returned(Reached(t, run))
  }

  lemma CanReturnUnlessDoomed(t: Threads)
    requires AllInv(t)
    ensures CanReturn(t) <==> Returned(t) || !Doomed(t)
  {
    hide AllInv, Returned, Doomed, MayRun, Reached;
    if !Returned(t) && Doomed(t) {
      forall more | MayRun(t, more) ensures !Returned(Reached(t, more)) {
        StaysInClose(t, more);
      }
    } else {
      var more := HolderReturns(t);
      assert MayRun(t, more) && Returned(Reached(t, more));
    }
  }

  /** In whatever state a run leaves it, the thread that holds the call lock can still return from `start`, `close` or a
      call, or dereference nil, exactly when it is not in a `close` that has nobody left to wake the worker. No two
      threads ever wait for each other's locks. */
  lemma ReturnsExactlyUnlessDoomed(run: seq<Turn>)
    requires MayRun(IDLE, run) && !Returned(Reached(IDLE, run))
    ensures CanReturn(Reached(IDLE, run)) <==> !Doomed(Reached(IDLE, run))
  {
    hide AllInv, Returned, Doomed, MayRun, Reached, CanReturn;
    IdleInv();
    TurnsInv(IDLE, run);
    CanReturnUnlessDoomed(Reached(IDLE, run));
  }

  lemma StaysInClose(t: Threads, more: seq<Turn>)
    requires AllInv(t) && Doomed(t) && !Returned(t) && MayRun(t, more)
    ensures !Returned(Reached(t, more))
  {
    DoomedForever(t, more);
  }

  // ---- two runs that go wrong ----

  lemma Then(t: Threads, n: Turn, rest: seq<Turn>) returns (run: seq<Turn>)
    requires MayStep(t, n) && MayRun(Step(t, n), rest)
    ensures run == [n] + rest && MayRun(t, run) && Reached(t, run) == Reached(Step(t, n), rest)
  {
    hide MayStep, Step;
    run := [n] + rest;
    assert run[1..] == rest;
  }

  /** The same, for the steps in which nobody is woken. */
  lemma Quietly(t: Threads, a: Action, rest: seq<Turn>) returns (run: seq<Turn>)
    requires MayStep(t, Turn(a, WakeNobody)) && MayRun(Step(t, Turn(a, WakeNobody)), rest)
    ensures run == [Turn(a, WakeNobody)] + rest && MayRun(t, run)
    ensures Reached(t, run) == Reached(Step(t, Turn(a, WakeNobody)), rest)
  {
    hide MayStep, Step;
    run := Then(t, Turn(a, WakeNobody), rest);
  }

  const STARTING := Client(Starting, HelloLock, HelloRead, NoWaiter, Nobody, Nil, 0, 1, [Hello], false)

  const RUNNING := Threads(STARTING.(state := Running, holder := NoHolder, worker := Reading), 0, false, false)

  /** Up to the hello being sent. */
  lemma Starts(rest: seq<Turn>) returns (run: seq<Turn>)
    requires MayRun(Threads(STARTING, 0, false, false), rest)
    ensures MayRun(IDLE, run) && Reached(IDLE, run) == Reached(Threads(STARTING, 0, false, false), rest)
  {
    hide MayRun, Reached;
    assert [] + [Hello] == [Hello];
    var swap := FRESH.(holder := StartSwap);
    var spawn := FRESH.(state := Starting, holder := Spawn);
    var sending := STARTING.(worker := HelloWrite, output := []);
    run := Quietly(Threads(sending, 0, false, false), Work(Fine), rest);
    run := Quietly(Threads(spawn, 0, false, false), Hold(Fine), run);
    run := Quietly(Threads(swap, 0, false, false), Hold(Fine), run);
    run := Quietly(Threads(FRESH.(holder := StartLoad), 0, false, false), Hold(Fine), run);
    run := Quietly(IDLE, Enter(StartLoad), run);
  }

  /** The connection comes up before the thread in `start` looks. */
  lemma Connects(rest: seq<Turn>) returns (run: seq<Turn>)
    requires MayRun(RUNNING, rest)
    ensures MayRun(IDLE, run) && Reached(IDLE, run) == Reached(RUNNING, rest)
  {
    hide MayRun, Reached;
    var up := RUNNING.c;
    run := Quietly(Threads(up.(holder := HelloCheck, cond := ByHolder), 0, false, false), Hold(Fine), rest);
    run := Quietly(Threads(up.(holder := HelloLoad, cond := ByHolder), 0, false, false), Hold(Fine), run);
    run := Quietly(Threads(up.(holder := HelloLock), 0, false, false), Hold(Fine), run);
    run := Quietly(Threads(STARTING.(worker := RunSwap, cond := ByWorker), 0, false, false), Work(Fine), run);
    run := Quietly(Threads(STARTING.(worker := RunLoad, cond := ByWorker), 0, false, false), Work(Fine), run);
    run := Quietly(Threads(STARTING.(worker := RunLock), 0, false, false), Work(Fine), run);
    run := Quietly(Threads(STARTING, 0, false, false), Work(Fine), run);
    run := Starts(run);
  }

  const BROKEN := RUNNING.c.(output := RUNNING.c.output + [Truncated])

  const PARKED := BROKEN.(state := Failing, worker := Parked, err := To(1), handlers := 1)

  /** A thread falls asleep in `wait`. */
  lemma FallsAsleep(rest: seq<Turn>) returns (run: seq<Turn>)
    requires MayRun(RUNNING.(waits := 1), rest)
    ensures MayRun(RUNNING, run) && Reached(RUNNING, run) == Reached(RUNNING.(waits := 1), rest)
  {
    hide MayRun, Reached;
    run := Quietly(Threads(RUNNING.c.(waiter := WaitLoad, cond := ByWaiter), 0, false, false), Await, rest);
    run := Quietly(RUNNING, Await, run);
  }

  /** A caller fails to write its request. */
  lemma RequestFails(rest: seq<Turn>) returns (run: seq<Turn>)
    requires MayRun(Threads(BROKEN.(holder := FailLoad), 1, false, false), rest)
    ensures MayRun(RUNNING, run)
    ensures Reached(RUNNING, run) == Reached(Threads(BROKEN.(holder := FailLoad), 1, false, false), rest)
  {
    hide MayRun, Reached;
    run := Quietly(Threads(RUNNING.c.(holder := CallWrite), 1, false, false), Hold(Midway), rest);
    run := Quietly(Threads(RUNNING.c.(holder := CheckLoad), 1, false, false), Hold(Fine), run);
    run := Quietly(RUNNING.(waits := 1), Enter(CheckLoad), run);
    run := FallsAsleep(run);
  }

  /** It makes the state Failing, without waking anybody. */
  lemma GivesUp(rest: seq<Turn>) returns (run: seq<Turn>)
    requires MayRun(Threads(BROKEN.(state := Failing), 1, false, false), rest)
    ensures MayRun(RUNNING, run)
    ensures Reached(RUNNING, run) == Reached(Threads(BROKEN.(state := Failing), 1, false, false), rest)
  {
    hide MayRun, Reached;
    run := Quietly(Threads(BROKEN.(holder := FailSwap(Running)), 1, false, false), Hold(Fine), rest);
    run := Quietly(Threads(BROKEN.(holder := FailLoad), 1, false, false), Hold(Fine), run);
    run := RequestFails(run);
  }

  /** The worker finds the state Failing already, and parks without waking anybody. */
  lemma WorkerParks(rest: seq<Turn>) returns (run: seq<Turn>)
    requires MayRun(Threads(PARKED, 1, false, true), rest)
    ensures MayRun(RUNNING, run) && Reached(RUNNING, run) == Reached(Threads(PARKED, 1, false, true), rest)
  {
    hide MayRun, Reached;
    var failing := BROKEN.(state := Failing);
    run := Quietly(Threads(PARKED.(worker := ErrorLoad, cond := ByWorker), 1, false, false), Work(Fine), rest);
    run := Quietly(Threads(failing.(worker := ErrorLock), 1, false, false), Work(Fine), run);
    run := Quietly(Threads(failing, 1, false, false), Work(Trouble), run);
    run := GivesUp(run);
  }

  /** A `close` that never returns: its one signal wakes the thread in `wait` instead of the worker it then joins. */
  lemma CloseMayHang() returns (run: seq<Turn>)
    ensures MayRun(IDLE, run) && Doomed(Reached(IDLE, run)) && !Returned(Reached(IDLE, run))
    ensures forall more :: MayRun(Reached(IDLE, run), more) ==> !Returned(Reached(Reached(IDLE, run), more))
  {
    hide MayRun, Reached, AllInv;
    var storing := PARKED.(holder := CloseFailingStore, cond := ByHolder);
    Nothing(Threads(PARKED.(state := Failed, holder := CloseSwap(Failing)), 0, false, true));
    run := Then(Threads(storing, 1, false, true), Turn(Hold(Fine), WakeWaiter), []);
    run := Quietly(Threads(PARKED.(holder := CloseFailingLock), 1, false, true), Hold(Fine), run);
    run := Quietly(Threads(PARKED.(holder := CloseLoad), 1, false, true), Hold(Fine), run);
    run := Quietly(Threads(PARKED, 1, false, true), Enter(CloseLoad), run);
    run := WorkerParks(run);
    run := Connects(run);
    IdleInv();
    TurnsInv(IDLE, run);
    forall more | MayRun(Reached(IDLE, run), more) ensures !Returned(Reached(Reached(IDLE, run), more)) {
      StaysInClose(Reached(IDLE, run), more);
    }
  }

  lemma Nothing(t: Threads)
    ensures MayRun(t, []) && Reached(t, []) == t
  {
  }

  /** The connection is up and sound, but the thread in `start` is asleep. */
  predicate Overslept(t: Threads) {
    && t.startAsleep && t.c.state.Running? && t.c.holder.HelloLock? && t.c.worker.Reading? && !t.c.crashed
    && !t.c.waiter.WaitRaise? && !t.c.waiter.WaitStore?
  }

  /** Nothing goes wrong on the connection. */
  predicate Untroubled(run: seq<Turn>) {
    forall i :: 0 <= i < |run| ==> run[i].a.Work? ==> run[i].a.o.Fine?
  }

  lemma {:induction false} SleepsOn(t: Threads, run: seq<Turn>)
    requires Overslept(t) && MayRun(t, run) && Untroubled(run)
    ensures Overslept(Reached(t, run))
    decreases |run|
  {
    if run != [] {
      OversleptStep(t, run[0]);
      SleepsOn(Step(t, run[0]), run[1..]);
    }
  }

  lemma OversleptStep(t: Threads, n: Turn)
    requires Overslept(t) && MayStep(t, n) && (n.a.Work? ==> n.a.o.Fine?)
    ensures Overslept(Step(t, n))
  {
  }

  /** A `start` that sleeps for as long as the connection is sound: the worker's one signal wakes a thread in `wait`,
      which goes back to sleep without passing it on. */
  lemma StartMaySleepOn() returns (run: seq<Turn>)
    ensures MayRun(IDLE, run) && Overslept(Reached(IDLE, run))
    ensures forall more :: MayRun(Reached(IDLE, run), more) && Untroubled(more) ==>
              Overslept(Reached(Reached(IDLE, run), more))
  {
    hide MayRun, Reached;
    var up := RUNNING.c.(holder := HelloLock);
    Nothing(Threads(up, 0, true, false));
    run := Then(Threads(STARTING.(worker := RunSwap, cond := ByWorker), 1, true, false), Turn(Work(Fine), WakeWaiter), []);
    run := Quietly(Threads(STARTING.(worker := RunLoad, cond := ByWorker), 1, true, false), Work(Fine), run);
    run := Quietly(Threads(STARTING.(worker := RunLock), 1, true, false), Work(Fine), run);
    run := Quietly(Threads(STARTING, 1, true, false), Work(Fine), run);
    run := Quietly(Threads(STARTING.(waiter := WaitLoad, cond := ByWaiter), 0, true, false), Await, run);
    run := Quietly(Threads(STARTING, 0, true, false), Await, run);
    run := Quietly(Threads(STARTING.(holder := HelloLoad, cond := ByHolder), 0, false, false), Hold(Fine), run);
    run := Quietly(Threads(STARTING, 0, false, false), Hold(Fine), run);
    run := Starts(run);
    forall more | MayRun(Reached(IDLE, run), more) && Untroubled(more)
      ensures Overslept(Reached(Reached(IDLE, run), more))
    {
      SleepsOn(Reached(IDLE, run), more);
    }
  }
}
