/** Which calls of `start` and `close` return, as conditions on the state in which the caller finds the client. */
module Returns {
  import opened Control
  import opened Signals

  // ---- start ----

  predicate Sound(n: Turn) {
    n.a.Work? ==> n.a.o.Fine?
  }

  /** The thread in `start` is asleep and the hello is over. */
  predicate Forgotten(t: Threads) {
    t.startAsleep && t.c.worker.Reading?
  }

  lemma HandshakeWork(t: Threads)
    requires AllInv(t) && !Returned(t) && Handshaking(t.c.holder) && !Forgotten(t) && Pick(t).Work?
    ensures var n := Turn(Pick(t), PickWake(t));
      Sound(n) && MayStep(t, n) && Handshaking(Step(t, n).c.holder) && !Forgotten(Step(t, n))
  {
    hide FailingInv, ErrorInv, OutputInv;
  }

  lemma HandshakeAwait(t: Threads)
    requires AllInv(t) && !Returned(t) && Handshaking(t.c.holder) && !Forgotten(t) && Pick(t).Await?
    ensures var n := Turn(Pick(t), PickWake(t));
      Sound(n) && MayStep(t, n) && Handshaking(Step(t, n).c.holder) && !Forgotten(Step(t, n))
  {
    hide FailingInv, ErrorInv, OutputInv;
  }

  lemma HandshakeHold(t: Threads)
    requires AllInv(t) && !Returned(t) && Handshaking(t.c.holder) && !Forgotten(t) && Pick(t).Hold?
    ensures var n := Turn(Pick(t), PickWake(t));
      Sound(n) && MayStep(t, n) && (Returned(Step(t, n)) || Handshaking(Step(t, n).c.holder)) && !Forgotten(Step(t, n))
  {
    hide FailingInv, OutputInv, StartStep, CloseStep, CheckStep, FailStep, WriteStep;
  }

  lemma HandshakeGoesOn(t: Threads)
    requires AllInv(t) && !Returned(t) && Handshaking(t.c.holder) && !Forgotten(t)
    ensures var n := Turn(Pick(t), PickWake(t));
      Sound(n) && MayStep(t, n) && (Returned(Step(t, n)) || Handshaking(Step(t, n).c.holder)) && !Forgotten(Step(t, n))
  {
    hide AllInv, Returned, Forgotten, PickWake, MayStep, Step, Handshaking;
    if Pick(t).Work? {
      HandshakeWork(t);
    } else if Pick(t).Await? {
      HandshakeAwait(t);
    } else {
      HandshakeHold(t);
    }
  }

  lemma {:induction false} StartReturns(t: Threads) returns (run: seq<Turn>)
    requires AllInv(t) && (Returned(t) || (Handshaking(t.c.holder) && !Forgotten(t)))
    ensures MayRun(t, run) && Returned(Reached(t, run)) && Untroubled(run)
    decreases WaiterRank(t.c.waiter), WorkerRank(t.c), HolderRank(t)
  {
    hide AllInv, Returned, Doomed, Forgotten, Handshaking, PickWake, Pick, MayStep, Step, WaiterRank, WorkerRank,
         HolderRank;
    run := [];
    if !Returned(t) {
      HandshakeNotDoomed(t);
      HandshakeGoesOn(t);
      PickHelps(t);
      var n := Turn(Pick(t), PickWake(t));
      TurnInv(t, n);
      if !Returned(Step(t, n)) {
        run := StartReturns(Step(t, n));
      }
      var rest := run;
      run := [n] + rest;
      assert run[1..] == rest;
    }
  }

  lemma HandshakeNotDoomed(t: Threads)
    requires Handshaking(t.c.holder)
    ensures !Doomed(t)
  {
  }

  lemma ForgottenOversleeps(t: Threads)
    requires AllInv(t) && !t.c.crashed && Forgotten(t)
    ensures Overslept(t)
  {
    hide OwnerInv, ErrorInv, PhaseInv, OutputInv;
  }

  lemma OversleptNotReturned(t: Threads)
    requires Overslept(t)
    ensures !Returned(t)
  {
  }

  ghost predicate StartCanReturn(t: Threads) {
    exists more :: MayRun(t, more) && Untroubled(more) && Returned(Reached(t, more))
  }

  /** In every reachable state, the thread in `start` that awaits the hello can still return on a connection on which
      nothing goes wrong exactly when it has not been left asleep with the hello over. */
  lemma StartReturnsExactlyUnlessForgotten(run: seq<Turn>)
    requires MayRun(IDLE, run)
    requires Handshaking(Reached(IDLE, run).c.holder) && !Reached(IDLE, run).c.crashed
    ensures StartCanReturn(Reached(IDLE, run)) <==> !Forgotten(Reached(IDLE, run))
  {
    hide AllInv, Returned, MayRun, Reached, Handshaking, Forgotten, Overslept, Untroubled;
    IdleInv();
    TurnsInv(IDLE, run);
    var t := Reached(IDLE, run);
    if Forgotten(t) {
      ForgottenOversleeps(t);
      forall more | MayRun(t, more) && Untroubled(more) ensures !Returned(Reached(t, more)) {
        SleepsOn(t, more);
        OversleptNotReturned(Reached(t, more));
      }
    } else {
      var more := StartReturns(t);
      assert MayRun(t, more) && Untroubled(more) && Returned(Reached(t, more));
    }
  }

  // ---- without threads in wait ----

  /** No thread calls `wait`, and none that sleeps there comes back. */
  predicate NobodyWaits(run: seq<Turn>) {
    forall i :: 0 <= i < |run| ==> !run[i].a.Await?
  }

  /** Nobody is in `wait`, and `start` is not forgotten. */
  predicate Alert(t: Threads) {
    t.waits == 0 && t.c.waiter.NoWaiter? && !Forgotten(t)
  }

  /** The error that made the state Failed has woken the worker. */
  predicate WorkerTold(t: Threads) {
    t.c.state.Failed? ==> !t.workerAsleep
  }

  lemma AlertEnter(t: Threads, n: Turn)
    requires AllInv(t) && Alert(t) && MayStep(t, n) && n.a.Enter?
    ensures Alert(Step(t, n)) && (WorkerTold(t) ==> WorkerTold(Step(t, n)))
  {
    hide Inv;
  }

  lemma AlertWork(t: Threads, n: Turn)
    requires AllInv(t) && Alert(t) && MayStep(t, n) && n.a.Work?
    ensures Alert(Step(t, n)) && (WorkerTold(t) ==> WorkerTold(Step(t, n)))
  {
    hide OwnerInv, ErrorInv, OutputInv;
  }

  lemma AlertHold(t: Threads, n: Turn)
    requires AllInv(t) && Alert(t) && MayStep(t, n) && n.a.Hold?
    ensures Alert(Step(t, n)) && (WorkerTold(t) ==> WorkerTold(Step(t, n)))
  {
    hide OwnerInv, ErrorInv, OutputInv;
  }

  lemma {:induction false} AlertRun(t: Threads, run: seq<Turn>)
    requires AllInv(t) && Alert(t) && MayRun(t, run) && NobodyWaits(run)
    ensures Alert(Reached(t, run)) && (WorkerTold(t) ==> WorkerTold(Reached(t, run)))
    decreases |run|
  {
    hide AllInv, Alert, WorkerTold, MayStep, Step;
    if run != [] {
      TurnInv(t, run[0]);
      match run[0].a {
        case Enter(_) => AlertEnter(t, run[0]);
        case Work(_) => AlertWork(t, run[0]);
        case Hold(_) => AlertHold(t, run[0]);
        case Await =>
      }
      AlertRun(Step(t, run[0]), run[1..]);
    }
  }

  /** A `start` begun while nobody is in `wait` is never forgotten if nobody calls `wait` before it returns. */
  lemma NobodyWaitingStartWakes(run: seq<Turn>, more: seq<Turn>)
    requires MayRun(IDLE, run) && MayRun(Reached(IDLE, run), more) && NobodyWaits(more)
    requires var t := Reached(IDLE, run); t.c.holder.NoHolder? && t.waits == 0 && t.c.waiter.NoWaiter?
    ensures !Forgotten(Reached(Reached(IDLE, run), more))
  {
    hide AllInv, MayRun, Reached, NobodyWaits;
    IdleInv();
    TurnsInv(IDLE, run);
    var t := Reached(IDLE, run);
    assert !Forgotten(t) by {
      AwakeWithoutHolder(t);
    }
    AlertRun(t, more);
  }

  lemma AwakeWithoutHolder(t: Threads)
    requires AllInv(t) && t.c.holder.NoHolder?
    ensures !t.startAsleep
  {
  }

  // ---- close ----

  /** A `close` begun now may send its one signal while the worker and a thread in `wait` are asleep, or may find that
      the signal the worker needed has gone to another thread already. */
  predicate SignalMayMiss(t: Threads) {
    || (t.c.state.Failed? && t.workerAsleep)
    || (t.c.state.Failing? && t.waits > 0
        && if t.c.waiter.NoWaiter? then !t.c.worker.Absent? && !t.c.worker.Finished? else t.workerAsleep)
  }

  predicate Closing(h: Holder) {
    h.NoHolder? || AtClose(h) || h.CloseWrite?
  }

  predicate Spared(t: Threads) {
    Closing(t.c.holder) && !SignalMayMiss(t) && !Doomed(t)
  }

  lemma SparedWork(t: Threads, n: Turn)
    requires AllInv(t) && Spared(t) && MayStep(t, n) && n.a.Work?
    ensures Spared(Step(t, n))
  {
    hide ErrorInv, OutputInv;
  }

  lemma SparedAwait(t: Threads, n: Turn)
    requires AllInv(t) && Spared(t) && MayStep(t, n) && n.a.Await?
    ensures Spared(Step(t, n))
  {
    hide ErrorInv, OutputInv;
  }

  lemma SparedHold(t: Threads, n: Turn)
    requires AllInv(t) && Spared(t) && MayStep(t, n) && n.a.Hold?
    ensures Spared(Step(t, n))
  {
    hide ErrorInv, OutputInv, StartStep, HelloStep, CheckStep, FailStep;
  }

  /** No other call takes the call lock. */
  predicate NoEntry(run: seq<Turn>) {
    forall i :: 0 <= i < |run| ==> !run[i].a.Enter?
  }

  lemma {:induction false} SparedRun(t: Threads, run: seq<Turn>)
    requires AllInv(t) && Spared(t) && MayRun(t, run) && NoEntry(run)
    ensures Spared(Reached(t, run))
    decreases |run|
  {
    hide AllInv, Spared, MayStep, Step;
    if run != [] {
      TurnInv(t, run[0]);
      match run[0].a {
        case Enter(_) =>
        case Work(_) => SparedWork(t, run[0]);
        case Await => SparedAwait(t, run[0]);
        case Hold(_) => SparedHold(t, run[0]);
      }
      SparedRun(Step(t, run[0]), run[1..]);
    }
  }

  // ---- how the signal is missed ----

  /** A thread in `wait` owns the condition mutex, another one and the worker are asleep. */
  predicate Raising(t: Threads) {
    && t.c.state.Failing? && t.waits > 0 && t.workerAsleep && !t.c.waiter.NoWaiter? && t.c.holder.CloseLoad?
    && !t.c.crashed
  }

  lemma RaisingStep(t: Threads)
    requires AllInv(t) && Raising(t)
    ensures var n := Turn(Await, if t.c.waiter.WaitStore? then WakeWaiter else WakeNobody);
      && MayStep(t, n) && !Step(t, n).c.crashed
      && if t.c.waiter.WaitStore? then Doomed(Step(t, n))
         else Raising(Step(t, n)) && WaiterRank(Step(t, n).c.waiter) < WaiterRank(t.c.waiter)
  {
    hide FailingInv, PhaseInv, OutputInv;
  }

  lemma {:induction false} WaiterSignals(t: Threads) returns (run: seq<Turn>)
    requires AllInv(t) && Raising(t)
    ensures MayRun(t, run) && NoEntry(run) && Doomed(Reached(t, run)) && !Reached(t, run).c.crashed
    decreases WaiterRank(t.c.waiter)
  {
    hide AllInv, Raising, Doomed, MayStep, Step, WaiterRank;
    var n := Turn(Await, if t.c.waiter.WaitStore? then WakeWaiter else WakeNobody);
    RaisingStep(t);
    TurnInv(t, n);
    var rest := [];
    if !t.c.waiter.WaitStore? {
      rest := WaiterSignals(Step(t, n));
    }
    run := [n] + rest;
    assert run[1..] == rest;
  }

  function ParkRank(w: Worker): (r: nat)
    ensures r >= 1
  {
    match w
    case ErrorLoad => 1
    case ErrorSwap(_) => 2
    case ErrorLock => 2
    case Parked => 2
    case _ => 3
  }

  /** A state in which `close` will send its signal with a thread asleep in `wait`. */
  predicate Waiting(t: Threads) {
    t.c.state.Failing? && t.waits > 0 && t.c.waiter.NoWaiter? && t.c.holder.CloseLoad? && !t.c.crashed
  }

  lemma ParkStep(t: Threads)
    requires AllInv(t) && Waiting(t) && !t.workerAsleep && !t.c.worker.Absent? && !t.c.worker.Finished?
    ensures var n := Turn(Work(if t.c.worker.Reading? || t.c.worker.ErrorDone? then Trouble else Fine), WakeNobody);
      && MayStep(t, n) && Waiting(Step(t, n)) && !Step(t, n).c.worker.Absent? && !Step(t, n).c.worker.Finished?
      && (Step(t, n).workerAsleep || ParkRank(Step(t, n).c.worker) < ParkRank(t.c.worker))
  {
    hide ErrorInv, OutputInv;
  }

  lemma {:induction false} GoesToSleep(t: Threads) returns (run: seq<Turn>)
    requires AllInv(t) && Waiting(t) && (t.workerAsleep || (!t.c.worker.Absent? && !t.c.worker.Finished?))
    ensures MayRun(t, run) && NoEntry(run)
    ensures AllInv(Reached(t, run)) && Waiting(Reached(t, run)) && Reached(t, run).workerAsleep
    decreases if t.workerAsleep then 0 else ParkRank(t.c.worker)
  {
    hide AllInv, Waiting, MayStep, Step, ParkRank;
    run := [];
    if !t.workerAsleep {
      var n := Turn(Work(if t.c.worker.Reading? || t.c.worker.ErrorDone? then Trouble else Fine), WakeNobody);
      ParkStep(t);
      TurnInv(t, n);
      var rest := GoesToSleep(Step(t, n));
      run := [n] + rest;
      assert run[1..] == rest;
    }
  }

  lemma SignalMisses(t: Threads) returns (run: seq<Turn>)
    requires AllInv(t) && Waiting(t) && t.workerAsleep
    ensures MayRun(t, run) && NoEntry(run) && Doomed(Reached(t, run)) && !Reached(t, run).c.crashed
  {
    hide ErrorInv, PhaseInv, OutputInv, FailingInv, MayRun, Reached, NoEntry;
    var locked := t.(c := t.c.(holder := CloseFailingStore, cond := ByHolder));
    run := SignalGoesAstray(locked);
    run := Quietly(t.(c := t.c.(holder := CloseFailingLock)), Hold(Fine), run);
    NoEntryMore(Turn(Hold(Fine), WakeNobody), run[1..]);
    run := Quietly(t, Hold(Fine), run);
    NoEntryMore(Turn(Hold(Fine), WakeNobody), run[1..]);
  }

  lemma SignalGoesAstray(t: Threads) returns (run: seq<Turn>)
    requires t.c.state.Failing? && t.waits > 0 && t.workerAsleep && t.c.holder.CloseFailingStore? && !t.c.crashed
    ensures MayRun(t, run) && NoEntry(run) && Doomed(Reached(t, run)) && !Reached(t, run).c.crashed
  {
    hide MayRun, Reached;
    var n := Turn(Hold(Fine), WakeWaiter);
    Nothing(Step(t, n));
    run := Then(t, n, []);
  }

  lemma NoEntryMore(n: Turn, rest: seq<Turn>)
    requires !n.a.Enter? && NoEntry(rest)
    ensures NoEntry([n] + rest)
  {
  }

  // ---- the main results for close ----

  function Begun(t: Threads): Threads {
    t.(c := t.c.(holder := CloseLoad))
  }

  /** A `close` begun now may come to a point from which it can never return, while no other call is made. */
  ghost predicate CloseMayHang(t: Threads) {
    exists more :: MayRun(Begun(t), more) && NoEntry(more) && !CanReturn(Reached(Begun(t), more))
  }

  lemma BegunInv(t: Threads)
    requires AllInv(t) && t.c.holder.NoHolder? && !t.c.crashed
    ensures AllInv(Begun(t)) && !Begun(t).c.crashed && Begun(t).c.holder.CloseLoad?
    ensures MayStep(t, Turn(Enter(CloseLoad), WakeNobody)) && Step(t, Turn(Enter(CloseLoad), WakeNobody)) == Begun(t)
    ensures SignalMayMiss(Begun(t)) <==> SignalMayMiss(t)
  {
    hide Inv, SleepInv;
    TurnInv(t, Turn(Enter(CloseLoad), WakeNobody));
  }

  lemma CloseHangs(t: Threads) returns (run: seq<Turn>)
    requires AllInv(t) && !t.c.crashed && t.c.holder.CloseLoad? && SignalMayMiss(t)
    ensures MayRun(t, run) && NoEntry(run) && Doomed(Reached(t, run)) && !Reached(t, run).c.crashed
  {
    hide AllInv, MayStep, Step;
    run := [];
    if t.c.state.Failing? {
      if t.c.waiter.NoWaiter? {
        var first := GoesToSleep(t);
        var last := SignalMisses(Reached(t, first));
        run := Joined(t, first, last);
      } else {
        run := WaiterSignals(t);
      }
    }
  }

  lemma {:induction false} Joined(t: Threads, a: seq<Turn>, b: seq<Turn>) returns (run: seq<Turn>)
    requires MayRun(t, a) && NoEntry(a) && MayRun(Reached(t, a), b) && NoEntry(b)
    ensures MayRun(t, run) && NoEntry(run) && Reached(t, run) == Reached(Reached(t, a), b)
    decreases |a|
  {
    hide MayStep, Step;
    if a == [] {
      run := b;
    } else {
      var rest := Joined(Step(t, a[0]), a[1..], b);
      run := [a[0]] + rest;
      assert run[1..] == rest;
    }
  }

  lemma HangsWhereDoomed(t: Threads, run: seq<Turn>)
    requires AllInv(t) && MayRun(t, run)
    ensures !CanReturn(Reached(t, run)) <==> Doomed(Reached(t, run)) && !Reached(t, run).c.crashed
  {
    hide AllInv, MayRun, Reached, CanReturn;
    TurnsInv(t, run);
    CanReturnUnlessDoomed(Reached(t, run));
  }

  lemma NotMissedBeforehand(t: Threads)
    requires t.c.holder.CloseLoad? && !SignalMayMiss(t)
    ensures Spared(t)
  {
  }

  lemma SparedIsNotDoomed(t: Threads)
    requires Spared(t)
    ensures !Doomed(t)
  {
  }

  /** Which calls of `close` may hang: in every reachable state in which no call is under way, exactly those that find
      the state Failed with the worker asleep, or Failing with a thread asleep in `wait` and a worker that is, or may
      yet fall, asleep. */
  lemma CloseMayHangExactlyWhen(run: seq<Turn>)
    requires MayRun(IDLE, run) && Reached(IDLE, run).c.holder.NoHolder? && !Reached(IDLE, run).c.crashed
    ensures CloseMayHang(Reached(IDLE, run)) <==> SignalMayMiss(Reached(IDLE, run))
  {
    hide AllInv, MayRun, Reached, CanReturn, Doomed, SignalMayMiss, Spared, NoEntry, Begun, MayStep, Step;
    IdleInv();
    TurnsInv(IDLE, run);
    var t := Reached(IDLE, run);
    BegunInv(t);
    if SignalMayMiss(t) {
      var more := CloseHangs(Begun(t));
      HangsWhereDoomed(Begun(t), more);
      assert !CanReturn(Reached(Begun(t), more));
    } else {
      forall more | MayRun(Begun(t), more) && NoEntry(more) ensures CanReturn(Reached(Begun(t), more)) {
        NotMissedBeforehand(Begun(t));
        SparedRun(Begun(t), more);
        SparedIsNotDoomed(Reached(Begun(t), more));
        HangsWhereDoomed(Begun(t), more);
      }
    }
  }

  /** Where no thread ever calls `wait`, every `close` can return, whatever goes wrong. */
  lemma NobodyWaitingCloseReturns(run: seq<Turn>)
    requires MayRun(IDLE, run) && NobodyWaits(run)
    requires Reached(IDLE, run).c.holder.NoHolder? && !Reached(IDLE, run).c.crashed
    ensures !CloseMayHang(Reached(IDLE, run))
  {
    hide AllInv, MayRun, Reached, NobodyWaits, CloseMayHang;
    IdleInv();
    AlertRun(IDLE, run);
    CloseMayHangExactlyWhen(run);
  }
}
