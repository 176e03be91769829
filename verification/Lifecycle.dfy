/** What every run of a client's life cycle guarantees, and where its error pointer may be nil. */
module Lifecycle {
  import opened Control

  // ---- phases ----

  /** The only moves of the state. Closed is not final: a later call that fails makes it Failing. */
  predicate Moves(s: State, t: State) {
    match s
    case New => t.Starting? || t.Closed? || t.Failing?
    case Starting => t.Running? || t.Failing?
    case Running => t.Closed? || t.Failing?
    case Closed => t.Failing?
    case Failing => t.Failed?
    case Failed => t.Closed?
  }

  function Order(s: State): nat {
    match s
    case New => 0
    case Starting => 1
    case Running => 2
    case _ => 3
  }

  lemma CloseMoves(c: Client)
    requires Inv(c) && CanHold(c) && AtClose(c.holder)
    ensures var d := CloseStep(c); d.state == c.state || Moves(c.state, d.state)
  {
    hide OwnerInv, ErrorInv, OutputInv;
  }

  lemma HoldMoves(c: Client, o: Outcome)
    requires Inv(c) && CanHold(c)
    ensures var d := HoldStep(c, o); d.state == c.state || Moves(c.state, d.state)
  {
    hide OwnerInv, ErrorInv, OutputInv, CloseStep;
    if AtClose(c.holder) {
      CloseMoves(c);
    }
  }

  lemma WorkMoves(c: Client, o: Outcome)
    requires Inv(c) && CanWork(c)
    ensures var d := WorkStep(c, o); d.state == c.state || Moves(c.state, d.state)
  {
    hide OwnerInv, ErrorInv, OutputInv;
  }

  /** Every step leaves the state alone or makes one of these moves. */
  lemma StateMoves(c: Client, a: Action)
    requires Inv(c) && Enabled(c, a)
    ensures Next(c, a).state == c.state || Moves(c.state, Next(c, a).state)
  {
    hide OwnerInv, ErrorInv, OutputInv, PhaseInv, HoldStep, WorkStep, CanHold, CanWork, Moves;
    match a
    case Enter(_) =>
    case Hold(o) => HoldMoves(c, o);
    case Work(o) => WorkMoves(c, o);
    case Await => assert Moves(Failing, Failed) by { MovesFailing(); }
  }

  lemma MovesFailing()
    ensures Moves(Failing, Failed)
  {
  }

  lemma {:induction false} PhasesFrom(c: Client, run: seq<Action>)
    requires Inv(c) && Runs(c, run)
    ensures Order(c.state) <= Order(After(c, run).state)
    decreases |run|
  {
    hide Inv, Enabled, Next;
    if run != [] {
      StepInv(c, run[0]);
      StateMoves(c, run[0]);
      PhasesFrom(Next(c, run[0]), run[1..]);
    }
  }

  // ---- main results, over every run of a new client ----

  /** Phases only go forward through New, Starting, Running and the final three; at most one worker is ever started; the
      branch of `start` that waits for another `start` is never taken. */
  lemma PhasesOnlyAdvance(run: seq<Action>, more: seq<Action>)
    requires Runs(FRESH, run) && Runs(After(FRESH, run), more)
    ensures Order(After(FRESH, run).state) <= Order(After(After(FRESH, run), more).state)
    ensures After(FRESH, run).spawned <= 1
    ensures !After(FRESH, run).holder.StartingLock?
  {
    hide Runs, After, OwnerInv, FailingInv, ErrorInv, OutputInv;
    FreshInv();
    RunInv(FRESH, run);
    PhasesFrom(After(FRESH, run), more);
  }

  /** Whatever callers, waiters, errors and closes do, the bytes written are one hello, whole requests, then at most one
      goodbye or one truncated request, and nothing after that. */
  lemma OutputKeepsItsShape(run: seq<Action>)
    requires Runs(FRESH, run)
    ensures Shaped(After(FRESH, run).output)
  {
    hide Runs, After, OwnerInv, FailingInv, ErrorInv, PhaseInv, Shaped;
    FreshInv();
    RunInv(FRESH, run);
  }

  /** A thread other than the worker is about to read the error pointer. */
  predicate ReadsError(c: Client) {
    c.holder.FailingRaise? || c.holder.HelloRaise? || c.holder.CheckRaise? || c.waiter.WaitRaise?
  }

  /** Whoever reads the error pointer finds it set exactly when the worker is parked in its handler, and then the
      error it points at is alive. In `start` after the handshake it is always set. */
  lemma BorrowedErrorIsAlive(run: seq<Action>)
    requires Runs(FRESH, run)
    ensures var c := After(FRESH, run);
      && (c.err.To? ==> Alive(c))
      && (ReadsError(c) ==> (c.err.To? <==> c.worker.Parked?))
      && (c.holder.HelloRaise? ==> c.err.To?)
  {
    hide Runs, After, OutputInv, PhaseInv;
    FreshInv();
    RunInv(FRESH, run);
  }

  // ---- the error pointer may be nil ----

  /** This step dereferences the error pointer without testing it. */
  predicate Raises(c: Client, a: Action) {
    (a.Hold? && (c.holder.FailingRaise? || c.holder.HelloRaise?)) || (a.Await? && c.waiter.WaitRaise?)
  }

  /** A reachable step goes wrong exactly when it is the unguarded read of `wait` or of a late `start` and no error is
      parked in the worker. */
  lemma CrashesExactlyWhenNotParked(run: seq<Action>, a: Action)
    requires Runs(FRESH, run) && Enabled(After(FRESH, run), a)
    ensures var c := After(FRESH, run);
      Next(c, a).crashed <==> Raises(c, a) && !c.holder.HelloRaise? && !c.worker.Parked?
  {
    hide Runs, After, OutputInv, PhaseInv;
    FreshInv();
    RunInv(FRESH, run);
    BorrowedErrorIsAlive(run);
  }

  /** In this step a caller's `fail` makes the state Failing, leaving no error behind. */
  predicate Forces(c: Client, a: Action) {
    a.Hold? && c.holder.FailSwap? && c.state == c.holder.seen
  }

  predicate Unforced(c: Client, run: seq<Action>)
    requires Runs(c, run)
    decreases |run|
  {
    run == [] || (!Forces(c, run[0]) && Unforced(Next(c, run[0]), run[1..]))
  }

  /** The reads in `start` find an error. */
  lemma UnforcedStart(c: Client)
    requires Inv(c) && CanHold(c) && !c.crashed && (c.state.Failing? ==> InHandler(c.worker))
    ensures AtStart(c.holder) ==> var d := StartStep(c); (d.state.Failing? ==> InHandler(d.worker)) && !d.crashed
    ensures Handshaking(c.holder) ==> var d := HelloStep(c); (d.state.Failing? ==> InHandler(d.worker)) && !d.crashed
  {
    hide OutputInv;
  }

  lemma UnforcedHold(c: Client, o: Outcome)
    requires Inv(c) && CanHold(c) && !Forces(c, Hold(o)) && !c.crashed && (c.state.Failing? ==> InHandler(c.worker))
    ensures var d := HoldStep(c, o); (d.state.Failing? ==> InHandler(d.worker)) && !d.crashed
  {
    hide OwnerInv, FailingInv, ErrorInv, PhaseInv, OutputInv, StartStep, HelloStep, InHandler;
    UnforcedStart(c);
  }

  lemma UnforcedWork(c: Client, o: Outcome)
    requires Inv(c) && CanWork(c) && !c.crashed && (c.state.Failing? ==> InHandler(c.worker))
    ensures var d := WorkStep(c, o); (d.state.Failing? ==> InHandler(d.worker)) && !d.crashed
  {
    hide OutputInv, PhaseInv;
  }

  lemma UnforcedAwait(c: Client)
    requires Inv(c) && CanAwait(c) && !c.crashed && (c.state.Failing? ==> InHandler(c.worker))
    ensures var d := WaitStep(c); (d.state.Failing? ==> InHandler(d.worker)) && !d.crashed
  {
    hide OutputInv, PhaseInv;
  }

  lemma UnforcedStep(c: Client, a: Action)
    requires Inv(c) && Enabled(c, a) && !Forces(c, a) && (c.state.Failing? ==> InHandler(c.worker))
    ensures Next(c, a).state.Failing? ==> InHandler(Next(c, a).worker)
    ensures !Next(c, a).crashed
  {
    hide Inv, CanHold, CanWork, CanAwait, HoldStep, WorkStep, WaitStep, InHandler, Forces;
    match a
    case Enter(_) =>
    case Hold(o) => UnforcedHold(c, o);
    case Work(o) => UnforcedWork(c, o);
    case Await => UnforcedAwait(c);
  }

  /** If no caller's `fail` ever makes the state Failing, no read of the error pointer finds it nil. */
  lemma {:induction false} UnforcedIsSafe(c: Client, run: seq<Action>)
    requires Inv(c) && !c.crashed && (c.state.Failing? ==> InHandler(c.worker)) && Runs(c, run) && Unforced(c, run)
    ensures !After(c, run).crashed
    decreases |run|
  {
    hide Inv, Enabled, Next, InHandler, Forces;
    if run != [] {
      StepInv(c, run[0]);
      UnforcedStep(c, run[0]);
      UnforcedIsSafe(Next(c, run[0]), run[1..]);
    }
  }

  lemma NoCrashUnlessForced(run: seq<Action>)
    requires Runs(FRESH, run) && Unforced(FRESH, run)
    ensures !After(FRESH, run).crashed
  {
    hide Runs, After, Unforced;
    FreshInv();
    UnforcedIsSafe(FRESH, run);
  }

  lemma Before(c: Client, a: Action, rest: seq<Action>) returns (run: seq<Action>)
    requires Enabled(c, a) && Runs(Next(c, a), rest)
    ensures run == [a] + rest && Runs(c, run) && After(c, run) == After(Next(c, a), rest)
  {
    hide Enabled, Next;
    run := [a] + rest;
    assert run[1..] == rest;
  }

  lemma Stop(c: Client)
    ensures Runs(c, []) && After(c, []) == c
  {
  }

  const UP := Client(Running, NoHolder, Reading, NoWaiter, Nobody, Nil, 0, 1, [Hello], false)

  /** A connection comes up. */
  lemma ComesUp(rest: seq<Action>) returns (run: seq<Action>)
    requires Runs(UP, rest)
    ensures Runs(FRESH, run) && After(FRESH, run) == After(UP, rest)
  {
    hide Runs, After;
    var starting := FRESH.(state := Starting, spawned := 1, holder := HelloLock, worker := HelloRead, output := [Hello]);
    assert [] + [Hello] == [Hello];
    run := Before(UP.(holder := HelloCheck, cond := ByHolder), Hold(Fine), rest);
    run := Before(UP.(holder := HelloLoad, cond := ByHolder), Hold(Fine), run);
    run := Before(UP.(holder := HelloLock), Hold(Fine), run);
    run := Before(starting.(worker := RunSwap, cond := ByWorker), Work(Fine), run);
    run := Before(starting.(worker := RunLoad, cond := ByWorker), Work(Fine), run);
    run := Before(starting.(worker := RunLock), Work(Fine), run);
    run := Before(starting, Work(Fine), run);
    run := Before(starting.(worker := HelloWrite, output := []), Work(Fine), run);
    run := Before(FRESH.(state := Starting, holder := Spawn), Hold(Fine), run);
    run := Before(FRESH.(holder := StartSwap), Hold(Fine), run);
    run := Before(FRESH.(holder := StartLoad), Hold(Fine), run);
    run := Before(FRESH, Enter(StartLoad), run);
  }

  lemma WaitCrashes(c: Client) returns (run: seq<Action>)
    requires c.state.Failing? && c.waiter.NoWaiter? && c.cond.Nobody? && c.err.Nil? && !c.crashed
    ensures WaitsCrash(c, run)
  {
    hide Runs, After;
    Stop(c.(waiter := WaitStore, cond := ByWaiter, crashed := true));
    run := Before(c.(waiter := WaitRaise, cond := ByWaiter), Await, []);
    run := Before(c.(waiter := WaitCheck, cond := ByWaiter), Await, run);
    run := Before(c.(waiter := WaitLoad, cond := ByWaiter), Await, run);
    run := Before(c, Await, run);
  }

  /** Nothing but steps of threads in `wait`, the last of which dereferences nil. */
  ghost predicate WaitsCrash(c: Client, run: seq<Action>) {
    (forall i :: 0 <= i < |run| ==> run[i].Await?) && Runs(c, run) && After(c, run).crashed
  }

  lemma {:induction false} WaitsAreSafe(c: Client, run: seq<Action>)
    requires !c.crashed && (c.err.To? || (!c.state.Failing? && !c.waiter.WaitRaise? && !c.waiter.WaitStore?))
    ensures !WaitsCrash(c, run)
    decreases |run|
  {
    if run != [] && run[0].Await? && Enabled(c, run[0]) {
      WaitsAreSafe(Next(c, run[0]), run[1..]);
    }
  }

  /** A call to `wait` may dereference nil exactly when it finds the state Failing and the worker is not parked. */
  lemma WaitCrashesExactlyWhen(run: seq<Action>)
    requires Runs(FRESH, run)
    requires var c := After(FRESH, run); !c.crashed && c.waiter.NoWaiter? && c.cond.Nobody?
    ensures var c := After(FRESH, run);
      (exists more :: WaitsCrash(c, more)) <==> c.state.Failing? && !c.worker.Parked?
  {
    hide Runs, After, OutputInv, PhaseInv, FailingInv, WaitsCrash;
    FreshInv();
    RunInv(FRESH, run);
    var c := After(FRESH, run);
    if c.state.Failing? && !c.worker.Parked? {
      var more := WaitCrashes(c);
      assert WaitsCrash(c, more);
    } else {
      forall more ensures !WaitsCrash(c, more) {
        WaitsAreSafe(c, more);
      }
    }
  }

  lemma GivesUp(c: Client, rest: seq<Action>) returns (run: seq<Action>)
    requires !c.state.Failing? && !c.state.Failed? && c.holder.FailLoad? && !c.crashed
    requires Runs(c.(state := Failing, holder := NoHolder), rest)
    ensures Runs(c, run) && After(c, run) == After(c.(state := Failing, holder := NoHolder), rest)
  {
    hide Runs, After;
    run := Before(c.(holder := FailSwap(c.state)), Hold(Fine), rest);
    run := Before(c, Hold(Fine), run);
  }

  lemma FailsToWrite(c: Client, rest: seq<Action>) returns (run: seq<Action>)
    requires c.state.Running? && c.holder.NoHolder? && !c.crashed
    requires Runs(c.(output := c.output + [Truncated], holder := FailLoad), rest)
    ensures Runs(c, run) && After(c, run) == After(c.(output := c.output + [Truncated], holder := FailLoad), rest)
  {
    hide Runs, After;
    run := Before(c.(holder := CallWrite), Hold(Midway), rest);
    run := Before(c.(holder := CheckLoad), Hold(Fine), run);
    run := Before(c, Enter(CheckLoad), run);
  }

  /** The safety of the error pointer fails: once a caller has failed to write its request, `wait` dereferences nil. */
  lemma WaitAfterFailedRequest() returns (run: seq<Action>)
    ensures Runs(FRESH, run) && After(FRESH, run).crashed
  {
    hide Runs, After;
    var broken := UP.(output := UP.output + [Truncated], holder := FailLoad);
    run := WaitCrashes(broken.(state := Failing, holder := NoHolder));
    run := GivesUp(broken, run);
    run := FailsToWrite(UP, run);
    run := ComesUp(run);
  }

  // ---- a late start ----

  /** Nothing but steps of a thread that has just called `start`, the last of which dereferences nil. */
  ghost predicate StartCrashes(c: Client, run: seq<Action>) {
    (forall i :: 0 <= i < |run| ==> run[i].Hold?) && Runs(c.(holder := StartLoad), run)
    && After(c.(holder := StartLoad), run).crashed
  }

  /** No error, and nowhere near reading one. */
  predicate StartCalm(c: Client) {
    && !c.state.Failing?
    && (c.holder.NoHolder? || c.holder.StartLoad? || c.holder.StartSwap? || c.holder.Spawn? || c.holder.StartingLock?
        || c.holder.StartingLoad? || c.holder.HelloLock? || c.holder.HelloLoad? || c.holder.HelloCheck?)
  }

  lemma CalmStep(c: Client, o: Outcome)
    requires !c.crashed && CanHold(c) && (AtStart(c.holder) || Handshaking(c.holder)) && (c.err.To? || StartCalm(c))
    ensures var d := HoldStep(c, o);
      && !d.crashed && (d.err.To? || StartCalm(d))
      && (d.holder.NoHolder? || AtStart(d.holder) || Handshaking(d.holder))
  {
    hide CloseStep, CheckStep, FailStep, WriteStep;
  }

  lemma {:induction false} StartIsSafe(c: Client, run: seq<Action>)
    requires !c.crashed && (c.holder.NoHolder? || AtStart(c.holder) || Handshaking(c.holder)) && (c.err.To? || StartCalm(c))
    requires Runs(c, run) && forall i :: 0 <= i < |run| ==> run[i].Hold?
    ensures !After(c, run).crashed
    decreases |run|
  {
    hide HoldStep, StartCalm, AtStart, Handshaking;
    if run != [] {
      CalmStep(c, run[0].o);
      StartIsSafe(Next(c, run[0]), run[1..]);
    }
  }

  lemma StartNeverCrashes(c: Client, run: seq<Action>)
    requires !c.crashed && (c.err.To? || !c.state.Failing?)
    ensures !StartCrashes(c, run)
  {
    if (forall i :: 0 <= i < |run| ==> run[i].Hold?) && Runs(c.(holder := StartLoad), run) {
      StartIsSafe(c.(holder := StartLoad), run);
    }
  }

  lemma LateStartCrashes(c: Client) returns (run: seq<Action>)
    requires c.state.Failing? && c.cond.Nobody? && c.err.Nil? && !c.crashed
    ensures StartCrashes(c, run)
  {
    hide Runs, After;
    Stop(c.(holder := FailingStore, cond := ByHolder, crashed := true));
    run := Before(c.(holder := FailingRaise, cond := ByHolder), Hold(Fine), []);
    run := Before(c.(holder := FailingLoad, cond := ByHolder), Hold(Fine), run);
    run := Before(c.(holder := FailingLock), Hold(Fine), run);
    run := Before(c.(holder := StartLoad), Hold(Fine), run);
  }

  /** A call to `start` may dereference nil exactly when it finds the state Failing and the worker is not parked. */
  lemma StartCrashesExactlyWhen(run: seq<Action>)
    requires Runs(FRESH, run)
    requires var c := After(FRESH, run); !c.crashed && c.holder.NoHolder? && c.cond.Nobody?
    ensures var c := After(FRESH, run);
      (exists more :: StartCrashes(c, more)) <==> c.state.Failing? && !c.worker.Parked?
  {
    hide Runs, After, OutputInv, PhaseInv, FailingInv, StartCrashes;
    FreshInv();
    RunInv(FRESH, run);
    var c := After(FRESH, run);
    if c.state.Failing? && !c.worker.Parked? {
      var more := LateStartCrashes(c);
    } else {
      forall more ensures !StartCrashes(c, more) {
        StartNeverCrashes(c, more);
      }
    }
  }

  /** A call made before `start` makes the new client Failing, and `start` then dereferences nil. */
  lemma StartAfterEarlyCall() returns (run: seq<Action>)
    ensures Runs(FRESH, run) && After(FRESH, run).crashed
  {
    hide Runs, After;
    run := LateStartCrashes(FRESH.(state := Failing));
    run := Before(FRESH.(state := Failing), Enter(StartLoad), run);
    run := GivesUp(FRESH.(holder := FailLoad), run);
    run := Before(FRESH.(holder := CheckLoad), Hold(Fine), run);
    run := Before(FRESH, Enter(CheckLoad), run);
  }
}
