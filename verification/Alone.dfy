/** What each call of the client does when no other thread takes a step in between, and what the worker does with an
    error. */
module Alone {
  import opened Control
  import opened Lifecycle

  /** Nothing but the steps of one call, none of whose writes fails. */
  predicate OneCall(run: seq<Action>, h: Holder) {
    run != [] && run[0] == Enter(h) && forall i :: 1 <= i < |run| ==> run[i] == Hold(Fine)
  }

  /** Nothing but steps of the worker, all of which succeed after the first. */
  predicate OneError(run: seq<Action>, o: Outcome) {
    run != [] && run[0] == Work(o) && forall i :: 1 <= i < |run| ==> run[i] == Work(Fine)
  }

  predicate OnlyWaits(run: seq<Action>) {
    forall i :: 0 <= i < |run| ==> run[i] == Await
  }

  /** The steps of a run from `c` that lead to `d`. */
  predicate LeadsTo(c: Client, run: seq<Action>, d: Client) {
    Runs(c, run) && After(c, run) == d
  }

  lemma NoSteps(c: Client)
    ensures LeadsTo(c, [], c)
  {
  }

  lemma First(c: Client, a: Action, d: Client, rest: seq<Action>) returns (run: seq<Action>)
    requires Enabled(c, a) && LeadsTo(Next(c, a), rest, d)
    ensures run == [a] + rest && LeadsTo(c, run, d)
  {
    hide Enabled, Next;
    run := Before(c, a, rest);
  }

  // ---- calls ----

  /** What a call leaves behind: on a running client its request, on any other no byte; a client that is neither running
      nor has failed yet is made Failing. */
  function Called(c: Client): Client {
    if c.state.Running? then c.(output := c.output + [Whole])
    else if c.state.Failing? || c.state.Failed? then c
    else c.(state := Failing)
  }

  /** Giving up makes the client Failing, unless it is or has failed. */
  lemma GiveUpAlone(c: Client) returns (run: seq<Action>)
    requires !c.crashed && c.holder == FailLoad
    ensures (forall i :: 0 <= i < |run| ==> run[i] == Hold(Fine))
    ensures LeadsTo(c, run, c.(holder := NoHolder, state := if c.state.Failed? then Failed else Failing))
  {
    hide LeadsTo, StartStep, HelloStep, CloseStep, CheckStep, WriteStep, WorkStep, WaitStep;
    var d := c.(holder := NoHolder, state := if c.state.Failed? then Failed else Failing);
    NoSteps(d);
    if c.state.Failing? || c.state.Failed? {
      run := [];
    } else {
      run := First(c.(holder := FailSwap(c.state)), Hold(Fine), d, []);
    }
    run := First(c, Hold(Fine), d, run);
  }

  /** A call on a client that is Failing. */
  lemma CheckFails(c: Client) returns (run: seq<Action>)
    requires !c.crashed && c.state.Failing? && c.cond.Nobody?
    ensures (forall i :: 0 <= i < |run| ==> run[i] == Hold(Fine))
    ensures LeadsTo(c.(holder := CheckLock), run, c.(holder := NoHolder))
  {
    hide LeadsTo, StartStep, HelloStep, CloseStep, FailStep, WriteStep, WorkStep, WaitStep;
    var d := c.(holder := NoHolder);
    run := GiveUpAlone(c.(holder := FailLoad));
    run := First(c.(holder := CheckRaise, cond := ByHolder), Hold(Fine), d, run);
    run := First(c.(holder := CheckFailing, cond := ByHolder), Hold(Fine), d, run);
    run := First(c.(holder := CheckLock), Hold(Fine), d, run);
  }

  lemma CallAlone(c: Client) returns (run: seq<Action>)
    requires !c.crashed && c.holder.NoHolder? && c.cond.Nobody?
    ensures OneCall(run, CheckLoad) && LeadsTo(c, run, Called(c))
  {
    hide LeadsTo, StartStep, HelloStep, CloseStep, WorkStep, WaitStep;
    NoSteps(Called(c));
    if c.state.Running? {
      run := First(c.(holder := CallWrite), Hold(Fine), Called(c), []);
    } else if c.state.Failing? {
      run := CheckFails(c);
    } else {
      run := GiveUpAlone(c.(holder := FailLoad));
    }
    run := First(c.(holder := CheckLoad), Hold(Fine), Called(c), run);
    run := First(c, Enter(CheckLoad), Called(c), run);
  }

  /** A write that fails: a call is left with a truncated request, or a whole one that could not be flushed, and gives
      up; a goodbye is left out, and `close` goes on to join. */
  lemma FailedWrite(c: Client, o: Outcome)
    requires !c.crashed && !o.Fine?
    ensures c.holder == CallWrite ==>
      Enabled(c, Hold(o))
      && Next(c, Hold(o)) == c.(output := c.output + [if o.Trouble? then Whole else Truncated], holder := FailLoad)
    ensures c.holder == CloseWrite ==> Enabled(c, Hold(o)) && Next(c, Hold(o)) == c.(holder := CloseJoin)
  {
  }

  // ---- close ----

  /** `close` up to where it joins the worker: the client is Closed, and a running one has sent its goodbye; a client
      that is Closed already is left alone. */
  function Shut(c: Client): Client {
    if c.state.Closed? then c
    else c.(state := Closed, output := c.output + (if c.state.Running? then [Goodbye] else []), holder := CloseJoin)
  }

  lemma SwapsFailed(c: Client) returns (run: seq<Action>)
    requires !c.crashed
    ensures run == [Hold(Fine)]
    ensures LeadsTo(c.(state := Failed, holder := CloseSwap(Failed)), run, c.(state := Closed, holder := CloseJoin))
  {
    hide LeadsTo, StartStep, HelloStep, CheckStep, FailStep, WriteStep, WorkStep, WaitStep;
    NoSteps(c.(state := Closed, holder := CloseJoin));
    run := First(c.(state := Failed, holder := CloseSwap(Failed)), Hold(Fine), c.(state := Closed, holder := CloseJoin), []);
  }

  /** `close` of a client that is Failing. */
  lemma CloseTakesTheError(c: Client) returns (run: seq<Action>)
    requires !c.crashed && c.state.Failing? && c.cond.Nobody?
    ensures (forall i :: 0 <= i < |run| ==> run[i] == Hold(Fine))
    ensures LeadsTo(c.(holder := CloseFailingLock), run, c.(state := Closed, holder := CloseJoin))
  {
    hide LeadsTo, StartStep, HelloStep, CheckStep, FailStep, WriteStep, WorkStep, WaitStep;
    var d := c.(state := Closed, holder := CloseJoin);
    run := SwapsFailed(c);
    run := First(c.(state := Failed, holder := CloseSwap(Failing)), Hold(Fine), d, run);
    run := First(c.(holder := CloseFailingStore, cond := ByHolder), Hold(Fine), d, run);
    run := First(c.(holder := CloseFailingLock), Hold(Fine), d, run);
  }

  lemma CloseAlone(c: Client) returns (run: seq<Action>)
    requires !c.crashed && c.holder.NoHolder? && c.cond.Nobody?
    ensures OneCall(run, CloseLoad) && LeadsTo(c, run, Shut(c))
  {
    hide LeadsTo, StartStep, HelloStep, CheckStep, FailStep, WorkStep, WaitStep;
    NoSteps(Shut(c));
    assert c.output + [] == c.output;
    if c.state.Closed? {
      run := [];
    } else if c.state.Running? {
      run := First(c.(state := Closed, holder := CloseWrite), Hold(Fine), Shut(c), []);
      run := First(c.(holder := CloseSwap(Running)), Hold(Fine), Shut(c), run);
    } else if c.state.Failing? {
      run := CloseTakesTheError(c);
    } else {
      run := First(c.(holder := CloseSwap(c.state)), Hold(Fine), Shut(c), []);
    }
    run := First(c.(holder := CloseLoad), Hold(Fine), Shut(c), run);
    run := First(c, Enter(CloseLoad), Shut(c), run);
  }

  /** `close` returns exactly when there is no worker or it has finished. */
  lemma JoinReturnsExactly(c: Client)
    requires !c.crashed && c.holder == CloseJoin
    ensures Enabled(c, Hold(Fine)) <==> c.worker.Absent? || c.worker.Finished?
    ensures Enabled(c, Hold(Fine)) ==> Next(c, Hold(Fine)) == c.(holder := NoHolder)
  {
  }

  // ---- start ----

  /** `start`: the first one spawns the worker and goes on to wait for the hello; a later one takes the error of a client
      that is Failing, if there is one. */
  function Begun(c: Client): Client {
    if c.state.New? then c.(state := Starting, worker := HelloWrite, spawned := c.spawned + 1, holder := HelloLock)
    else if c.state.Failing? then c.(state := Failed)
    else c
  }

  lemma StartAlone(c: Client) returns (run: seq<Action>)
    requires !c.crashed && c.holder.NoHolder? && c.cond.Nobody? && !c.state.Starting? && (c.state.Failing? ==> c.err.To?)
    ensures OneCall(run, StartLoad) && LeadsTo(c, run, Begun(c))
  {
    hide LeadsTo, HelloStep, CloseStep, CheckStep, FailStep, WriteStep, WorkStep, WaitStep;
    NoSteps(Begun(c));
    if c.state.New? {
      run := First(c.(state := Starting, holder := Spawn), Hold(Fine), Begun(c), []);
      run := First(c.(holder := StartSwap), Hold(Fine), Begun(c), run);
    } else if c.state.Failing? {
      run := First(c.(holder := FailingStore, cond := ByHolder), Hold(Fine), Begun(c), []);
      run := First(c.(holder := FailingRaise, cond := ByHolder), Hold(Fine), Begun(c), run);
      run := First(c.(holder := FailingLoad, cond := ByHolder), Hold(Fine), Begun(c), run);
      run := First(c.(holder := FailingLock), Hold(Fine), Begun(c), run);
    } else {
      run := [];
    }
    run := First(c.(holder := StartLoad), Hold(Fine), Begun(c), run);
    run := First(c, Enter(StartLoad), Begun(c), run);
  }

  /** `start` once it looks after the hello: it goes on waiting while the client is Starting, returns when it is running
      or closed, and takes the error when the hello has failed. */
  function Greeted(c: Client): Client {
    if c.state.Starting? then c
    else if c.state.Failing? then c.(state := Failed, holder := NoHolder)
    else c.(holder := NoHolder)
  }

  lemma HelloAlone(c: Client) returns (run: seq<Action>)
    requires !c.crashed && c.holder.HelloLock? && c.cond.Nobody? && (c.state.Failing? ==> c.err.To?)
    ensures run != [] && (forall i :: 0 <= i < |run| ==> run[i] == Hold(Fine)) && LeadsTo(c, run, Greeted(c))
  {
    hide LeadsTo, StartStep, CloseStep, CheckStep, FailStep, WriteStep, WorkStep, WaitStep;
    NoSteps(Greeted(c));
    if c.state.Starting? {
      run := [];
    } else {
      if c.state.Failing? {
        run := First(c.(holder := HelloStore, cond := ByHolder), Hold(Fine), Greeted(c), []);
        run := First(c.(holder := HelloRaise, cond := ByHolder), Hold(Fine), Greeted(c), run);
      } else {
        run := [];
      }
      run := First(c.(holder := HelloCheck, cond := ByHolder), Hold(Fine), Greeted(c), run);
    }
    run := First(c.(holder := HelloLoad, cond := ByHolder), Hold(Fine), Greeted(c), run);
    run := First(c, Hold(Fine), Greeted(c), run);
  }

  // ---- wait ----

  /** `wait` takes the error of a client that is Failing, if there is one, and changes nothing otherwise. */
  lemma WaitAlone(c: Client) returns (run: seq<Action>)
    requires !c.crashed && c.waiter.NoWaiter? && c.cond.Nobody? && (c.state.Failing? ==> c.err.To?)
    ensures run != [] && OnlyWaits(run) && LeadsTo(c, run, if c.state.Failing? then c.(state := Failed) else c)
  {
    hide LeadsTo, HoldStep, WorkStep;
    var d := if c.state.Failing? then c.(state := Failed) else c;
    NoSteps(d);
    if c.state.Failing? {
      run := First(c.(waiter := WaitStore, cond := ByWaiter), Await, d, []);
      run := First(c.(waiter := WaitRaise, cond := ByWaiter), Await, d, run);
      run := First(c.(waiter := WaitCheck, cond := ByWaiter), Await, d, run);
    } else if c.state.Closed? || c.state.Failed? {
      run := First(c.(waiter := WaitCheck, cond := ByWaiter), Await, d, []);
    } else {
      run := [];
    }
    run := First(c.(waiter := WaitLoad, cond := ByWaiter), Await, d, run);
    run := First(c, Await, d, run);
  }

  // ---- the worker ----

  /** What the worker does with an error: unless the client is Closed or has Failed, when it drops it and finishes, it
      makes the client Failing and parks with the error until somebody takes it. */
  function Stopped(c: Client): Client {
    if c.state.Closed? || c.state.Failed? then c.(handlers := c.handlers + 1, err := Nil, worker := Finished)
    else c.(state := Failing, handlers := c.handlers + 1, err := To(c.handlers + 1), worker := Parked)
  }

  lemma ErrorAlone(c: Client) returns (run: seq<Action>)
    requires !c.crashed && (c.worker.Reading? || c.worker.HelloRead? || c.worker.HelloWrite?) && c.cond.Nobody?
    ensures OneError(run, Trouble) && LeadsTo(c, run, Stopped(c))
  {
    hide LeadsTo, HoldStep, WaitStep;
    NoSteps(Stopped(c));
    var held := c.(handlers := c.handlers + 1, err := To(c.handlers + 1), cond := ByWorker);
    if c.state.Closed? || c.state.Failed? {
      run := First(c.(handlers := c.handlers + 1, err := Nil, worker := ErrorDone), Work(Fine), Stopped(c), []);
    } else if c.state.Failing? {
      run := [];
    } else {
      run := First(held.(worker := ErrorSwap(c.state)), Work(Fine), Stopped(c), []);
    }
    run := First(held.(worker := ErrorLoad), Work(Fine), Stopped(c), run);
    run := First(c.(worker := ErrorLock), Work(Fine), Stopped(c), run);
    run := First(c, Work(Trouble), Stopped(c), run);
  }

  /** A parked worker that is woken goes on until the error has been taken or the client is closed, and then finishes. */
  lemma WokenAlone(c: Client) returns (run: seq<Action>)
    requires !c.crashed && c.worker.Parked? && c.cond.Nobody? && (c.state.Failing? || c.state.Failed? || c.state.Closed?)
    ensures OneError(run, Fine) && LeadsTo(c, run, if c.state.Failing? then c else c.(err := Nil, worker := Finished))
  {
    hide LeadsTo, HoldStep, WaitStep;
    var d := if c.state.Failing? then c else c.(err := Nil, worker := Finished);
    NoSteps(d);
    if c.state.Failing? {
      run := [];
    } else {
      run := First(c.(err := Nil, worker := ErrorDone), Work(Fine), d, []);
    }
    run := First(c.(worker := ErrorLoad, cond := ByWorker), Work(Fine), d, run);
    run := First(c, Work(Fine), d, run);
  }

  /** The server's goodbye is the end of the worker exactly when the client is Closed; otherwise it is an error. */
  lemma GoodbyeAlone(c: Client)
    requires !c.crashed && c.worker.Reading?
    ensures Enabled(c, Work(Midway))
    ensures Next(c, Work(Midway)) == if c.state.Closed? then c.(worker := Finished) else c.(worker := ErrorLock)
  {
  }

  // ---- a whole life ----

  lemma {:induction false} Join(c: Client, a: seq<Action>, d: Client, b: seq<Action>, e: Client)
    requires LeadsTo(c, a, d) && LeadsTo(d, b, e)
    ensures LeadsTo(c, a + b, e)
    decreases |a|
  {
    hide Enabled, Next;
    if a == [] {
      assert a + b == b;
    } else {
      assert (a + b)[1..] == a[1..] + b;
      Join(Next(c, a[0]), a[1..], d, b, e);
    }
  }

  /** The connection comes up, a call is made, and it is closed: a hello, one whole request and a goodbye are written, the
      worker has finished and nothing is left behind. */
  lemma WholeLife() returns (run: seq<Action>)
    ensures LeadsTo(
      FRESH, run, Client(Closed, NoHolder, Finished, NoWaiter, Nobody, Nil, 0, 1, [Hello, Whole, Goodbye], false))
  {
    hide Runs, After;
    Stop(UP);
    var up := ComesUp([]);
    var call := CallAlone(UP);
    var close := CloseAlone(Called(UP));
    var shut := Shut(Called(UP));
    assert shut.output == [Hello, Whole, Goodbye];
    NoSteps(shut.(worker := Finished, holder := NoHolder));
    var end := First(shut.(worker := Finished), Hold(Fine), shut.(worker := Finished, holder := NoHolder), []);
    end := First(shut, Work(Midway), shut.(worker := Finished, holder := NoHolder), end);
    Join(Called(UP), close, shut, end, shut.(worker := Finished, holder := NoHolder));
    Join(UP, call, Called(UP), close + end, shut.(worker := Finished, holder := NoHolder));
    Join(FRESH, up, UP, call + (close + end), shut.(worker := Finished, holder := NoHolder));
    run := up + (call + (close + end));
  }
}
