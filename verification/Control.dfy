/** The client's life cycle with every error path: callers of `start`, `close` and `call` under the call lock, threads
    in `wait`, and the input worker with its parking error handler, interleaved at every access to shared state.
    Waking from the condition variable is always possible, so every order of signals and spurious wake-ups is among
    the runs. */
module Control {
  datatype State = New | Starting | Running | Closed | Failing | Failed

  /** Where the thread holding the call lock is. Names with `Lock` are about to take the condition mutex. */
  datatype Holder =
    | NoHolder
    // start_unlocked
    | StartLoad | StartSwap | Spawn
    | StartingLock | StartingLoad
    | FailingLock | FailingLoad | FailingRaise | FailingStore
    | HelloLock | HelloLoad | HelloCheck | HelloRaise | HelloStore
    // close
    | CloseLoad | CloseFailingLock | CloseFailingStore | CloseSwap(seen: State) | CloseWrite | CloseJoin
    // start_request and the rest of a call
    | CheckLoad | CheckLock | CheckFailing | CheckRaise | CallWrite
    // fail
    | FailLoad | FailSwap(seen: State)

  /** Where the input worker is. */
  datatype Worker =
    | Absent | HelloWrite | HelloRead
    | RunLock | RunLoad | RunSwap
    | Reading
    | ErrorLock | ErrorLoad | ErrorSwap(seen: State) | Parked | ErrorDone
    | Finished

  /** Where the thread is that is in `wait` and owns the condition mutex. */
  datatype Waiter = NoWaiter | WaitLoad | WaitCheck | WaitRaise | WaitStore

  datatype Owner = Nobody | ByHolder | ByWorker | ByWaiter

  /** What has been written to the connection. */
  datatype Token = Hello | Whole | Truncated | Goodbye

  /** `err` names the handler call whose error it points at; `handlers` counts handler calls. */
  datatype Client = Client(
    state: State, holder: Holder, worker: Worker, waiter: Waiter, cond: Owner,
    err: Pointer, handlers: nat, spawned: nat, output: seq<Token>, crashed: bool)

  datatype Pointer = Nil | To(handler: nat)

  const FRESH := Client(New, NoHolder, Absent, NoWaiter, Nobody, Nil, 0, 0, [], false)

  predicate InHandler(w: Worker) {
    w.ErrorLoad? || w.ErrorSwap? || w.Parked?
  }

  /** The error object lives on the worker's stack while its handler runs. */
  predicate Alive(c: Client) {
    c.err == To(c.handlers) && InHandler(c.worker)
  }

  // ---- the thread holding the call lock ----

  datatype Outcome = Fine | Trouble | Midway

  predicate CanEnter(c: Client, h: Holder) {
    c.holder.NoHolder? && (h.StartLoad? || h.CloseLoad? || h.CheckLoad?)
  }

  predicate CanHold(c: Client) {
    match c.holder
    case NoHolder => false
    case StartingLock => c.cond.Nobody?
    case FailingLock => c.cond.Nobody?
    case HelloLock => c.cond.Nobody?
    case CloseFailingLock => c.cond.Nobody?
    case CheckLock => c.cond.Nobody?
    case CloseJoin => c.worker.Absent? || c.worker.Finished?
    case _ => true
  }

  function Dereference(c: Client): Client {
    if c.err.Nil? then c.(crashed := true) else c
  }

  /** `start_unlocked`, up to starting the worker. */
  function StartStep(c: Client): Client {
    match c.holder
    case StartLoad =>
      c.(holder := match c.state
                   case New => StartSwap
                   case Starting => StartingLock
                   case Failing => FailingLock
                   case _ => NoHolder)
    case StartSwap => if c.state.New? then c.(state := Starting, holder := Spawn) else c.(holder := StartLoad)
    case Spawn => c.(worker := HelloWrite, spawned := c.spawned + 1, holder := HelloLock)
    case StartingLock => c.(cond := ByHolder, holder := StartingLoad)
    case StartingLoad => c.(cond := Nobody, holder := if c.state.Starting? then StartingLock else StartLoad)
    case FailingLock => c.(cond := ByHolder, holder := FailingLoad)
    case FailingLoad => if c.state.Failing? then c.(holder := FailingRaise) else c.(cond := Nobody, holder := StartLoad)
    case FailingRaise => Dereference(c).(holder := FailingStore)
    case FailingStore => c.(state := Failed, cond := Nobody, holder := NoHolder)
    case _ => c
  }

  /** The rest of `start_unlocked`: waiting for the worker to leave Starting. */
  function HelloStep(c: Client): Client {
    match c.holder
    case HelloLock => c.(cond := ByHolder, holder := HelloLoad)
    case HelloLoad => if c.state.Starting? then c.(cond := Nobody, holder := HelloLock) else c.(holder := HelloCheck)
    case HelloCheck => if c.state.Failing? then c.(holder := HelloRaise) else c.(cond := Nobody, holder := NoHolder)
    case HelloRaise => Dereference(c).(holder := HelloStore)
    case HelloStore => c.(state := Failed, cond := Nobody, holder := NoHolder)
    case _ => c
  }

  function CloseSwapStep(c: Client, seen: State): Client {
    if c.state == seen then c.(state := Closed, holder := if seen.Running? then CloseWrite else CloseJoin)
    else c.(holder := CloseOn(c.state))
  }

  function CloseStep(c: Client): Client {
    match c.holder
    case CloseLoad => c.(holder := CloseOn(c.state))
    case CloseFailingLock => c.(cond := ByHolder, holder := CloseFailingStore)
    case CloseFailingStore => c.(state := Failed, cond := Nobody, holder := CloseSwap(Failing))
    case CloseSwap(seen) => CloseSwapStep(c, seen)
    case CloseJoin => c.(holder := NoHolder)
    case _ => c
  }

  /** `check_running`. */
  function CheckStep(c: Client): Client {
    match c.holder
    case CheckLoad =>
      c.(holder := match c.state
                   case Running => CallWrite
                   case Failing => CheckLock
                   case _ => FailLoad)
    case CheckLock => c.(cond := ByHolder, holder := CheckFailing)
    case CheckFailing => if c.state.Failing? then c.(holder := CheckRaise) else c.(cond := Nobody, holder := CheckLoad)
    case CheckRaise => c.(cond := Nobody, holder := FailLoad)
    case _ => c
  }

  function FailStep(c: Client): Client {
    match c.holder
    case FailLoad => c.(holder := if c.state.Failing? || c.state.Failed? then NoHolder else FailSwap(c.state))
    case FailSwap(seen) => if c.state == seen then c.(state := Failing, holder := NoHolder) else c.(holder := FailLoad)
    case _ => c
  }

  /** Writing a request, whole or up to an error, or the goodbye byte. */
  function WriteStep(c: Client, o: Outcome): Client {
    if c.holder.CloseWrite? then c.(output := if o.Fine? then c.output + [Goodbye] else c.output, holder := CloseJoin)
    else
      match o
      case Fine => c.(output := c.output + [Whole], holder := NoHolder)
      case Trouble => c.(output := c.output + [Whole], holder := FailLoad)
      case Midway => c.(output := c.output + [Truncated], holder := FailLoad)
  }

  function HoldStep(c: Client, o: Outcome): Client
    requires CanHold(c)
  {
    if AtStart(c.holder) then StartStep(c)
    else if Handshaking(c.holder) then HelloStep(c)
    else if AtClose(c.holder) then CloseStep(c)
    else if AtCheck(c.holder) then CheckStep(c)
    else if GivingUp(c.holder) then FailStep(c)
    else WriteStep(c, o)
  }

  predicate AtStart(h: Holder) {
    h.StartLoad? || h.StartSwap? || h.Spawn? || h.StartingLock? || h.StartingLoad? || h.FailingLock?
    || h.FailingLoad? || h.FailingRaise? || h.FailingStore?
  }

  /** `start` between starting the worker and its return. */
  predicate Handshaking(h: Holder) {
    h.HelloLock? || h.HelloLoad? || h.HelloCheck? || h.HelloRaise? || h.HelloStore?
  }

  predicate AtCheck(h: Holder) {
    h.CheckLoad? || h.CheckLock? || h.CheckFailing? || h.CheckRaise?
  }

  predicate GivingUp(h: Holder) {
    h.FailLoad? || h.FailSwap?
  }

  predicate AtClose(h: Holder) {
    h.CloseLoad? || h.CloseFailingLock? || h.CloseFailingStore? || h.CloseSwap? || h.CloseJoin?
  }

  /** The switch at the top of `close`. */
  function CloseOn(seen: State): Holder {
    match seen
    case Closed => NoHolder
    case Failing => CloseFailingLock
    case _ => CloseSwap(seen)
  }

  // ---- the input worker ----

  predicate CanWork(c: Client) {
    match c.worker
    case Absent => false
    case Finished => false
    case RunLock => c.cond.Nobody?
    case ErrorLock => c.cond.Nobody?
    case Parked => c.cond.Nobody?
    case _ => true
  }

  /** `client_hello`. */
  function GreetStep(c: Client, o: Outcome): Client {
    match c.worker
    case HelloWrite =>
      if o.Fine? then c.(output := c.output + [Hello], worker := HelloRead) else c.(worker := ErrorLock)
    case HelloRead => c.(worker := if o.Fine? then RunLock else ErrorLock)
    case RunLock => c.(cond := ByWorker, worker := RunLoad)
    case RunLoad => if c.state.Starting? then c.(worker := RunSwap) else c.(cond := Nobody, worker := Reading)
    case RunSwap => c.(state := if c.state.Starting? then Running else c.state, cond := Nobody, worker := Reading)
    case _ => c
  }

  /** The input loop. */
  function ReadStep(c: Client, o: Outcome): Client {
    match c.worker
    case Reading =>
      (match o
       case Fine => c
       case Trouble => c.(worker := ErrorLock)
       case Midway => c.(worker := if c.state.Closed? then Finished else ErrorLock))   // a goodbye
    case ErrorDone => c.(worker := if o.Fine? then Finished else ErrorLock)
    case _ => c
  }

  /** The error handler. */
  function ErrorStep(c: Client): Client {
    match c.worker
    case ErrorLock => c.(cond := ByWorker, err := To(c.handlers + 1), handlers := c.handlers + 1, worker := ErrorLoad)
    case ErrorLoad =>
      (match c.state
       case Closed => c.(err := Nil, cond := Nobody, worker := ErrorDone)
       case Failed => c.(err := Nil, cond := Nobody, worker := ErrorDone)
       case Failing => c.(cond := Nobody, worker := Parked)
       case _ => c.(worker := ErrorSwap(c.state)))
    case ErrorSwap(seen) =>
      if c.state == seen then c.(state := Failing, cond := Nobody, worker := Parked) else c.(worker := ErrorLoad)
    case Parked => c.(cond := ByWorker, worker := ErrorLoad)
    case _ => c
  }

  function WorkStep(c: Client, o: Outcome): Client
    requires CanWork(c)
  {
    if Greeting(c.worker) then GreetStep(c, o)
    else if c.worker.Reading? || c.worker.ErrorDone? then ReadStep(c, o)
    else ErrorStep(c)
  }

  predicate Greeting(w: Worker) {
    w.HelloWrite? || w.HelloRead? || w.RunLock? || w.RunLoad? || w.RunSwap?
  }

  // ---- threads in wait ----

  predicate CanAwait(c: Client) {
    c.waiter.NoWaiter? ==> c.cond.Nobody?
  }

  function WaitStep(c: Client): Client
    requires CanAwait(c)
  {
    match c.waiter
    case NoWaiter => c.(cond := ByWaiter, waiter := WaitLoad)
    case WaitLoad =>
      if c.state.Closed? || c.state.Failing? || c.state.Failed? then c.(waiter := WaitCheck)
      else c.(cond := Nobody, waiter := NoWaiter)
    case WaitCheck => if c.state.Failing? then c.(waiter := WaitRaise) else c.(cond := Nobody, waiter := NoWaiter)
    case WaitRaise => Dereference(c).(waiter := WaitStore)
    case WaitStore => c.(state := Failed, cond := Nobody, waiter := NoWaiter)
  }

  // ---- runs ----

  datatype Action = Enter(h: Holder) | Hold(o: Outcome) | Work(o: Outcome) | Await

  predicate Enabled(c: Client, a: Action) {
    !c.crashed &&
    match a
    case Enter(h) => CanEnter(c, h)
    case Hold(_) => CanHold(c)
    case Work(_) => CanWork(c)
    case Await => CanAwait(c)
  }

  function Next(c: Client, a: Action): Client
    requires Enabled(c, a)
  {
    match a
    case Enter(h) => c.(holder := h)
    case Hold(o) => HoldStep(c, o)
    case Work(o) => WorkStep(c, o)
    case Await => WaitStep(c)
  }

  predicate Runs(c: Client, run: seq<Action>)
    decreases |run|
  {
    run == [] || (Enabled(c, run[0]) && Runs(Next(c, run[0]), run[1..]))
  }

  function After(c: Client, run: seq<Action>): Client
    requires Runs(c, run)
    decreases |run|
  {
    if run == [] then c else After(Next(c, run[0]), run[1..])
  }

  // ---- invariant ----

  predicate HolderOwns(h: Holder) {
    h.StartingLoad? || h.FailingLoad? || h.FailingRaise? || h.FailingStore? || h.HelloLoad? || h.HelloCheck?
    || h.HelloRaise? || h.HelloStore? || h.CloseFailingStore? || h.CheckFailing? || h.CheckRaise?
  }

  predicate WorkerOwns(w: Worker) {
    w.RunLoad? || w.RunSwap? || w.ErrorLoad? || w.ErrorSwap?
  }

  /** The condition mutex has one owner. */
  predicate OwnerInv(c: Client) {
    && (c.cond.ByHolder? <==> HolderOwns(c.holder))
    && (c.cond.ByWorker? <==> WorkerOwns(c.worker))
    && (c.cond.ByWaiter? <==> !c.waiter.NoWaiter?)
  }

  /** Once set, Failing only gives way to Failed, and only under the condition mutex. */
  predicate FailingInv(c: Client) {
    && (c.waiter.WaitRaise? || c.waiter.WaitStore? ==> c.state.Failing?)
    && (Raising(c.holder) ==> c.state.Failing?)
    && (c.holder.CloseFailingLock? || c.holder.CloseFailingStore? ==> c.state.Failing? || c.state.Failed?)
    && (c.holder.CloseSwap? && c.holder.seen.Failing? ==> c.state.Failed?)
    && (c.holder.FailSwap? ==> !c.holder.seen.Failing? && !c.holder.seen.Failed?)
    && (c.worker.ErrorSwap? ==> !c.worker.seen.Failing? && !c.worker.seen.Failed? && !c.worker.seen.Closed?)
  }

  predicate Raising(h: Holder) {
    h.FailingRaise? || h.FailingStore? || h.HelloRaise? || h.HelloStore? || h.CheckRaise?
  }

  /** The error pointer is set exactly while the worker's handler runs, and points at that handler's error. */
  predicate ErrorInv(c: Client) {
    && (if InHandler(c.worker) then c.err.To? && c.err.handler == c.handlers else c.err.Nil?)
    && (Handshaking(c.holder) && c.state.Failing? ==> InHandler(c.worker))
  }

  /** One worker, started by the one `start` that moved New to Starting. */
  predicate PhaseInv(c: Client) {
    && (c.state.New? ==> c.worker.Absent? && c.output == [])
    && !c.holder.StartingLock? && !c.holder.StartingLoad?
    && (c.state.Starting? ==> c.holder.Spawn? || c.holder.HelloLock? || c.holder.HelloLoad?)
    && (c.holder.Spawn? ==> c.state.Starting? && c.worker.Absent? && c.output == [])
    && (Greeting(c.worker) ==> c.state.Starting? && Handshaking(c.holder))
    && (c.state.Running? ==> !c.worker.Absent?)
    && c.spawned == (if c.worker.Absent? then 0 else 1)
  }

  /** A hello and whole requests: more may be written. */
  predicate Going(output: seq<Token>) {
    output != [] && output[0] == Hello && forall i :: 1 <= i < |output| ==> output[i] == Whole
  }

  /** Nothing, or one hello, then whole requests, then at most one goodbye or truncated request, and nothing after. */
  predicate Shaped(output: seq<Token>) {
    || output == []
    || Going(output)
    || (|output| >= 2 && Going(output[..|output| - 1])
        && (output[|output| - 1] == Goodbye || output[|output| - 1] == Truncated))
  }

  predicate OutputInv(c: Client) {
    && Shaped(c.output)
    && (c.worker.HelloWrite? ==> c.output == [])
    && (c.worker.HelloRead? || c.worker.RunLock? || c.worker.RunLoad? || c.worker.RunSwap? ==> c.output == [Hello])
    && (c.state.Running? && !GivingUp(c.holder) ==> Going(c.output))
    && (c.holder.CallWrite? || c.holder.CloseWrite? ==> Going(c.output))
    && (c.holder.CloseWrite? ==> c.state.Closed?)
  }

  predicate Inv(c: Client) {
    OwnerInv(c) && FailingInv(c) && ErrorInv(c) && PhaseInv(c) && OutputInv(c)
  }

  // ---- every step keeps it ----

  lemma StartInv(c: Client)
    requires Inv(c) && CanHold(c) && AtStart(c.holder)
    ensures Inv(StartStep(c))
  {
    hide Going, Shaped;
  }

  lemma HelloInv(c: Client)
    requires Inv(c) && CanHold(c) && Handshaking(c.holder)
    ensures Inv(HelloStep(c))
  {
    hide Going, Shaped;
  }

  lemma CloseSwapInv(c: Client)
    requires Inv(c) && c.holder.CloseSwap?
    ensures Inv(CloseSwapStep(c, c.holder.seen))
  {
    hide Going, Shaped;
  }

  lemma CloseInv(c: Client)
    requires Inv(c) && CanHold(c) && AtClose(c.holder)
    ensures Inv(CloseStep(c))
  {
    hide Going, Shaped, CloseSwapStep;
    if c.holder.CloseSwap? {
      CloseSwapInv(c);
    }
  }

  lemma CheckInv(c: Client)
    requires Inv(c) && CanHold(c) && AtCheck(c.holder)
    ensures Inv(CheckStep(c))
  {
    hide Going, Shaped;
  }

  lemma FailInv(c: Client)
    requires Inv(c) && GivingUp(c.holder)
    ensures Inv(FailStep(c))
  {
    hide Going, Shaped;
  }

  lemma WriteInv(c: Client, o: Outcome)
    requires Inv(c) && (c.holder.CallWrite? || c.holder.CloseWrite?)
    ensures Inv(WriteStep(c, o))
  {
    hide Going, Shaped;
    WritesStayShaped(c.output);
  }

  lemma GreetInv(c: Client, o: Outcome)
    requires Inv(c) && CanWork(c) && Greeting(c.worker)
    ensures Inv(GreetStep(c, o))
  {
    hide Going, Shaped;
    assert Going([Hello]) && Shaped([Hello]) by {
      HelloIsShaped();
    }
    assert [] + [Hello] == [Hello];
  }

  lemma HelloIsShaped()
    ensures Going([Hello]) && Shaped([Hello])
  {
  }

  lemma ReadInv(c: Client, o: Outcome)
    requires Inv(c) && (c.worker.Reading? || c.worker.ErrorDone?)
    ensures Inv(ReadStep(c, o))
  {
    hide Going, Shaped;
  }

  lemma ErrorInvKept(c: Client)
    requires Inv(c) && CanWork(c) && (c.worker.ErrorLock? || InHandler(c.worker))
    ensures Inv(ErrorStep(c))
  {
    hide Going, Shaped;
  }

  lemma AwaitInv(c: Client)
    requires Inv(c) && CanAwait(c)
    ensures Inv(WaitStep(c))
  {
    hide Going, Shaped;
  }

  lemma HoldInv(c: Client, o: Outcome)
    requires Inv(c) && CanHold(c)
    ensures Inv(HoldStep(c, o))
  {
    hide Inv, StartStep, HelloStep, CloseStep, CheckStep, FailStep, WriteStep;
    if AtStart(c.holder) {
      StartInv(c);
    } else if Handshaking(c.holder) {
      HelloInv(c);
    } else if AtClose(c.holder) {
      CloseInv(c);
    } else if AtCheck(c.holder) {
      CheckInv(c);
    } else if GivingUp(c.holder) {
      FailInv(c);
    } else {
      WriteInv(c, o);
    }
  }

  lemma WorkInv(c: Client, o: Outcome)
    requires Inv(c) && CanWork(c)
    ensures Inv(WorkStep(c, o))
  {
    hide Inv, GreetStep, ReadStep, ErrorStep;
    if Greeting(c.worker) {
      GreetInv(c, o);
    } else if c.worker.Reading? || c.worker.ErrorDone? {
      ReadInv(c, o);
    } else {
      ErrorInvKept(c);
    }
  }

  lemma EnterInv(c: Client, h: Holder)
    requires Inv(c) && CanEnter(c, h)
    ensures Inv(c.(holder := h))
  {
    hide Going, Shaped;
  }

  lemma StepInv(c: Client, a: Action)
    requires Inv(c) && Enabled(c, a)
    ensures Inv(Next(c, a))
  {
    hide Inv, CanEnter, CanHold, CanWork, CanAwait, HoldStep, WorkStep, WaitStep;
    match a
    case Enter(h) => EnterInv(c, h);
    case Hold(o) => HoldInv(c, o);
    case Work(o) => WorkInv(c, o);
    case Await => AwaitInv(c);
  }

  lemma {:induction false} RunInv(c: Client, run: seq<Action>)
    requires Inv(c) && Runs(c, run)
    ensures Inv(After(c, run))
    decreases |run|
  {
    hide Inv, Enabled, Next;
    if run != [] {
      StepInv(c, run[0]);
      RunInv(Next(c, run[0]), run[1..]);
    }
  }

  lemma FreshInv()
    ensures Inv(FRESH)
  {
  }

  lemma WritesStayShaped(output: seq<Token>)
    requires Going(output)
    ensures output != [] && Going(output + [Whole])
    ensures forall t :: t == Whole || t == Goodbye || t == Truncated ==> Shaped(output + [t])
  {
    forall t | t == Goodbye || t == Truncated ensures Shaped(output + [t]) {
      assert (output + [t])[..|output|] == output;
    }
  }
}
