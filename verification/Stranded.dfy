/** The life cycle together with the list of pending calls: which callers sleep on when the connection fails. The worker
    empties the list before it moves the state to Failing, and a caller that has passed its check may push after that. */
module Stranded {
  import opened Control
  import Lifecycle
  import S = Schemas

  /** `pending` are the call records in the list, oldest first, and `late` those pushed since it was last emptied for an
      error; `inHand` is the record of the reply being read; `pushed` says that the thread writing a request has pushed
      its record. */
  datatype Joint = Joint(
    c: Client, pending: seq<nat>, late: seq<nat>, inHand: S.Option<nat>, next: nat, pushed: bool)

  const NEW := Joint(FRESH, [], [], S.None, 0, false)

  datatype Deed = Do(a: Action) | Push | TakeReply | FinishReply

  predicate Can(j: Joint, d: Deed) {
    match d
    case Do(a) =>
      && Enabled(j.c, a)
      && (a.Hold? && j.c.holder.CallWrite? ==> j.pushed || a.o.Midway?)
      && (a.Work? && j.c.worker.Reading? && a.o.Midway? ==> j.inHand.None?)
    case Push => !j.c.crashed && j.c.holder.CallWrite? && !j.pushed
    case TakeReply => !j.c.crashed && j.c.worker.Reading? && j.inHand.None? && j.pending != []
    case FinishReply => !j.c.crashed && j.c.worker.Reading? && j.inHand.Some?
  }

  /** `fail_pending_calls`: first thing in the worker's error handler, and in `fail`. */
  predicate Sweeps(c: Client, a: Action)
    requires Enabled(c, a)
  {
    (a.Work? && c.worker.ErrorLock?) || (a.Hold? && !GivingUp(c.holder) && Next(c, a).holder.FailLoad?)
  }

  function Following(j: Joint, d: Deed): Joint
    requires Can(j, d)
  {
    match d
    case Do(a) =>
      var swept := Sweeps(j.c, a);
      Joint(Next(j.c, a), if swept then [] else j.pending, if swept then [] else j.late,
            if a.Work? && Next(j.c, a).worker.Finished? then S.None else j.inHand,
            j.next, j.pushed && !(a.Hold? && j.c.holder.CallWrite?))
    case Push => j.(pending := j.pending + [j.next], late := j.late + [j.next], next := j.next + 1, pushed := true)
    case TakeReply => j.(pending := j.pending[1..], inHand := S.Some(j.pending[0]))
    case FinishReply => j.(inHand := S.None)
  }

  predicate Goes(j: Joint, run: seq<Deed>)
    decreases |run|
  {
    run == [] || (Can(j, run[0]) && Goes(Following(j, run[0]), run[1..]))
  }

  function Leads(j: Joint, run: seq<Deed>): Joint
    requires Goes(j, run)
    decreases |run|
  {
    if run == [] then j else Leads(Following(j, run[0]), run[1..])
  }

  // ---- invariant ----

  /** The worker has emptied the list for its error and reads no more. */
  predicate Beyond(w: Worker) {
    w.ErrorLoad? || w.ErrorSwap? || w.Parked? || w.ErrorDone? || w.Finished?
  }

  predicate JointInv(j: Joint) {
    && (Greeting(j.c.worker) || j.c.worker.Absent? ==> j.pending == [] && !j.c.holder.CallWrite?)
    && (j.pushed ==> j.c.holder.CallWrite?)
    && (GivingUp(j.c.holder) ==> j.pending == [])
    && (Beyond(j.c.worker) && !j.c.worker.Finished? ==> j.pending == j.late)
  }

  predicate AllInv(j: Joint) {
    Inv(j.c) && JointInv(j)
  }

  lemma EnterKeeps(j: Joint, d: Deed)
    requires AllInv(j) && Can(j, d) && d.Do? && d.a.Enter?
    ensures JointInv(Following(j, d))
  {
    hide OwnerInv, FailingInv, ErrorInv, OutputInv;
  }

  lemma StartKeeps(j: Joint, d: Deed)
    requires AllInv(j) && Can(j, d) && d.Do? && d.a.Hold? && (AtStart(j.c.holder) || Handshaking(j.c.holder))
    ensures JointInv(Following(j, d))
  {
    hide OwnerInv, FailingInv, ErrorInv, OutputInv, CloseStep, CheckStep, FailStep, WriteStep;
  }

  lemma CloseKeeps(j: Joint, d: Deed)
    requires AllInv(j) && Can(j, d) && d.Do? && d.a.Hold? && AtClose(j.c.holder)
    ensures JointInv(Following(j, d))
  {
    hide OwnerInv, FailingInv, ErrorInv, OutputInv, StartStep, HelloStep, CheckStep, FailStep, WriteStep;
  }

  lemma CallKeeps(j: Joint, d: Deed)
    requires AllInv(j) && Can(j, d) && d.Do? && d.a.Hold?
    requires !AtStart(j.c.holder) && !Handshaking(j.c.holder) && !AtClose(j.c.holder)
    ensures JointInv(Following(j, d))
  {
    hide OwnerInv, FailingInv, ErrorInv, OutputInv, StartStep, HelloStep, CloseStep;
  }

  lemma WorkKeeps(j: Joint, d: Deed)
    requires AllInv(j) && Can(j, d) && d.Do? && d.a.Work?
    ensures JointInv(Following(j, d))
  {
    hide OwnerInv, FailingInv, ErrorInv, OutputInv;
  }

  lemma AwaitKeeps(j: Joint, d: Deed)
    requires AllInv(j) && Can(j, d) && d.Do? && d.a.Await?
    ensures JointInv(Following(j, d))
  {
    hide OwnerInv, FailingInv, ErrorInv, OutputInv, PhaseInv;
  }

  lemma ListKeeps(j: Joint, d: Deed)
    requires AllInv(j) && Can(j, d) && !d.Do?
    ensures JointInv(Following(j, d))
  {
    hide Inv;
  }

  lemma DeedInv(j: Joint, d: Deed)
    requires AllInv(j) && Can(j, d)
    ensures AllInv(Following(j, d))
  {
    hide Inv, Enabled, Next, JointInv, Sweeps, AtStart, Handshaking, AtClose;
    match d
    case Do(a) =>
      StepInv(j.c, a);
      match a {
        case Enter(_) => EnterKeeps(j, d);
        case Hold(_) =>
          if AtStart(j.c.holder) || Handshaking(j.c.holder) {
            StartKeeps(j, d);
          } else if AtClose(j.c.holder) {
            CloseKeeps(j, d);
          } else {
            CallKeeps(j, d);
          }
        case Work(_) => WorkKeeps(j, d);
        case Await => AwaitKeeps(j, d);
      }
    case _ => ListKeeps(j, d);
  }

  lemma {:induction false} DeedsInv(j: Joint, run: seq<Deed>)
    requires AllInv(j) && Goes(j, run)
    ensures AllInv(Leads(j, run))
    decreases |run|
  {
    hide AllInv, Can, Following;
    if run != [] {
      DeedInv(j, run[0]);
      DeedsInv(Following(j, run[0]), run[1..]);
    }
  }

  lemma NewInv()
    ensures AllInv(NEW)
  {
    FreshInv();
  }

  // ---- who is left ----

  /** In every run: once the worker has emptied the list for its error, the callers in it are exactly those that pushed
      their records since, and a `fail` leaves nobody in it. */
  lemma OnlyLatecomersAreLeft(run: seq<Deed>)
    requires Goes(NEW, run)
    ensures var j := Leads(NEW, run);
      && (InHandler(j.c.worker) || j.c.worker.ErrorDone? ==> j.pending == j.late)
      && (GivingUp(j.c.holder) ==> j.pending == [])
  {
    hide Goes, Leads, Inv;
    NewInv();
    DeedsInv(NEW, run);
  }

  /** With nothing in between, a caller pushes its record and its request is written, and a reading worker takes the
      oldest record out of the list for a reply and is done with it once the reply has been read. */
  lemma CallsAndReplies(j: Joint)
    requires !j.c.crashed
    ensures j.c.holder.CallWrite? && !j.pushed ==>
      && Goes(j, [Push, Do(Hold(Fine))])
      && Leads(j, [Push, Do(Hold(Fine))]) ==
         j.(c := j.c.(output := j.c.output + [Whole], holder := NoHolder), pending := j.pending + [j.next],
            late := j.late + [j.next], next := j.next + 1)
    ensures j.c.worker.Reading? && j.inHand.None? && j.pending != [] ==>
      && Goes(j, [TakeReply, FinishReply]) && Leads(j, [TakeReply]).inHand == S.Some(j.pending[0])
      && Leads(j, [TakeReply, FinishReply]) == j.(pending := j.pending[1..])
  {
    hide StartStep, HelloStep, CloseStep, CheckStep, FailStep, WorkStep, WaitStep;
    assert [Push, Do(Hold(Fine))][1..] == [Do(Hold(Fine))] && [Do(Hold(Fine))][1..] == [];
    assert [TakeReply, FinishReply][1..] == [FinishReply] && [FinishReply][1..] == [] && [TakeReply][1..] == [];
  }

  // ---- who can still be released ----

  /** Nobody takes the call lock, and the worker reports no second error. */
  predicate Quiet(j: Joint, d: Deed) {
    d.Do? ==> !d.a.Enter? && (d.a.Work? && j.c.worker.ErrorDone? ==> d.a.o.Fine?)
  }

  predicate QuietRun(j: Joint, run: seq<Deed>)
    requires Goes(j, run)
    decreases |run|
  {
    run == [] || (Quiet(j, run[0]) && QuietRun(Following(j, run[0]), run[1..]))
  }

  /** The caller of call `x` may still be told, while no other call is made. */
  ghost predicate MayBeTold(j: Joint, x: nat) {
    exists more :: Goes(j, more) && QuietRun(j, more) && x !in Leads(j, more).pending
  }

  lemma LeftStep(j: Joint, d: Deed)
    requires AllInv(j) && Can(j, d) && Quiet(j, d) && j.c.holder.NoHolder? && Beyond(j.c.worker)
    ensures var k := Following(j, d); k.c.holder.NoHolder? && Beyond(k.c.worker) && k.pending == j.pending
  {
    hide OwnerInv, FailingInv, ErrorInv, PhaseInv, OutputInv, StartStep, HelloStep, CloseStep, CheckStep, WriteStep;
  }

  lemma {:induction false} LeftAlone(j: Joint, run: seq<Deed>)
    requires AllInv(j) && Goes(j, run) && QuietRun(j, run) && j.c.holder.NoHolder? && Beyond(j.c.worker)
    ensures Leads(j, run).pending == j.pending
    decreases |run|
  {
    hide AllInv, Can, Following, Quiet, Beyond;
    if run != [] {
      LeftStep(j, run[0]);
      DeedInv(j, run[0]);
      LeftAlone(Following(j, run[0]), run[1..]);
    }
  }

  lemma SweepTells(j: Joint) returns (run: seq<Deed>)
    requires AllInv(j) && !j.c.crashed && j.c.holder.NoHolder? && j.c.waiter.NoWaiter? && j.c.worker.ErrorLock?
    ensures Goes(j, run) && QuietRun(j, run) && Leads(j, run).pending == []
  {
    hide FailingInv, ErrorInv, PhaseInv, OutputInv;
    run := [Do(Work(Fine))];
  }

  lemma Tells(j: Joint) returns (run: seq<Deed>)
    requires AllInv(j) && !j.c.crashed && j.c.holder.NoHolder? && j.c.waiter.NoWaiter?
    requires j.c.worker.Reading? || j.c.worker.ErrorLock?
    ensures Goes(j, run) && QuietRun(j, run) && Leads(j, run).pending == []
  {
    hide Inv, JointInv;
    if j.c.worker.ErrorLock? {
      run := SweepTells(j);
    } else {
      var fail := Do(Work(Trouble));
      DeedInv(j, fail);
      var rest := SweepTells(Following(j, fail));
      run := [fail] + rest;
      assert run[1..] == rest;
    }
  }

  lemma WorkerCases(j: Joint)
    requires AllInv(j) && j.pending != []
    ensures j.c.worker.Reading? || j.c.worker.ErrorLock? || Beyond(j.c.worker)
    ensures Beyond(j.c.worker) ==> !j.c.worker.Reading? && !j.c.worker.ErrorLock?
  {
  }

  /** Which waiting callers are left for good: in every reachable state in which no call is under way and no thread in
      `wait` owns the condition mutex, a caller in the list may still be told, without any further call, exactly while
      the worker reads or is about to empty the list. */
  lemma ToldExactlyBeforeTheSweep(run: seq<Deed>, x: nat)
    requires Goes(NEW, run)
    requires var j := Leads(NEW, run); !j.c.crashed && j.c.holder.NoHolder? && j.c.waiter.NoWaiter? && x in j.pending
    ensures var j := Leads(NEW, run); MayBeTold(j, x) <==> j.c.worker.Reading? || j.c.worker.ErrorLock?
  {
    hide Goes, Leads, AllInv, Beyond, QuietRun;
    NewInv();
    DeedsInv(NEW, run);
    var j := Leads(NEW, run);
    WorkerCases(j);
    if Beyond(j.c.worker) {
      forall more | Goes(j, more) && QuietRun(j, more) ensures x in Leads(j, more).pending {
        LeftAlone(j, more);
      }
    } else {
      var more := Tells(j);
      assert x !in Leads(j, more).pending;
    }
  }

  // ---- a later call ----

  /** On its way to `fail`, or returned with nobody left in the list. */
  predicate Telling(j: Joint) {
    || (AtCheck(j.c.holder) && !j.c.state.Running?)
    || GivingUp(j.c.holder)
    || (j.c.holder.NoHolder? && j.pending == [])
  }

  lemma TellingHold(j: Joint, d: Deed)
    requires AllInv(j) && Can(j, d) && Telling(j) && d.Do? && d.a.Hold?
    ensures Telling(Following(j, d))
  {
    hide OwnerInv, ErrorInv, OutputInv, StartStep, HelloStep, CloseStep, WriteStep;
  }

  lemma TellingWork(j: Joint, d: Deed)
    requires AllInv(j) && Can(j, d) && Telling(j) && d.Do? && d.a.Work?
    ensures Telling(Following(j, d))
  {
    hide OwnerInv, ErrorInv, OutputInv, StartStep, HelloStep, CloseStep, CheckStep, FailStep, WriteStep;
  }

  lemma TellingElse(j: Joint, d: Deed)
    requires AllInv(j) && Can(j, d) && Telling(j) && !(d.Do? && (d.a.Hold? || d.a.Work? || d.a.Enter?))
    ensures Telling(Following(j, d))
  {
    hide OwnerInv, ErrorInv, OutputInv, StartStep, HelloStep, CloseStep, CheckStep, FailStep, WriteStep;
  }

  lemma TellingStep(j: Joint, d: Deed)
    requires AllInv(j) && Can(j, d) && Telling(j) && !(d.Do? && d.a.Enter?)
    ensures Telling(Following(j, d))
  {
    hide AllInv, Can, Telling, Following;
    if d.Do? && d.a.Hold? {
      TellingHold(j, d);
    } else if d.Do? && d.a.Work? {
      TellingWork(j, d);
    } else {
      TellingElse(j, d);
    }
  }

  lemma {:induction false} TellingRun(j: Joint, run: seq<Deed>)
    requires AllInv(j) && Goes(j, run) && Telling(j)
    requires forall i :: 0 <= i < |run| ==> !(run[i].Do? && run[i].a.Enter?)
    ensures Telling(Leads(j, run))
    decreases |run|
  {
    hide AllInv, Can, Following, Telling;
    if run != [] {
      TellingStep(j, run[0]);
      DeedInv(j, run[0]);
      TellingRun(Following(j, run[0]), run[1..]);
    }
  }

  /** A call that finds the client not running tells everybody who was left before it returns. */
  lemma LaterCallTellsEverybody(run: seq<Deed>, more: seq<Deed>)
    requires Goes(NEW, run) && Goes(Leads(NEW, run), more)
    requires Leads(NEW, run).c.holder.CheckLoad? && !Leads(NEW, run).c.state.Running?
    requires forall i :: 0 <= i < |more| ==> !(more[i].Do? && more[i].a.Enter?)
    ensures var k := Leads(Leads(NEW, run), more); k.c.holder.NoHolder? ==> k.pending == []
  {
    hide Goes, Leads, AllInv;
    NewInv();
    DeedsInv(NEW, run);
    TellingRun(Leads(NEW, run), more);
  }

  // ---- a call that is left ----

  lemma Then(j: Joint, d: Deed, rest: seq<Deed>) returns (run: seq<Deed>)
    requires Can(j, d) && Goes(Following(j, d), rest)
    ensures Goes(j, run) && Leads(j, run) == Leads(Following(j, d), rest)
  {
    hide Can, Following;
    run := [d] + rest;
    assert run[1..] == rest;
  }

  function Plain(c: Client): Joint {
    Joint(c, [], [], S.None, 0, false)
  }

  lemma Steps(c: Client, a: Action, rest: seq<Deed>) returns (run: seq<Deed>)
    requires Can(Plain(c), Do(a)) && !Next(c, a).worker.Finished? && Goes(Plain(Next(c, a)), rest)
    ensures Goes(Plain(c), run) && Leads(Plain(c), run) == Leads(Plain(Next(c, a)), rest)
  {
    hide Goes, Leads, Enabled, Next;
    run := Then(Plain(c), Do(a), rest);
  }

  lemma ComesUp(rest: seq<Deed>) returns (run: seq<Deed>)
    requires Goes(Plain(Lifecycle.UP), rest)
    ensures Goes(NEW, run) && Leads(NEW, run) == Leads(Plain(Lifecycle.UP), rest)
  {
    hide Goes, Leads;
    var up := Lifecycle.UP;
    var starting := FRESH.(state := Starting, spawned := 1, holder := HelloLock, worker := HelloRead, output := [Hello]);
    assert [] + [Hello] == [Hello];
    run := Steps(up.(holder := HelloCheck, cond := ByHolder), Hold(Fine), rest);
    run := Steps(up.(holder := HelloLoad, cond := ByHolder), Hold(Fine), run);
    run := Steps(up.(holder := HelloLock), Hold(Fine), run);
    run := Steps(starting.(worker := RunSwap, cond := ByWorker), Work(Fine), run);
    run := Steps(starting.(worker := RunLoad, cond := ByWorker), Work(Fine), run);
    run := Steps(starting.(worker := RunLock), Work(Fine), run);
    run := Steps(starting, Work(Fine), run);
    run := Steps(starting.(worker := HelloWrite, output := []), Work(Fine), run);
    run := Steps(FRESH.(state := Starting, holder := Spawn), Hold(Fine), run);
    run := Steps(FRESH.(holder := StartSwap), Hold(Fine), run);
    run := Steps(FRESH.(holder := StartLoad), Hold(Fine), run);
    run := Steps(FRESH, Enter(StartLoad), run);
  }

  const CHECKED := Lifecycle.UP.(holder := CallWrite)

  const SWEPT := CHECKED.(worker := ErrorLoad, cond := ByWorker, err := To(1), handlers := 1)

  /** A caller passes its check. */
  lemma PassesCheck(rest: seq<Deed>) returns (run: seq<Deed>)
    requires Goes(Plain(CHECKED), rest)
    ensures Goes(NEW, run) && Leads(NEW, run) == Leads(Plain(CHECKED), rest)
  {
    hide Goes, Leads;
    run := Steps(Lifecycle.UP.(holder := CheckLoad), Hold(Fine), rest);
    run := Steps(Lifecycle.UP, Enter(CheckLoad), run);
    run := ComesUp(run);
  }

  /** The worker fails and empties the list before the caller pushes. */
  lemma SweepsTooEarly(rest: seq<Deed>) returns (run: seq<Deed>)
    requires Goes(Plain(SWEPT), rest)
    ensures Goes(Plain(CHECKED), run) && Leads(Plain(CHECKED), run) == Leads(Plain(SWEPT), rest)
  {
    hide Goes, Leads;
    run := Steps(CHECKED.(worker := ErrorLock), Work(Fine), rest);
    run := Steps(CHECKED, Work(Trouble), run);
  }

  const LEFT := SWEPT.(
    holder := NoHolder, output := CHECKED.output + [Whole], state := Failing, worker := Parked, cond := Nobody)

  lemma PushesTooLate(rest: seq<Deed>) returns (run: seq<Deed>)
    requires Goes(Joint(LEFT, [0], [0], S.None, 1, false), rest)
    ensures Goes(Plain(SWEPT), run)
    ensures Leads(Plain(SWEPT), run) == Leads(Joint(LEFT, [0], [0], S.None, 1, false), rest)
  {
    hide Goes, Leads;
    var written := SWEPT.(holder := NoHolder, output := CHECKED.output + [Whole]);
    run := Then(Joint(written.(worker := ErrorSwap(Running)), [0], [0], S.None, 1, false), Do(Work(Fine)), rest);
    run := Then(Joint(written, [0], [0], S.None, 1, false), Do(Work(Fine)), run);
    run := Then(Joint(SWEPT, [0], [0], S.None, 1, true), Do(Hold(Fine)), run);
    assert [] + [0 as nat] == [0 as nat];
    run := Then(Plain(SWEPT), Push, run);
  }

  /** A call that returns from writing its request without an error and then sleeps on, for as long as no other call is
      made: its record was pushed when the worker had emptied the list already. */
  lemma CallMayBeLeft() returns (run: seq<Deed>)
    ensures Goes(NEW, run) && Leads(NEW, run).c.holder.NoHolder? && 0 in Leads(NEW, run).pending
    ensures !MayBeTold(Leads(NEW, run), 0)
  {
    hide Goes, Leads, MayBeTold;
    var j := Joint(LEFT, [0], [0], S.None, 1, false);
    NothingMore(j);
    run := PushesTooLate([]);
    run := SweepsTooEarly(run);
    run := PassesCheck(run);
    ToldExactlyBeforeTheSweep(run, 0);
  }

  lemma NothingMore(j: Joint)
    ensures Goes(j, []) && Leads(j, []) == j
  {
  }

  // ---- a reply that cannot be read ----

  /** The worker is parked for an error in the reply it was reading, and nobody is about to take the error. */
  predicate Torn(j: Joint, x: nat) {
    && j.inHand == S.Some(x) && j.c.state.Failing? && (j.c.worker.Parked? || j.c.worker.ErrorLoad?) && j.c.waiter.NoWaiter?
    && (j.c.holder.NoHolder? || AtCheck(j.c.holder) || j.c.holder.FailLoad?)
  }

  /** Nobody calls `start`, `close` or `wait`. */
  predicate OnlyCalls(run: seq<Deed>) {
    forall i :: 0 <= i < |run| && run[i].Do? ==> !run[i].a.Await? && (run[i].a.Enter? ==> run[i].a.h.CheckLoad?)
  }

  lemma TornStep(j: Joint, d: Deed, x: nat)
    requires Torn(j, x) && Can(j, d) && OnlyCalls([d])
    ensures Torn(Following(j, d), x)
  {
    assert [d][0] == d;
  }

  /** The caller of the reply that could not be read is told when the error handler returns and not before, however many
      calls are made in the meantime: they empty the list, but its record is not in the list any more. */
  lemma {:induction false} TornCallerSleepsOn(j: Joint, run: seq<Deed>, x: nat)
    requires Torn(j, x) && Goes(j, run) && OnlyCalls(run)
    ensures Torn(Leads(j, run), x)
    decreases |run|
  {
    hide Torn, Can, Following;
    if run != [] {
      assert OnlyCalls([run[0]]);
      TornStep(j, run[0], x);
      TornCallerSleepsOn(Following(j, run[0]), run[1..], x);
    }
  }

  const ASKED := Lifecycle.UP.(output := Lifecycle.UP.output + [Whole])

  const TORN := ASKED.(state := Failing, worker := Parked, err := To(1), handlers := 1)

  lemma ReplyTears(rest: seq<Deed>) returns (run: seq<Deed>)
    requires Goes(Joint(TORN, [], [], S.Some(0), 1, false), rest)
    ensures Goes(Joint(ASKED, [], [0], S.Some(0), 1, false), run)
    ensures Leads(Joint(ASKED, [], [0], S.Some(0), 1, false), run) == Leads(Joint(TORN, [], [], S.Some(0), 1, false), rest)
  {
    hide Goes, Leads;
    var loading := ASKED.(worker := ErrorLoad, cond := ByWorker, err := To(1), handlers := 1);
    run := Then(Joint(loading.(worker := ErrorSwap(Running)), [], [], S.Some(0), 1, false), Do(Work(Fine)), rest);
    run := Then(Joint(loading, [], [], S.Some(0), 1, false), Do(Work(Fine)), run);
    run := Then(Joint(ASKED.(worker := ErrorLock), [], [0], S.Some(0), 1, false), Do(Work(Fine)), run);
    run := Then(Joint(ASKED, [], [0], S.Some(0), 1, false), Do(Work(Trouble)), run);
  }

  /** There are such callers. */
  lemma CallerMayBeTorn() returns (run: seq<Deed>)
    ensures Goes(NEW, run) && Torn(Leads(NEW, run), 0) && Leads(NEW, run).c.holder.NoHolder?
  {
    hide Goes, Leads;
    NothingMore(Joint(TORN, [], [], S.Some(0), 1, false));
    run := ReplyTears([]);
    assert [0 as nat][1..] == [];
    run := Then(Joint(ASKED, [0], [0], S.None, 1, false), TakeReply, run);
    run := Then(Joint(CHECKED, [0], [0], S.None, 1, true), Do(Hold(Fine)), run);
    assert [] + [0 as nat] == [0 as nat];
    run := Then(Plain(CHECKED), Push, run);
    run := PassesCheck(run);
  }
}
