/** Who may touch a call record, and until when: callers push records that live on their own stacks, the worker and
    failing callers pop them, and a caller that waits returns only after its popper's last access. */
module Handoff {
  datatype Access = Marking | StoringOne | Waking | StoringTwo

  /** Where a pushed record is: in the queue, in the hands of the thread that popped it, or finished with. */
  datatype Stage = Queued | Taken(owner: nat, next: Access) | Done

  datatype Record = Record(stage: Stage, waiter: nat, returned: bool)

  datatype State = State(pushed: seq<nat>, popped: seq<nat>, queue: seq<nat>, records: map<nat, Record>)

  const EMPTY := State([], [], [], map[])

  /** `Push` and `Pop` each happen under the data mutex. `Look` is one iteration of the loop in `Waiter::wait`. */
  datatype Action = Push(id: nat) | Pop(thread: nat) | Touch(id: nat) | Look(id: nat)

  predicate Enabled(s: State, a: Action) {
    match a
    case Push(id) => id !in s.records
    case Pop(_) => s.queue != [] && s.queue[0] in s.records
    case Touch(id) => id in s.records && s.records[id].stage.Taken?
    case Look(id) => id in s.records && !s.records[id].returned
  }

  function Next(s: State, a: Action): State
    requires Enabled(s, a)
  {
    match a
    case Push(id) =>
      s.(pushed := s.pushed + [id], queue := s.queue + [id], records := s.records[id := Record(Queued, 0, false)])
    case Pop(thread) =>
      var id := s.queue[0];
      s.(popped := s.popped + [id], queue := s.queue[1..],
         records := s.records[id := s.records[id].(stage := Taken(thread, Marking))])
    case Touch(id) => s.(records := s.records[id := Touched(s.records[id])])
    case Look(id) => if s.records[id].waiter == 2 then s.(records := s.records[id := s.records[id].(returned := true)]) else s
  }

  /** The popper's accesses in turn: the outcome, then the two stores of `notify` around its wake-up. */
  function Touched(r: Record): Record
    requires r.stage.Taken?
  {
    match r.stage.next
    case Marking => r.(stage := Taken(r.stage.owner, StoringOne))
    case StoringOne => r.(stage := Taken(r.stage.owner, Waking), waiter := 1)
    case Waking => r.(stage := Taken(r.stage.owner, StoringTwo))
    case StoringTwo => r.(stage := Done, waiter := 2)
  }

  /** The records whose memory an action reads or writes. Appending also writes the link of the last record. */
  function Accessed(s: State, a: Action): set<nat> {
    match a
    case Push(id) => if s.queue == [] then {id} else {id, s.queue[|s.queue| - 1]}
    case Pop(_) => if s.queue == [] then {} else {s.queue[0]}
    case Touch(id) => {id}
    case Look(id) => {id}
  }

  predicate Runs(s: State, run: seq<Action>)
    decreases |run|
  {
    run == [] || (Enabled(s, run[0]) && Runs(Next(s, run[0]), run[1..]))
  }

  function After(s: State, run: seq<Action>): State
    requires Runs(s, run)
    decreases |run|
  {
    if run == [] then s else After(Next(s, run[0]), run[1..])
  }

  predicate Distinct(ids: seq<nat>) {
    forall i, j :: 0 <= i < j < |ids| ==> ids[i] != ids[j]
  }

  /** Every record pushed is in the queue or was popped once, oldest first; a caller has returned only when its record's
      popper is finished with it. */
  predicate Inv(s: State) {
    && s.pushed == s.popped + s.queue && Distinct(s.pushed)
    && (forall id :: id in s.records ==> id in s.pushed) && (forall id :: id in s.pushed ==> id in s.records)
    && (forall id :: id in s.records ==> RecordOk(s, id))
  }

  predicate RecordOk(s: State, id: nat)
    requires id in s.records
  {
    var r := s.records[id];
    && (r.stage.Queued? <==> id in s.queue)
    && r.waiter == (match r.stage
                    case Queued => 0
                    case Taken(_, next) => if next == Marking || next == StoringOne then 0 else 1
                    case Done => 2)
    && (r.returned ==> r.stage.Done?)
  }

  lemma PushInv(s: State, id: nat)
    requires Inv(s) && Enabled(s, Push(id))
    ensures Inv(Next(s, Push(id)))
  {
    var t := Next(s, Push(id));
    assert t.pushed == t.popped + t.queue;
    forall i | i in t.records ensures RecordOk(t, i) {
      assert i != id ==> RecordOk(s, i);
    }
  }

  lemma PopInv(s: State, thread: nat)
    requires Inv(s) && Enabled(s, Pop(thread))
    ensures Inv(Next(s, Pop(thread)))
  {
    var t := Next(s, Pop(thread));
    assert t.pushed == t.popped + t.queue;
    FirstIsAlone(s.popped, s.queue);
    assert s.queue == [s.queue[0]] + t.queue;
    forall i | i in t.records ensures RecordOk(t, i) {
      assert RecordOk(s, i);
    }
  }

  lemma StepInv(s: State, a: Action)
    requires Inv(s) && Enabled(s, a)
    ensures Inv(Next(s, a))
  {
    hide Inv, Enabled, Next;
    if a.Push? {
      PushInv(s, a.id);
    } else if a.Pop? {
      PopInv(s, a.thread);
    } else {
      KeepInv(s, a);
    }
  }

  lemma KeepInv(s: State, a: Action)
    requires Inv(s) && Enabled(s, a) && !a.Push? && !a.Pop?
    ensures Inv(Next(s, a))
  {
    hide Distinct;
    var t := Next(s, a);
    forall i | i in t.records ensures RecordOk(t, i) {
      assert RecordOk(s, i);
    }
  }

  lemma FirstIsAlone(popped: seq<nat>, queue: seq<nat>)
    requires queue != [] && Distinct(popped + queue)
    ensures queue[0] !in queue[1..] && queue[0] !in popped
  {
    var all := popped + queue;
    forall k | 0 <= k < |queue[1..]| ensures queue[1..][k] != queue[0] {
      assert all[|popped|] == queue[0] && all[|popped| + 1 + k] == queue[1..][k];
    }
    forall k | 0 <= k < |popped| ensures popped[k] != queue[0] {
      assert all[k] == popped[k] && all[|popped|] == queue[0];
    }
  }

  lemma {:induction false} RunInv(s: State, run: seq<Action>)
    requires Inv(s) && Runs(s, run)
    ensures Inv(After(s, run))
    decreases |run|
  {
    hide Inv, Enabled, Next;
    if run != [] {
      StepInv(s, run[0]);
      RunInv(Next(s, run[0]), run[1..]);
    }
  }

  /** Conservation: over every run, the records popped are a prefix of those pushed, without repetition, and those
      neither popped are exactly the queue. */
  lemma PoppedOnceInOrder(run: seq<Action>)
    requires Runs(EMPTY, run)
    ensures var s := After(EMPTY, run);
      s.pushed == s.popped + s.queue && Distinct(s.popped) && (forall id :: id in s.popped ==> id !in s.queue)
  {
    hide Runs, After, RecordOk;
    RunInv(EMPTY, run);
    var s := After(EMPTY, run);
    forall i, j | 0 <= i < j < |s.popped| ensures s.popped[i] != s.popped[j] {
      assert s.pushed[i] == s.popped[i] && s.pushed[j] == s.popped[j];
    }
    forall i, k | 0 <= i < |s.popped| && 0 <= k < |s.queue| ensures s.popped[i] != s.queue[k] {
      assert s.pushed[i] == s.popped[i] && s.pushed[|s.popped| + k] == s.queue[k];
    }
  }

  /** No step of any run touches the record of a caller whose wait has returned. */
  lemma NeverTouchedAfterReturn(run: seq<Action>, a: Action, id: nat)
    requires Runs(EMPTY, run) && Enabled(After(EMPTY, run), a)
    requires var s := After(EMPTY, run); id in s.records && s.records[id].returned
    ensures id !in Accessed(After(EMPTY, run), a)
  {
    hide Runs, After;
    RunInv(EMPTY, run);
    var s := After(EMPTY, run);
    assert RecordOk(s, id);
    if a.Pop? {
      assert s.queue[0] in s.queue;
    }
  }

  /** A caller's wait returns only after its record was popped and its popper made every access, the last store
      included. */
  lemma ReturnMeansFinished(run: seq<Action>, id: nat)
    requires Runs(EMPTY, run)
    requires var s := After(EMPTY, run); id in s.records && s.records[id].returned
    ensures var s := After(EMPTY, run); s.records[id].stage.Done? && id in s.popped
  {
    hide Runs, After;
    RunInv(EMPTY, run);
    var s := After(EMPTY, run);
    assert RecordOk(s, id);
    assert id in s.pushed;
  }

  /** Which records a step reads or writes: pushing links the last one in the queue to the new one. */
  lemma AccessedExactly(s: State, a: Action, id: nat)
    requires Enabled(s, a)
    ensures id in Accessed(s, a) <==>
      || (a == Push(id)) || (a.Push? && s.queue != [] && id == s.queue[|s.queue| - 1])
      || (a.Pop? && id == s.queue[0]) || a == Touch(id) || a == Look(id)
    ensures id in s.records && id !in Accessed(s, a) ==> Next(s, a).records[id] == s.records[id]
  {
  }

  // ---- every wait can return ----

  function Left(r: Record): nat {
    match r.stage
    case Queued => 5
    case Taken(_, Marking) => 4
    case Taken(_, StoringOne) => 3
    case Taken(_, Waking) => 2
    case Taken(_, StoringTwo) => 1
    case Done => 0
  }

  lemma FinishingRun(s: State, id: nat) returns (more: seq<Action>)
    requires Inv(s) && id in s.records
    ensures Runs(s, more) && id in After(s, more).records && After(s, more).records[id].returned
    ensures After(s, more).pushed == s.pushed
    decreases |s.queue|, Left(s.records[id])
  {
    hide Distinct;
    assert RecordOk(s, id);
    if s.records[id].returned {
      more := [];
    } else {
      var a := match s.records[id].stage
               case Queued => Pop(0)
               case Taken(_, _) => Touch(id)
               case Done => Look(id);
      if a.Pop? {
        assert s.queue[0] in s.queue && s.queue[0] in s.pushed;
      }
      StepInv(s, a);
      if a.Look? {
        more := [a];
        assert [a][1..] == [];
      } else {
        var rest := FinishingRun(Next(s, a), id);
        more := [a] + rest;
        assert more[1..] == rest;
      }
    }
  }

  /** From every state that a run can reach, every pushed record's wait can still return, with nothing more being
      pushed. */
  lemma WaitCanReturn(run: seq<Action>, id: nat) returns (more: seq<Action>)
    requires Runs(EMPTY, run) && id in After(EMPTY, run).pushed
    ensures var s := After(EMPTY, run);
      && Runs(s, more) && id in After(s, more).records && After(s, more).records[id].returned
      && After(s, more).pushed == s.pushed
  {
    hide Runs, After, RecordOk;
    RunInv(EMPTY, run);
    more := FinishingRun(After(EMPTY, run), id);
  }
}
