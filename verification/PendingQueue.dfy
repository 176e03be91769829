/** The client's list of pending calls: an intrusive first-in first-out queue of call records that live on the stacks of
    the callers waiting for them. */
module PendingQueue {
  import opened Wire
  import opened Schemas

  datatype Waiter = Waiting | Notifying | Notified

  /** What a caller finds in its call record when it wakes. */
  datatype Outcome = Unset | Response(body: Option<Value>) | Failure(text: seq<Byte>)

  /** `resp` stands for the record's unmarshal function: the reply's message type, or `None` for void. */
  class CallData {
    const resp: Option<nat>
    var next: CallData?
    var outcome: Outcome
    var waiter: Waiter

    constructor (resp: Option<nat>)
      ensures this.resp == resp && next == null && waiter == Waiting && outcome == Unset
    {
      this.resp, next, waiter, outcome := resp, null, Waiting, Unset;
    }

    /** The waiting caller may return only after the second store. */
    method Notify()
      modifies this`waiter
      ensures waiter == Notified
    {
      waiter := Notifying;
      waiter := Notified;
    }
  }

  class Queue {
    var head: CallData?
    var tail: CallData?
    ghost var Calls: seq<CallData>

    /** The links run through exactly `Calls`, in order. */
    ghost predicate Valid()
      reads this, Calls`next
    {
      && (head == if Calls == [] then null else Calls[0])
      && (tail == if Calls == [] then null else Calls[|Calls| - 1])
      && (forall i :: 0 <= i < |Calls| - 1 ==> Calls[i].next == Calls[i + 1])
      && (Calls != [] ==> Calls[|Calls| - 1].next == null)
      && (forall i, j :: 0 <= i < j < |Calls| ==> Calls[i] != Calls[j])
    }

    constructor ()
      ensures Valid() && Calls == []
    {
      head, tail, Calls := null, null, [];
    }

    /** The end of `start_request`: the new record becomes the last one, and nothing else about any record changes. */
    method Push(call: CallData)
      requires Valid() && call !in Calls && call.next == null
      modifies this, if Calls == [] then {} else {Calls[|Calls| - 1]}
      ensures Valid() && Calls == old(Calls) + [call]
      ensures forall c <- Calls :: c.waiter == old(c.waiter) && c.outcome == old(c.outcome)
    {
      if head == null {
        head := call;
      }
      if tail != null {
        tail.next := call;
      }
      tail := call;
      Calls := Calls + [call];
    }

    /** `pop_call_data`: the oldest record, or null. */
    method Pop() returns (call: CallData?)
      requires Valid()
      modifies this
      ensures Valid()
      ensures old(Calls) == [] ==> call == null && Calls == []
      ensures old(Calls) != [] ==> call == old(Calls)[0] && Calls == old(Calls)[1..]
    {
      if head == null {
        return null;
      }
      call := head;
      assert |Calls| > 1 ==> Calls[0].next == Calls[0 + 1];
      assert |Calls| > 1 ==> Calls[0] != Calls[|Calls| - 1];
      if head == tail {
        tail := null;
      }
      head := head.next;
      Calls := Calls[1..];
    }

    /** `fail_pending_calls`: every pending caller is notified of the error, oldest first, and none is left. */
    method FailPendingCalls(text: seq<Byte>)
      requires Valid()
      modifies this, Calls
      ensures Valid() && Calls == []
      ensures forall c <- old(Calls) :: c.outcome == Failure(text) && c.waiter == Notified
    {
      ghost var all := Calls;
      ghost var done := 0;
      while true
        invariant Valid() && done <= |all| && Calls == all[done..]
        invariant Calls == [] ==> done == |all|
        invariant forall i :: 0 <= i < done ==> all[i].outcome == Failure(text) && all[i].waiter == Notified
        decreases |Calls|
      {
        var call := Pop();
        if call == null {
          break;
        }
        assert call == all[done];
        call.outcome := Failure(text);
        call.Notify();
        done := done + 1;
      }
    }
  }
}
