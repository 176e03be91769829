/** The streaming encoder: start tags of enclosing messages wait on a stack until a field is actually written. */
module Encoder {
  import opened Wire
  import opened Schemas
  import opened Items

  class Output {
    var bytes: seq<Byte>

    constructor ()
      ensures bytes == []
    {
      bytes := [];
    }

    method Write(bs: seq<Byte>)
      modifies this
      ensures bytes == old(bytes) + bs
    {
      bytes := bytes + bs;
    }
  }

  /** The field numbers of the enclosing messages whose start tags have not been written yet. */
  class Stack {
    var size: nat
    const elems: array<int>

    ghost predicate Valid()
      reads this
    {
      elems.Length == MAX_NESTING && size <= MAX_NESTING
    }

    ghost function Pending(): (p: seq<int>)
      requires Valid()
      reads this, elems
    {
      elems[..size]
    }

    constructor ()
      ensures Valid() && Pending() == [] && fresh(elems)
    {
      elems := new int[MAX_NESTING];
      size := 0;
    }

    /** Fails, where the runtime panics, when the stack is full. */
    method Push(e: int) returns (ok: bool)
      requires Valid()
      modifies this, elems
      ensures Valid()
      ensures ok == (|old(Pending())| < 128)
      ensures Pending() == if ok then old(Pending()) + [e] else old(Pending())
    {
      if size == MAX_NESTING {
        return false;
      }
      elems[size] := e;
      size := size + 1;
      return true;
    }

    method Pop()
      requires Valid() && Pending() != []
      modifies this
      ensures Valid() && Pending() == old(Pending())[..|old(Pending())| - 1]
    {
      size := size - 1;
    }

    method Clear()
      requires Valid()
      modifies this
      ensures Valid() && Pending() == []
    {
      size := 0;
    }
  }

  function StartTags(nums: seq<int>): seq<Byte> {
    if nums == [] then [] else TagBytes(nums[0], StartType) + StartTags(nums[1..])
  }

  lemma {:induction false} StartTagsSnoc(nums: seq<int>, num: int)
    ensures StartTags(nums + [num]) == StartTags(nums) + TagBytes(num, StartType)
  {
    if nums == [] {
      assert nums + [num] == [num];
      assert [num][1..] == [];
    } else {
      assert (nums + [num])[1..] == nums[1..] + [num];
      StartTagsSnoc(nums[1..], num);
    }
  }

  /** What is added to the output when `items` are written with start tags pending. */
  function Flushed(pending: seq<int>, items: seq<Item>): seq<Byte>
    requires AllSound(items)
  {
    if items == [] then [] else StartTags(pending) + Print(items)
  }

  /** Output bytes and pending start tags, before or after a step. */
  datatype Progress = Progress(bytes: seq<Byte>, pending: seq<int>)

  /** The exact effect of writing `items`: either nothing at all happens, or the pending start tags and the
      items reach the output and nothing is pending any more. */
  function After(p: Progress, items: seq<Item>): Progress
    requires AllSound(items)
  {
    Progress(p.bytes + Flushed(p.pending, items), if items == [] then p.pending else [])
  }

  ghost function Now(out: Output, stack: Stack): Progress
    requires stack.Valid()
    reads out, stack, stack.elems
  {
    Progress(out.bytes, stack.Pending())
  }

  lemma AfterConcat(p: Progress, a: seq<Item>, b: seq<Item>)
    requires AllSound(a) && AllSound(b)
    ensures AllSound(a + b) && After(After(p, a), b) == After(p, a + b)
  {
    PrintConcat(a, b);
    if a == [] {
      assert a + b == b;
      assert p.bytes + [] == p.bytes;
    } else if b == [] {
      assert a + b == a;
      assert After(p, a).bytes + [] == After(p, a).bytes;
    } else {
      assert StartTags([]) + Print(b) == Print(b);
      Regroup(p.bytes, StartTags(p.pending) + Print(a), Print(b));
      Regroup(StartTags(p.pending), Print(a), Print(b));
    }
  }

  lemma AfterNothing(p: Progress)
    ensures After(p, []) == p
  {
    assert p.bytes + [] == p.bytes;
  }

  method WriteTags(out: Output, num: int, wire: WireType, stack: Stack)
    requires stack.Valid() && Code(wire) < 8
    modifies out, stack
    ensures stack.Valid() && stack.Pending() == []
    ensures out.bytes == old(out.bytes) + StartTags(old(stack.Pending())) + TagBytes(num, wire)
  {
    ghost var pending := stack.Pending();
    var i := 0;
    while i < stack.size
      invariant i <= stack.size == |pending| && stack.Valid() && stack.Pending() == pending
      invariant out.bytes == old(out.bytes) + StartTags(pending[..i])
    {
      StartTagsSnoc(pending[..i], pending[i]);
      assert pending[..i + 1] == pending[..i] + [pending[i]];
      out.Write(TagBytes(stack.elems[i], StartType));
      i := i + 1;
    }
    assert pending[..i] == pending;
    stack.Clear();
    out.Write(TagBytes(num, wire));
  }

  lemma AfterScalar(p: Progress, s: Schema, num: int, k: Kind, v: Value)
    requires !k.Message? && ScalarOk(k, v) && 0 < num < FIELD_LIMIT
    ensures AllSound(Prune(s, num, k, v))
    ensures After(p, Prune(s, num, k, v)) ==
            if Blank(k, v) then p
            else Progress(p.bytes + StartTags(p.pending) + TagBytes(num, WireOf(k)) + Payload(k, v), [])
  {
    if !IsZero(k, v) {
      PrintOne(Leaf(num, k, v));
      var (x, y, z) := (StartTags(p.pending), TagBytes(num, WireOf(k)), Payload(k, v));
      Regroup(p.bytes, x, y + z);
      Regroup(p.bytes + x, y, z);
    }
  }

  method WritePayload(out: Output, k: Kind, v: Value)
    requires !k.Message? && ScalarOk(k, v)
    modifies out
    ensures out.bytes == old(out.bytes) + Payload(k, v)
  {
    if k.Bytes? || k.Text? {
      Regroup(out.bytes, Varint(|v.bs|), v.bs);
      out.Write(Varint(|v.bs|));
      out.Write(v.bs);
    } else {
      out.Write(Payload(k, v));
    }
  }

  method MarshalScalar(out: Output, num: int, k: Kind, v: Value, stack: Stack, ghost s: Schema)
    requires !k.Message? && ScalarOk(k, v) && 0 < num < FIELD_LIMIT && stack.Valid()
    modifies out, stack
    ensures stack.Valid() && AllSound(Prune(s, num, k, v))
    ensures Now(out, stack) == After(old(Now(out, stack)), Prune(s, num, k, v))
    ensures Blank(k, v) ==> out.bytes == old(out.bytes) && stack.Pending() == old(stack.Pending())
    ensures !Blank(k, v) ==>
      out.bytes == old(out.bytes) + StartTags(old(stack.Pending())) + TagBytes(num, WireOf(k)) + Payload(k, v)
      && stack.Pending() == []
  {
    AfterScalar(Now(out, stack), s, num, k, v);
    if !IsZero(k, v) {
      WriteTags(out, num, WireOf(k), stack);
      WritePayload(out, k, v);
    }
  }

  // ---- messages ----

  /** Whether the stack, with `pending` start tags already on it, has room for every push made while `v` is
      written: writing anything empties the stack. */
  predicate Room(s: Schema, k: Kind, v: Value, pending: nat)
    requires Known(s, k) && Typed(s, k, v)
    decreases Rank(k), 0
  {
    k.Message? ==> pending < MAX_NESTING && RoomColumns(s, k.ty, v.cols, 0, pending + 1)
  }

  predicate RoomAll(s: Schema, k: Kind, vals: seq<Value>, pending: nat)
    requires Known(s, k) && AllTyped(s, k, vals)
    decreases Rank(k), 1, |vals|
  {
    vals == [] || (Room(s, k, vals[0], pending)
                   && RoomAll(s, k, vals[1..], if IsDefault(s, k, vals[0]) then pending else 0))
  }

  predicate RoomColumns(s: Schema, t: nat, cols: seq<seq<Value>>, i: nat, pending: nat)
    requires t < |s| && ColumnsTyped(s, t, cols) && i <= |cols|
    decreases t, 2, |cols| - i
  {
    i == |cols| ||
    (assert ColumnTyped(s, FieldAt(s, t, i), cols[i]);
     var k := FieldAt(s, t, i).kind;
     RoomAll(s, k, cols[i], pending)
     && RoomColumns(s, t, cols, i + 1, if AllDefault(s, k, cols[i]) then pending else 0))
  }

  lemma AfterGroup(p: Progress, num: int, items: seq<Item>)
    requires AllSound(items) && items != [] && 0 < num < FIELD_LIMIT
    ensures AllSound([Group(num, items)])
    ensures After(p, [Group(num, items)]) ==
            Progress(After(Progress(p.bytes, p.pending + [num]), items).bytes + [END_BYTE], [])
  {
    PrintOne(Group(num, items));
    StartTagsSnoc(p.pending, num);
    var (x, y, z) := (StartTags(p.pending), TagBytes(num, StartType), Print(items));
    Regroup(p.bytes, (x + y) + z, [END_BYTE]);
    Regroup(x, y, z);
    Regroup(x, y + z, [END_BYTE]);
  }

  /** `marshal_field`: a submessage waits on the stack, and is closed with an end tag only if it was opened.
      `ok` is false where the runtime panics because the stack is full. */
  method MarshalField(out: Output, s: Schema, num: int, k: Kind, v: Value, stack: Stack) returns (ok: bool)
    requires Known(s, k) && Typed(s, k, v) && 0 < num < FIELD_LIMIT && stack.Valid()
    modifies out, stack, stack.elems
    ensures stack.Valid() && AllSound(Prune(s, num, k, v))
    ensures ok == Room(s, k, v, |old(stack.Pending())|)
    ensures ok ==> Now(out, stack) == After(old(Now(out, stack)), Prune(s, num, k, v))
    decreases Rank(k), 0
  {
    PruneSound(s, num, k, v);
    if !k.Message? {
      MarshalScalar(out, num, k, v, stack, s);
      return true;
    }
    ghost var before := Now(out, stack);
    ghost var items := PruneColumns(s, k.ty, v.cols, 0);
    ColumnsSound(s, k.ty, v.cols, 0);
    ok := stack.Push(num);
    if !ok {
      return;
    }
    ok := MarshalColumns(out, s, k.ty, v.cols, stack);
    if !ok {
      return;
    }
    if items != [] {
      AfterGroup(before, num, items);
    }
    if stack.size == 0 {
      out.Write([END_BYTE]);
    } else {
      stack.Pop();
    }
  }

  lemma AllStep(s: Schema, num: int, k: Kind, vals: seq<Value>)
    requires Known(s, k) && AllTyped(s, k, vals) && 0 < num < FIELD_LIMIT && vals != []
    ensures AllSound(Prune(s, num, k, vals[0])) && AllSound(PruneAll(s, num, k, vals[1..]))
    ensures PruneAll(s, num, k, vals) == Prune(s, num, k, vals[0]) + PruneAll(s, num, k, vals[1..])
    ensures IsDefault(s, k, vals[0]) <==> Prune(s, num, k, vals[0]) == []
  {
    PruneSound(s, num, k, vals[0]);
    PruneAllSound(s, num, k, vals[1..]);
  }

  lemma AllPrunedSound(s: Schema, num: int, k: Kind, vals: seq<Value>)
    requires Known(s, k) && AllTyped(s, k, vals) && 0 < num < FIELD_LIMIT
    ensures AllSound(PruneAll(s, num, k, vals))
  {
    PruneAllSound(s, num, k, vals);
  }

  method MarshalAll(out: Output, s: Schema, num: int, k: Kind, vals: seq<Value>, stack: Stack) returns (ok: bool)
    requires Known(s, k) && AllTyped(s, k, vals) && 0 < num < FIELD_LIMIT && stack.Valid()
    modifies out, stack, stack.elems
    ensures stack.Valid() && AllSound(PruneAll(s, num, k, vals))
    ensures ok == RoomAll(s, k, vals, |old(stack.Pending())|)
    ensures ok ==> Now(out, stack) == After(old(Now(out, stack)), PruneAll(s, num, k, vals))
    decreases Rank(k), 1
  {
    hide Flushed, Prune, Sound, Typed, Nest;
    AllPrunedSound(s, num, k, vals);
    ghost var goal := After(Now(out, stack), PruneAll(s, num, k, vals));
    ghost var room := RoomAll(s, k, vals, |stack.Pending()|);
    var left := vals;
    while left != []
      invariant stack.Valid() && AllTyped(s, k, left)
      invariant AllSound(PruneAll(s, num, k, left))
      invariant After(Now(out, stack), PruneAll(s, num, k, left)) == goal
      invariant RoomAll(s, k, left, |stack.Pending()|) == room
    {
      AllStep(s, num, k, left);
      ghost var before := Now(out, stack);
      AfterConcat(before, Prune(s, num, k, left[0]), PruneAll(s, num, k, left[1..]));
      ok := MarshalField(out, s, num, k, left[0], stack);
      if !ok {
        return;
      }
      assert Now(out, stack) == After(before, Prune(s, num, k, left[0]));
      left := left[1..];
    }
    AfterNothing(Now(out, stack));
    ok := true;
  }

  lemma ColumnStep(s: Schema, t: nat, cols: seq<seq<Value>>, i: nat)
    requires t < |s| && ColumnsTyped(s, t, cols) && i < |cols|
    ensures var f := FieldAt(s, t, i);
            && ColumnTyped(s, f, cols[i])
            && AllSound(PruneAll(s, f.num, f.kind, cols[i]))
            && AllSound(PruneColumns(s, t, cols, i + 1))
            && PruneColumns(s, t, cols, i) == PruneAll(s, f.num, f.kind, cols[i]) + PruneColumns(s, t, cols, i + 1)
            && (AllDefault(s, f.kind, cols[i]) <==> PruneAll(s, f.num, f.kind, cols[i]) == [])
  {
    var f := FieldAt(s, t, i);
    assert ColumnTyped(s, f, cols[i]);
    PruneAllSound(s, f.num, f.kind, cols[i]);
    PruneColumnsSound(s, t, cols, i + 1);
  }

  lemma ColumnsSound(s: Schema, t: nat, cols: seq<seq<Value>>, i: nat)
    requires t < |s| && ColumnsTyped(s, t, cols) && i <= |cols|
    ensures AllSound(PruneColumns(s, t, cols, i))
  {
    PruneColumnsSound(s, t, cols, i);
  }

  /** Writing column `i` and then the later ones is writing the columns from `i` on, and needs the same room. */
  lemma ColumnThenRest(s: Schema, t: nat, cols: seq<seq<Value>>, i: nat, before: Progress)
    requires t < |s| && ColumnsTyped(s, t, cols) && i < |cols|
    ensures var f := FieldAt(s, t, i);
            && ColumnTyped(s, f, cols[i])
            && AllSound(PruneAll(s, f.num, f.kind, cols[i]))
            && AllSound(PruneColumns(s, t, cols, i + 1)) && AllSound(PruneColumns(s, t, cols, i))
            && var after := After(before, PruneAll(s, f.num, f.kind, cols[i]));
            && After(after, PruneColumns(s, t, cols, i + 1)) == After(before, PruneColumns(s, t, cols, i))
            && (RoomColumns(s, t, cols, i, |before.pending|) <==>
                RoomAll(s, f.kind, cols[i], |before.pending|) && RoomColumns(s, t, cols, i + 1, |after.pending|))
  {
    hide PruneAll, RoomAll, Flushed;
    ColumnStep(s, t, cols, i);
    var f := FieldAt(s, t, i);
    AfterConcat(before, PruneAll(s, f.num, f.kind, cols[i]), PruneColumns(s, t, cols, i + 1));
  }

  /** A generated `marshal`: every field in declaration order. */
  method MarshalColumns(out: Output, s: Schema, t: nat, cols: seq<seq<Value>>, stack: Stack) returns (ok: bool)
    requires t < |s| && ColumnsTyped(s, t, cols) && stack.Valid()
    modifies out, stack, stack.elems
    ensures stack.Valid() && AllSound(PruneColumns(s, t, cols, 0))
    ensures ok == RoomColumns(s, t, cols, 0, |old(stack.Pending())|)
    ensures ok ==> Now(out, stack) == After(old(Now(out, stack)), PruneColumns(s, t, cols, 0))
    decreases t, 2
  {
    ColumnsSound(s, t, cols, 0);
    ghost var goal := After(Now(out, stack), PruneColumns(s, t, cols, 0));
    ghost var room := RoomColumns(s, t, cols, 0, |stack.Pending()|);
    var i := 0;
    while i < |cols|
      invariant i <= |cols| && stack.Valid()
      invariant AllSound(PruneColumns(s, t, cols, i))
      invariant After(Now(out, stack), PruneColumns(s, t, cols, i)) == goal
      invariant RoomColumns(s, t, cols, i, |Now(out, stack).pending|) == room
    {
      hide After, Flushed, PruneAll, PruneColumns, RoomAll, RoomColumns, AllSound, AllTyped;
      var f := FieldAt(s, t, i);
      ghost var before := Now(out, stack);
      ColumnThenRest(s, t, cols, i, before);
      ok := MarshalAll(out, s, f.num, f.kind, cols[i], stack);
      if !ok {
        return;
      }
      assert Now(out, stack) == After(before, PruneAll(s, f.num, f.kind, cols[i]));
      i := i + 1;
    }
    AfterNothing(Now(out, stack));
    ok := true;
  }

  /** The whole encoding of a top-level message. */
  function Encode(s: Schema, t: nat, v: Value): seq<Byte>
    requires t < |s| && Typed(s, Message(t), v)
  {
    PrunedAwayExactlyWhenDefault(s, t, v);
    Print(PruneMessage(s, t, v)) + [END_BYTE]
  }

  /** `marshal`: a fresh stack, the fields, and the closing end tag. */
  method Marshal(out: Output, s: Schema, t: nat, v: Value) returns (ok: bool)
    requires t < |s| && Typed(s, Message(t), v)
    modifies out
    ensures ok == RoomColumns(s, t, v.cols, 0, 0)
    ensures ok ==> out.bytes == old(out.bytes) + Encode(s, t, v)
  {
    var stack := new Stack();
    ok := MarshalColumns(out, s, t, v.cols, stack);
    if ok {
      assert Flushed([], PruneMessage(s, t, v)) == Print(PruneMessage(s, t, v));
      out.Write([END_BYTE]);
      assert out.bytes == old(out.bytes) + Encode(s, t, v);
    }
  }

  // ---- how deep a message may be ----

  function Max(a: nat, b: nat): nat {
    if a > b then a else b
  }

  /** How many messages deep a value is, counting those with nothing in them. */
  function Nest(s: Schema, k: Kind, v: Value): nat
    requires Known(s, k) && Typed(s, k, v)
    decreases Rank(k), 0
  {
    if k.Message? then 1 + NestColumns(s, k.ty, v.cols, 0) else 0
  }

  function NestAll(s: Schema, k: Kind, vals: seq<Value>): nat
    requires Known(s, k) && AllTyped(s, k, vals)
    decreases Rank(k), 1, |vals|
  {
    if vals == [] then 0 else Max(Nest(s, k, vals[0]), NestAll(s, k, vals[1..]))
  }

  function NestColumns(s: Schema, t: nat, cols: seq<seq<Value>>, i: nat): nat
    requires t < |s| && ColumnsTyped(s, t, cols) && i <= |cols|
    decreases t, 2, |cols| - i
  {
    if i == |cols| then 0
    else
      assert ColumnTyped(s, FieldAt(s, t, i), cols[i]);
      Max(NestAll(s, FieldAt(s, t, i).kind, cols[i]), NestColumns(s, t, cols, i + 1))
  }

  lemma {:induction false} RoomForNest(s: Schema, k: Kind, v: Value, pending: nat)
    requires Known(s, k) && Typed(s, k, v) && pending <= MAX_NESTING
    ensures pending + Nest(s, k, v) <= MAX_NESTING ==> Room(s, k, v, pending)
    ensures IsDefault(s, k, v) && Room(s, k, v, pending) ==> pending + Nest(s, k, v) <= MAX_NESTING
    decreases Rank(k), 0
  {
    if k.Message? && pending < MAX_NESTING {
      RoomForNestColumns(s, k.ty, v.cols, 0, pending + 1);
    }
  }

  lemma {:induction false} RoomForNestAll(s: Schema, k: Kind, vals: seq<Value>, pending: nat)
    requires Known(s, k) && AllTyped(s, k, vals) && pending <= MAX_NESTING
    ensures pending + NestAll(s, k, vals) <= MAX_NESTING ==> RoomAll(s, k, vals, pending)
    ensures AllDefault(s, k, vals) && RoomAll(s, k, vals, pending) ==> pending + NestAll(s, k, vals) <= MAX_NESTING
    decreases Rank(k), 1, |vals|
  {
    if vals != [] {
      RoomForNest(s, k, vals[0], pending);
      RoomForNestAll(s, k, vals[1..], if IsDefault(s, k, vals[0]) then pending else 0);
    }
  }

  lemma {:induction false} RoomForNestColumns(s: Schema, t: nat, cols: seq<seq<Value>>, i: nat, pending: nat)
    requires t < |s| && ColumnsTyped(s, t, cols) && i <= |cols| && pending <= MAX_NESTING
    ensures pending + NestColumns(s, t, cols, i) <= MAX_NESTING ==> RoomColumns(s, t, cols, i, pending)
    ensures ColumnsDefault(s, t, cols) && RoomColumns(s, t, cols, i, pending) ==>
              pending + NestColumns(s, t, cols, i) <= MAX_NESTING
    decreases t, 2, |cols| - i
  {
    if i < |cols| {
      var f := FieldAt(s, t, i);
      assert ColumnTyped(s, f, cols[i]);
      RoomForNestAll(s, f.kind, cols[i], pending);
      RoomForNestColumns(s, t, cols, i + 1, if AllDefault(s, f.kind, cols[i]) then pending else 0);
    }
  }

  /** A message with submessages at most 128 deep is always encoded; one with nothing in it is encoded only then. */
  lemma NestingBound(s: Schema, t: nat, v: Value)
    requires t < |s| && Typed(s, Message(t), v)
    ensures Nest(s, Message(t), v) <= 129 ==> RoomColumns(s, t, v.cols, 0, 0)
    ensures Hollow(s, Message(t), v) ==> (RoomColumns(s, t, v.cols, 0, 0) <==> Nest(s, Message(t), v) <= 129)
  {
    RoomForNestColumns(s, t, v.cols, 0, 0);
    DefaultExactlyWhenHollow(s, Message(t), v);
  }

  /** As messages only refer to earlier ones, a message is at most as deep as the number of types up to its own. */
  lemma {:induction false} NestRank(s: Schema, k: Kind, v: Value)
    requires Known(s, k) && Typed(s, k, v)
    ensures Nest(s, k, v) <= Rank(k)
    decreases Rank(k), 0
  {
    if k.Message? {
      NestColumnsRank(s, k.ty, v.cols, 0);
    }
  }

  lemma {:induction false} NestAllRank(s: Schema, k: Kind, vals: seq<Value>)
    requires Known(s, k) && AllTyped(s, k, vals)
    ensures NestAll(s, k, vals) <= Rank(k)
    decreases Rank(k), 1, |vals|
  {
    if vals != [] {
      NestRank(s, k, vals[0]);
      NestAllRank(s, k, vals[1..]);
    }
  }

  lemma {:induction false} NestColumnsRank(s: Schema, t: nat, cols: seq<seq<Value>>, i: nat)
    requires t < |s| && ColumnsTyped(s, t, cols) && i <= |cols|
    ensures NestColumns(s, t, cols, i) <= t
    decreases t, 2, |cols| - i
  {
    if i < |cols| {
      var f := FieldAt(s, t, i);
      assert ColumnTyped(s, f, cols[i]);
      NestAllRank(s, f.kind, cols[i]);
      NestColumnsRank(s, t, cols, i + 1);
    }
  }
}
