/** The simple two-step encoding: drop what the encoder leaves out, then print the remaining tree. */
module Items {
  import opened Wire
  import opened Schemas

  /** What appears on the wire for one field occurrence. */
  datatype Item = Leaf(num: int, kind: Kind, value: Value) | Group(num: int, items: seq<Item>)

  // ---- dropping default values ----

  function Prune(s: Schema, num: int, k: Kind, v: Value): seq<Item>
    requires Known(s, k) && Typed(s, k, v)
    decreases Rank(k), 0
  {
    if k.Message? then
      var items := PruneColumns(s, k.ty, v.cols, 0);
      if items == [] then [] else [Group(num, items)]
    else if IsZero(k, v) then [] else [Leaf(num, k, v)]
  }

  function PruneAll(s: Schema, num: int, k: Kind, vals: seq<Value>): seq<Item>
    requires Known(s, k) && AllTyped(s, k, vals)
    decreases Rank(k), 1, |vals|
  {
    if vals == [] then [] else Prune(s, num, k, vals[0]) + PruneAll(s, num, k, vals[1..])
  }

  /** The items of the columns from the `i`-th on, in declaration order. */
  function PruneColumns(s: Schema, t: nat, cols: seq<seq<Value>>, i: nat): seq<Item>
    requires t < |s| && ColumnsTyped(s, t, cols) && i <= |cols|
    decreases t, 2, |cols| - i
  {
    if i == |cols| then []
    else
      var f := FieldAt(s, t, i);
      assert ColumnTyped(s, f, cols[i]);
      PruneAll(s, f.num, f.kind, cols[i]) + PruneColumns(s, t, cols, i + 1)
  }

  function PruneMessage(s: Schema, t: nat, v: Value): seq<Item>
    requires t < |s| && Typed(s, Message(t), v)
  {
    PruneColumns(s, t, v.cols, 0)
  }

  // ---- printing ----

  function WireOf(k: Kind): WireType
    requires !k.Message?
  {
    match k
    case Float32 => I32Type
    case Float64 => I64Type
    case Bytes(_) => LenType
    case Text => LenType
    case _ => VarIntType
  }

  function Payload(k: Kind, v: Value): seq<Byte>
    requires !k.Message? && ScalarOk(k, v)
  {
    match k
    case Int32 => Varint(ZigZag(v.n))
    case Int64 => Varint(ZigZag(v.n))
    case Uint32 => Varint(v.n)
    case Uint64 => Varint(v.n)
    case Bool => [v.n as Byte]
    case Float32 => Fixed(v.n, 4)
    case Float64 => Fixed(v.n, 8)
    case Bytes(_) => Varint(|v.bs|) + v.bs
    case Text => Varint(|v.bs|) + v.bs
  }

  /** Items whose tags and payloads fit the wire. */
  predicate Sound(item: Item)
    decreases item, 0
  {
    && 0 < item.num < FIELD_LIMIT
    && match item
       case Leaf(_, k, v) => !k.Message? && ScalarOk(k, v)
       case Group(_, items) => AllSound(items)
  }

  predicate AllSound(items: seq<Item>)
    decreases items, 1
  {
    items == [] || (Sound(items[0]) && AllSound(items[1..]))
  }

  function PrintItem(item: Item): (bs: seq<Byte>)
    requires Sound(item)
    ensures |bs| >= 1
    decreases item, 0
  {
    match item
    case Leaf(num, k, v) => TagBytes(num, WireOf(k)) + Payload(k, v)
    case Group(num, items) => TagBytes(num, StartType) + Print(items) + [END_BYTE]
  }

  function Print(items: seq<Item>): seq<Byte>
    requires AllSound(items)
    decreases items, 1
  {
    if items == [] then [] else PrintItem(items[0]) + Print(items[1..])
  }

  lemma {:induction false} PrintConcat(a: seq<Item>, b: seq<Item>)
    requires AllSound(a) && AllSound(b)
    ensures AllSound(a + b) && Print(a + b) == Print(a) + Print(b)
  {
    if a == [] {
      assert a + b == b;
    } else {
      assert (a + b)[1..] == a[1..] + b;
      PrintConcat(a[1..], b);
      Regroup(PrintItem(a[0]), Print(a[1..]), Print(b));
    }
  }

  lemma PrintOne(item: Item)
    requires Sound(item)
    ensures AllSound([item]) && Print([item]) == PrintItem(item)
  {
    assert [item][1..] == [];
    assert PrintItem(item) + [] == PrintItem(item);
  }

  // ---- nesting ----

  function ItemDepth(item: Item): nat
    decreases item, 0
  {
    match item
    case Leaf(_, _, _) => 0
    case Group(_, items) => 1 + Depth(items)
  }

  /** How deeply groups are nested in what is printed. */
  function Depth(items: seq<Item>): nat
    decreases items, 1
  {
    if items == [] then 0
    else
      var (a, b) := (ItemDepth(items[0]), Depth(items[1..]));
      if a > b then a else b
  }

  lemma {:induction false} DepthConcat(a: seq<Item>, b: seq<Item>)
    ensures Depth(a + b) == if Depth(a) > Depth(b) then Depth(a) else Depth(b)
  {
    if a == [] {
      assert a + b == b;
    } else {
      assert (a + b)[1..] == a[1..] + b;
      DepthConcat(a[1..], b);
    }
  }

  // ---- what pruning produces ----

  lemma {:induction false} PruneSound(s: Schema, num: int, k: Kind, v: Value)
    requires Known(s, k) && Typed(s, k, v) && 0 < num < FIELD_LIMIT
    ensures AllSound(Prune(s, num, k, v))
    ensures Prune(s, num, k, v) == [] <==> IsDefault(s, k, v)
    decreases Rank(k), 0
  {
    if k.Message? {
      PruneColumnsSound(s, k.ty, v.cols, 0);
      PrintOne(Group(num, PruneColumns(s, k.ty, v.cols, 0)));
    } else if !IsZero(k, v) {
      PrintOne(Leaf(num, k, v));
    }
  }

  lemma {:induction false} PruneAllSound(s: Schema, num: int, k: Kind, vals: seq<Value>)
    requires Known(s, k) && AllTyped(s, k, vals) && 0 < num < FIELD_LIMIT
    ensures AllSound(PruneAll(s, num, k, vals))
    ensures PruneAll(s, num, k, vals) == [] <==> AllDefault(s, k, vals)
    decreases Rank(k), 1, |vals|
  {
    if vals != [] {
      PruneSound(s, num, k, vals[0]);
      PruneAllSound(s, num, k, vals[1..]);
      PrintConcat(Prune(s, num, k, vals[0]), PruneAll(s, num, k, vals[1..]));
    }
  }

  lemma {:induction false} PruneColumnsSound(s: Schema, t: nat, cols: seq<seq<Value>>, i: nat)
    requires t < |s| && ColumnsTyped(s, t, cols) && i <= |cols|
    ensures AllSound(PruneColumns(s, t, cols, i))
    ensures PruneColumns(s, t, cols, i) == [] <==>
            forall j :: i <= j < |cols| ==>
              ColumnTyped(s, FieldAt(s, t, j), cols[j]) && AllDefault(s, FieldAt(s, t, j).kind, cols[j])
    decreases t, 2, |cols| - i
  {
    if i < |cols| {
      var f := FieldAt(s, t, i);
      assert ColumnTyped(s, f, cols[i]);
      PruneAllSound(s, f.num, f.kind, cols[i]);
      PruneColumnsSound(s, t, cols, i + 1);
      PrintConcat(PruneAll(s, f.num, f.kind, cols[i]), PruneColumns(s, t, cols, i + 1));
    }
  }

  /** A message leaves bytes exactly when something in it differs from its default. */
  lemma PrunedAwayExactlyWhenDefault(s: Schema, t: nat, v: Value)
    requires t < |s| && Typed(s, Message(t), v)
    ensures AllSound(PruneMessage(s, t, v))
    ensures PruneMessage(s, t, v) == [] <==> IsDefault(s, Message(t), v)
    ensures PruneMessage(s, t, v) == [] <==> Hollow(s, Message(t), v)
  {
    PruneColumnsSound(s, t, v.cols, 0);
    DefaultExactlyWhenHollow(s, Message(t), v);
  }
}
