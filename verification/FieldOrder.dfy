/** The order in which the fields of a message arrive does not matter, apart from the order within one repeated field.
    */
module FieldOrder {
  import opened Wire
  import opened Schemas
  import opened Items
  import opened Decoder
  import opened RoundTrip
  import opened Evolution

  function ItemSize(item: Item): (n: nat)
    ensures n >= 1
    decreases item, 0
  {
    match item
    case Leaf(_, _, _) => 1
    case Group(_, items) => 1 + Size(items)
  }

  function Size(items: seq<Item>): nat
    decreases items, 1
  {
    if items == [] then 0 else ItemSize(items[0]) + Size(items[1..])
  }

  /** The occurrences of one field, in order of arrival. */
  function Occurrences(items: seq<Item>, num: int): (o: seq<Item>)
    ensures Size(o) <= Size(items)
    ensures forall i :: 0 <= i < |o| ==> o[i].num == num
  {
    if items == [] then []
    else if items[0].num == num then [items[0]] + Occurrences(items[1..], num)
    else Occurrences(items[1..], num)
  }

  /** The same fields, each with the same occurrences in the same order, interleaved in any way at every level. A string
      may come from a field of another capacity. */
  ghost predicate Reordered(a: seq<Item>, b: seq<Item>)
    decreases Size(a), 2
  {
    forall num: int :: SameList(Occurrences(a, num), Occurrences(b, num))
  }

  ghost predicate SameList(x: seq<Item>, y: seq<Item>)
    decreases Size(x), 1
  {
    if x == [] then y == []
    else y != [] && SameItem(x[0], y[0]) && SameList(x[1..], y[1..])
  }

  ghost predicate SameItem(x: Item, y: Item)
    decreases ItemSize(x), 0
  {
    match x
    case Leaf(num, k, v) => y.Leaf? && y.num == num && y.value == v && Agree(k, y.kind)
    case Group(num, items) => y.Group? && y.num == num && Reordered(items, y.items)
  }

  lemma {:induction false} FitsOccurrences(r: Schema, t: nat, items: seq<Item>, num: int)
    requires t < |r| && Fits(r, t, items)
    ensures Fits(r, t, Occurrences(items, num))
    decreases |items|
  {
    if items != [] {
      FitsOccurrences(r, t, items[1..], num);
      if items[0].num == num {
        assert Occurrences(items, num)[1..] == Occurrences(items[1..], num);
      }
    }
  }

  /** A column depends only on the occurrences of its own field. */
  lemma {:induction false} ColumnOccurrences(r: Schema, t: nat, i: nat, col: seq<Value>, items: seq<Item>)
    requires t < |r| && i < |r[t]| && Fits(r, t, items)
    requires Fits(r, t, Occurrences(items, FieldAt(r, t, i).num))
    ensures Column(r, t, i, col, items) == Column(r, t, i, col, Occurrences(items, FieldAt(r, t, i).num))
    decreases |items|
  {
    if items != [] {
      var f := FieldAt(r, t, i);
      FindAt(r, t, i);
      FitsOccurrences(r, t, items[1..], f.num);
      if items[0].num == f.num {
        assert Occurrences(items, f.num)[1..] == Occurrences(items[1..], f.num);
        ColumnOccurrences(r, t, i, Store(f, col, ItemValue(r, f.kind, items[0])), items[1..]);
      } else {
        ColumnOccurrences(r, t, i, col, items[1..]);
      }
    }
  }

  lemma {:induction false} ReorderedFold(r: Schema, t: nat, cols: seq<seq<Value>>, a: seq<Item>, b: seq<Item>)
    requires t < |r| && |cols| == |r[t]| && Fits(r, t, a) && Fits(r, t, b) && Reordered(a, b)
    ensures Fold(r, t, cols, a) == Fold(r, t, cols, b)
    decreases Size(a), 2
  {
    forall i | 0 <= i < |r[t]|
      ensures Fold(r, t, cols, a)[i] == Fold(r, t, cols, b)[i]
    {
      var num := FieldAt(r, t, i).num;
      FoldColumn(r, t, i, cols, a);
      FoldColumn(r, t, i, cols, b);
      FitsOccurrences(r, t, a, num);
      FitsOccurrences(r, t, b, num);
      ColumnOccurrences(r, t, i, cols[i], a);
      ColumnOccurrences(r, t, i, cols[i], b);
      SameListColumn(r, t, i, cols[i], Occurrences(a, num), Occurrences(b, num));
    }
  }

  lemma {:induction false} SameListColumn(r: Schema, t: nat, i: nat, col: seq<Value>, x: seq<Item>, y: seq<Item>)
    requires t < |r| && i < |r[t]| && Fits(r, t, x) && Fits(r, t, y) && SameList(x, y)
    ensures Column(r, t, i, col, x) == Column(r, t, i, col, y)
    decreases Size(x), 1
  {
    if x != [] {
      assert Size(x) == ItemSize(x[0]) + Size(x[1..]);
      var f := FieldAt(r, t, i);
      FindAt(r, t, i);
      if x[0].num == f.num {
        assert ItemFits(r, t, x[0]) && ItemFits(r, t, y[0]);
        SameItemValue(r, f.kind, x[0], y[0]);
        SameListColumn(r, t, i, Store(f, col, ItemValue(r, f.kind, x[0])), x[1..], y[1..]);
      } else {
        SameListColumn(r, t, i, col, x[1..], y[1..]);
      }
    }
  }

  lemma {:induction false} SameItemValue(r: Schema, k: Kind, x: Item, y: Item)
    requires Known(r, k) && SameItem(x, y) && Carries(r, k, x) && Carries(r, k, y)
    ensures ItemValue(r, k, x) == ItemValue(r, k, y)
    decreases ItemSize(x), 0
  {
    if x.Group? {
      ReorderedFold(r, k.ty, DefaultColumns(r, k.ty), x.items, y.items);
    }
  }

  // ---- depth is unaffected ----

  lemma {:induction false} OccurrencesDepth(items: seq<Item>, num: int)
    ensures Depth(Occurrences(items, num)) <= Depth(items)
  {
    if items != [] {
      OccurrencesDepth(items[1..], num);
      if items[0].num == num {
        assert Occurrences(items, num)[1..] == Occurrences(items[1..], num);
      }
    }
  }

  lemma {:induction false} DepthByField(items: seq<Item>, bound: nat)
    requires forall num: int :: Depth(Occurrences(items, num)) <= bound
    ensures Depth(items) <= bound
  {
    if items != [] {
      forall num: int ensures Depth(Occurrences(items[1..], num)) <= bound {
        if items[0].num == num {
          assert Occurrences(items, num)[1..] == Occurrences(items[1..], num);
        }
        assert Depth(Occurrences(items, num)) <= bound;
      }
      DepthByField(items[1..], bound);
      assert Depth(Occurrences(items, items[0].num)) <= bound;
    }
  }

  lemma {:induction false} ReorderedDepth(a: seq<Item>, b: seq<Item>)
    requires Reordered(a, b)
    ensures Depth(a) == Depth(b)
    decreases Size(a), 2
  {
    forall num: int
      ensures Depth(Occurrences(a, num)) == Depth(Occurrences(b, num))
      ensures Depth(Occurrences(a, num)) <= Depth(a) && Depth(Occurrences(b, num)) <= Depth(b)
    {
      SameListDepth(Occurrences(a, num), Occurrences(b, num));
      OccurrencesDepth(a, num);
      OccurrencesDepth(b, num);
    }
    DepthByField(a, Depth(b));
    DepthByField(b, Depth(a));
  }

  lemma {:induction false} SameListDepth(x: seq<Item>, y: seq<Item>)
    requires SameList(x, y)
    ensures Depth(x) == Depth(y)
    decreases Size(x), 1
  {
    if x != [] {
      assert Size(x) == ItemSize(x[0]) + Size(x[1..]);
      if x[0].Group? {
        ReorderedDepth(x[0].items, y[0].items);
      }
      SameListDepth(x[1..], y[1..]);
    }
  }

  // ---- neither is whether all strings fit ----

  lemma {:induction false} OccurrencesWithin(r: Schema, t: nat, items: seq<Item>, num: int)
    requires t < |r| && Fits(r, t, items) && Within(r, t, items)
    ensures Fits(r, t, Occurrences(items, num)) && Within(r, t, Occurrences(items, num))
    decreases |items|
  {
    if items != [] {
      OccurrencesWithin(r, t, items[1..], num);
      if items[0].num == num {
        assert Occurrences(items, num)[1..] == Occurrences(items[1..], num);
      }
    }
  }

  predicate FieldWithin(r: Schema, t: nat, items: seq<Item>, num: int)
    requires t < |r|
  {
    Fits(r, t, Occurrences(items, num)) && Within(r, t, Occurrences(items, num))
  }

  lemma {:induction false} WithinByField(r: Schema, t: nat, items: seq<Item>)
    requires t < |r| && Fits(r, t, items) && forall num: int :: FieldWithin(r, t, items, num)
    ensures Within(r, t, items)
    decreases |items|
  {
    if items != [] {
      forall num: int ensures FieldWithin(r, t, items[1..], num) {
        assert FieldWithin(r, t, items, num);
        if items[0].num == num {
          assert Occurrences(items, num)[1..] == Occurrences(items[1..], num);
        }
      }
      WithinByField(r, t, items[1..]);
      assert FieldWithin(r, t, items, items[0].num);
    }
  }

  lemma {:induction false} ReorderedWithin(r: Schema, t: nat, a: seq<Item>, b: seq<Item>)
    requires t < |r| && Fits(r, t, a) && Fits(r, t, b) && Reordered(a, b) && Within(r, t, a)
    ensures Within(r, t, b)
    decreases Size(a), 2
  {
    forall num: int ensures FieldWithin(r, t, b, num) {
      OccurrencesWithin(r, t, a, num);
      FitsOccurrences(r, t, b, num);
      SameListWithin(r, t, Occurrences(a, num), Occurrences(b, num));
    }
    WithinByField(r, t, b);
  }

  lemma {:induction false} SameListWithin(r: Schema, t: nat, x: seq<Item>, y: seq<Item>)
    requires t < |r| && Fits(r, t, x) && Fits(r, t, y) && SameList(x, y) && Within(r, t, x)
    ensures Within(r, t, y)
    decreases Size(x), 1
  {
    if x != [] {
      assert Size(x) == ItemSize(x[0]) + Size(x[1..]);
      SameItemWithin(r, t, x[0], y[0]);
      SameListWithin(r, t, x[1..], y[1..]);
    }
  }

  lemma {:induction false} SameItemWithin(r: Schema, t: nat, x: Item, y: Item)
    requires t < |r| && ItemFits(r, t, x) && ItemFits(r, t, y) && SameItem(x, y) && ItemWithin(r, t, x)
    ensures ItemWithin(r, t, y)
    decreases ItemSize(x), 0
  {
    assert x.num == y.num;
    match Find(r[t], x.num)
    case None =>
    case Some(i) =>
      assert Carries(r, FieldAt(r, t, i).kind, x) && Carries(r, FieldAt(r, t, i).kind, y);
      assert CarriedWithin(r, FieldAt(r, t, i).kind, x);
      if x.Group? {
        ReorderedWithin(r, FieldAt(r, t, i).kind.ty, x.items, y.items);
      }
  }

  lemma {:induction false} ReorderedBack(a: seq<Item>, b: seq<Item>)
    requires Reordered(a, b)
    ensures Reordered(b, a)
    decreases Size(a), 2
  {
    forall num: int ensures SameList(Occurrences(b, num), Occurrences(a, num)) {
      assert SameList(Occurrences(a, num), Occurrences(b, num));
      SameListBack(Occurrences(a, num), Occurrences(b, num));
    }
  }

  lemma {:induction false} SameListBack(x: seq<Item>, y: seq<Item>)
    requires SameList(x, y)
    ensures SameList(y, x)
    decreases Size(x), 1
  {
    if x != [] {
      assert Size(x) == ItemSize(x[0]) + Size(x[1..]);
      if x[0].Group? {
        ReorderedBack(x[0].items, y[0].items);
      }
      SameListBack(x[1..], y[1..]);
    }
  }

  /** Two encodings that interleave the same fields differently decode to the same message and stop at the same place,
      or both fail. */
  lemma OrderIndependence(r: Schema, t: nat, a: seq<Item>, b: seq<Item>, rest: seq<Byte>)
    requires t < |r| && Fits(r, t, a) && Fits(r, t, b) && AllSound(a) && AllSound(b) && Reordered(a, b)
    ensures Decode(r, t, Print(a) + ([END_BYTE] + rest)) == Decode(r, t, Print(b) + ([END_BYTE] + rest))
  {
    DecodePrinted(r, t, DefaultColumns(r, t), a, MAX_NESTING, rest);
    DecodePrinted(r, t, DefaultColumns(r, t), b, MAX_NESTING, rest);
    ReorderedFold(r, t, DefaultColumns(r, t), a, b);
    ReorderedDepth(a, b);
    ReorderedBack(a, b);
    if Within(r, t, a) {
      ReorderedWithin(r, t, a, b);
    } else if Within(r, t, b) {
      ReorderedWithin(r, t, b, a);
    }
  }
}
