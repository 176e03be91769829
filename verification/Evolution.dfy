/** What a reader recovers from an encoding, when its schema may differ from the writer's. */
module Evolution {
  import opened Wire
  import opened Schemas
  import opened Items
  import opened Decoder
  import opened RoundTrip
  import opened Encoder

  // ---- one column at a time ----

  /** What folding does to the column of the `i`-th field. */
  function Column(r: Schema, t: nat, i: nat, col: seq<Value>, items: seq<Item>): seq<Value>
    requires t < |r| && i < |r[t]| && Fits(r, t, items)
    decreases |items|
  {
    if items == [] then col
    else
      assert ItemFits(r, t, items[0]);
      FindAt(r, t, i);
      var f := FieldAt(r, t, i);
      var col' := if items[0].num == f.num then Store(f, col, ItemValue(r, f.kind, items[0])) else col;
      Column(r, t, i, col', items[1..])
  }

  lemma {:induction false} FoldColumn(r: Schema, t: nat, i: nat, cols: seq<seq<Value>>, items: seq<Item>)
    requires t < |r| && |cols| == |r[t]| && i < |r[t]| && Fits(r, t, items)
    ensures Fold(r, t, cols, items)[i] == Column(r, t, i, cols[i], items)
    decreases |items|
  {
    if items != [] {
      FindAt(r, t, i);
      FoldColumn(r, t, i, Step(r, t, cols, items[0]), items[1..]);
    }
  }

  lemma {:induction false} FitsConcat(r: Schema, t: nat, a: seq<Item>, b: seq<Item>)
    requires t < |r| && Fits(r, t, a) && Fits(r, t, b)
    ensures Fits(r, t, a + b)
  {
    if a == [] {
      assert a + b == b;
    } else {
      assert (a + b)[1..] == a[1..] + b;
      FitsConcat(r, t, a[1..], b);
    }
  }

  lemma {:induction false} ColumnConcat(r: Schema, t: nat, i: nat, col: seq<Value>, a: seq<Item>, b: seq<Item>)
    requires t < |r| && i < |r[t]| && Fits(r, t, a) && Fits(r, t, b)
    ensures Fits(r, t, a + b)
    ensures Column(r, t, i, col, a + b) == Column(r, t, i, Column(r, t, i, col, a), b)
    decreases |a|
  {
    FitsConcat(r, t, a, b);
    if a == [] {
      assert a + b == b;
    } else {
      assert (a + b)[1..] == a[1..] + b;
      FindAt(r, t, i);
      var f := FieldAt(r, t, i);
      var col' := if a[0].num == f.num then Store(f, col, ItemValue(r, f.kind, a[0])) else col;
      ColumnConcat(r, t, i, col', a[1..], b);
    }
  }

  lemma OneItem(r: Schema, t: nat, i: nat, col: seq<Value>, items: seq<Item>)
    requires t < |r| && i < |r[t]| && |items| == 1 && Sound(items[0])
    requires items[0].num == FieldAt(r, t, i).num && Carries(r, FieldAt(r, t, i).kind, items[0])
    ensures Fits(r, t, items)
    ensures Column(r, t, i, col, items) == Store(FieldAt(r, t, i), col, ItemValue(r, FieldAt(r, t, i).kind, items[0]))
  {
    FindAt(r, t, i);
    assert items[1..] == [];
    assert ItemFits(r, t, items[0]);
  }

  // ---- a value and the items it leaves ----

  /** Field `i` of the reader has the number of field `j` of the writer. */
  predicate Shared(w: Schema, r: Schema, t: nat, i: nat, j: nat) {
    t < |w| && t < |r| && i < |r[t]| && j < |w[t]| && FieldAt(r, t, i).num == FieldAt(w, t, j).num
  }

  lemma {:induction false} PruneConvert(w: Schema, r: Schema, num: int, k: Kind, c: Kind, v: Value)
    requires Compatible(w, r) && Known(w, k) && Agree(k, c) && Typed(w, k, v) && 0 < num < FIELD_LIMIT
    ensures var items := Prune(w, num, k, v);
            if IsDefault(w, k, v) then items == [] && Convert(w, r, k, v) == Default(r, c)
            else
              && |items| == 1 && items[0].num == num && Sound(items[0]) && Carries(r, c, items[0])
              && ItemValue(r, c, items[0]) == Convert(w, r, k, v)
    decreases Rank(k), 0
  {
    PruneSound(w, num, k, v);
    if k.Message? {
      ColumnsConvert(w, r, k.ty, v.cols);
    }
  }

  lemma {:induction false} AllConvert(w: Schema, r: Schema, t: nat, i: nat, j: nat, col: seq<Value>, vals: seq<Value>)
    requires Compatible(w, r) && Shared(w, r, t, i, j) && AllTyped(w, FieldAt(w, t, j).kind, vals)
    requires FieldAt(r, t, i).repeated
    ensures var f := FieldAt(w, t, j);
            && Fits(r, t, PruneAll(w, f.num, f.kind, vals))
            && Column(r, t, i, col, PruneAll(w, f.num, f.kind, vals)) == col + ConvertAll(w, r, f.kind, vals)
    decreases t, 1, |vals|
  {
    if vals != [] {
      var f := FieldAt(w, t, j);
      var items := Prune(w, f.num, f.kind, vals[0]);
      PruneConvert(w, r, f.num, f.kind, FieldAt(r, t, i).kind, vals[0]);
      FindAt(r, t, i);
      var c := if IsDefault(w, f.kind, vals[0]) then [] else [Convert(w, r, f.kind, vals[0])];
      AllConvert(w, r, t, i, j, col + c, vals[1..]);
      if items != [] {
        OneItem(r, t, i, col, items);
      } else {
        assert col + [] == col;
      }
      ColumnConcat(r, t, i, col, items, PruneAll(w, f.num, f.kind, vals[1..]));
      Regroup(col, c, ConvertAll(w, r, f.kind, vals[1..]));
    }
  }

  /** The items of one of the writer's fields fit the reader's schema, whether or not it knows the field. */
  lemma {:induction false} PrunedFits(w: Schema, r: Schema, t: nat, j: nat, v: Value)
    requires Compatible(w, r) && t < |w| && j < |w[t]| && Typed(w, FieldAt(w, t, j).kind, v)
    ensures var f := FieldAt(w, t, j);
            var items := Prune(w, f.num, f.kind, v);
            |items| <= 1 && Fits(r, t, items) && (items != [] ==> items[0].num == f.num)
    decreases t, 1, 0
  {
    var f := FieldAt(w, t, j);
    var i := Find(r[t], f.num);
    PruneConvert(w, r, f.num, f.kind, if i.Some? then FieldAt(r, t, i.value).kind else f.kind, v);
    var items := Prune(w, f.num, f.kind, v);
    if items != [] {
      assert ItemFits(r, t, items[0]) && Fits(r, t, items[1..]);
    }
  }

  lemma {:induction false} AllFit(w: Schema, r: Schema, t: nat, j: nat, vals: seq<Value>)
    requires Compatible(w, r) && t < |w| && j < |w[t]| && AllTyped(w, FieldAt(w, t, j).kind, vals)
    ensures Fits(r, t, PruneAll(w, FieldAt(w, t, j).num, FieldAt(w, t, j).kind, vals))
    decreases t, 1, |vals|
  {
    if vals != [] {
      var f := FieldAt(w, t, j);
      PrunedFits(w, r, t, j, vals[0]);
      AllFit(w, r, t, j, vals[1..]);
      FitsConcat(r, t, Prune(w, f.num, f.kind, vals[0]), PruneAll(w, f.num, f.kind, vals[1..]));
    }
  }

  /** Items of another field leave a column alone. */
  lemma {:induction false} OtherFieldSilent(
      w: Schema, r: Schema, t: nat, i: nat, j: nat, col: seq<Value>, vals: seq<Value>)
    requires Compatible(w, r) && t < |w| && j < |w[t]| && i < |r[t]| && AllTyped(w, FieldAt(w, t, j).kind, vals)
    requires FieldAt(r, t, i).num != FieldAt(w, t, j).num
    requires Fits(r, t, PruneAll(w, FieldAt(w, t, j).num, FieldAt(w, t, j).kind, vals))
    ensures Column(r, t, i, col, PruneAll(w, FieldAt(w, t, j).num, FieldAt(w, t, j).kind, vals)) == col
    decreases t, 1, |vals|
  {
    if vals != [] {
      var f := FieldAt(w, t, j);
      var items := Prune(w, f.num, f.kind, vals[0]);
      PrunedFits(w, r, t, j, vals[0]);
      AllFit(w, r, t, j, vals[1..]);
      OtherFieldSilent(w, r, t, i, j, col, vals[1..]);
      if items == [] {
        assert PruneAll(w, f.num, f.kind, vals) == PruneAll(w, f.num, f.kind, vals[1..]);
      } else {
        assert PruneAll(w, f.num, f.kind, vals)[1..] == PruneAll(w, f.num, f.kind, vals[1..]);
      }
    }
  }

  /** Reading one field's items onto its default column. */
  lemma {:induction false} FieldConvert(w: Schema, r: Schema, t: nat, i: nat, j: nat, vals: seq<Value>)
    requires Compatible(w, r) && Shared(w, r, t, i, j) && ColumnTyped(w, FieldAt(w, t, j), vals)
    ensures var f := FieldAt(w, t, j);
            && Fits(r, t, PruneAll(w, f.num, f.kind, vals))
            && Column(r, t, i, DefaultColumn(r, FieldAt(r, t, i)), PruneAll(w, f.num, f.kind, vals)) ==
               ConvertField(w, r, f, vals)
    decreases t, 2
  {
    var f := FieldAt(w, t, j);
    var g := FieldAt(r, t, i);
    if f.repeated {
      AllConvert(w, r, t, i, j, [], vals);
    } else {
      assert vals[1..] == [];
      var items := Prune(w, f.num, f.kind, vals[0]);
      assert PruneAll(w, f.num, f.kind, vals) == items + [] == items;
      PruneConvert(w, r, f.num, f.kind, g.kind, vals[0]);
      if items != [] {
        OneItem(r, t, i, DefaultColumn(r, g), items);
      }
    }
  }

  // ---- a whole message ----

  lemma {:induction false} ColumnsFit(w: Schema, r: Schema, t: nat, cols: seq<seq<Value>>, j: nat)
    requires Compatible(w, r) && t < |w| && ColumnsTyped(w, t, cols) && j <= |cols|
    ensures Fits(r, t, PruneColumns(w, t, cols, j))
    decreases t, 2, |cols| - j
  {
    if j < |cols| {
      var f := FieldAt(w, t, j);
      assert ColumnTyped(w, f, cols[j]);
      AllFit(w, r, t, j, cols[j]);
      ColumnsFit(w, r, t, cols, j + 1);
      FitsConcat(r, t, PruneAll(w, f.num, f.kind, cols[j]), PruneColumns(w, t, cols, j + 1));
    }
  }

  lemma {:induction false} LaterFieldsSilent(
      w: Schema, r: Schema, t: nat, i: nat, col: seq<Value>, cols: seq<seq<Value>>, j: nat)
    requires Compatible(w, r) && t < |w| && ColumnsTyped(w, t, cols) && j <= |cols| && i < |r[t]|
    requires forall m :: j <= m < |cols| ==> FieldAt(w, t, m).num != FieldAt(r, t, i).num
    requires Fits(r, t, PruneColumns(w, t, cols, j))
    ensures Column(r, t, i, col, PruneColumns(w, t, cols, j)) == col
    decreases t, 3, |cols| - j
  {
    if j < |cols| {
      var f := FieldAt(w, t, j);
      assert ColumnTyped(w, f, cols[j]);
      AllFit(w, r, t, j, cols[j]);
      ColumnsFit(w, r, t, cols, j + 1);
      OtherFieldSilent(w, r, t, i, j, col, cols[j]);
      LaterFieldsSilent(w, r, t, i, col, cols, j + 1);
      ColumnConcat(r, t, i, col, PruneAll(w, f.num, f.kind, cols[j]), PruneColumns(w, t, cols, j + 1));
    }
  }

  lemma {:induction false} ColumnConvert(w: Schema, r: Schema, t: nat, i: nat, cols: seq<seq<Value>>, j: nat)
    requires Compatible(w, r) && t < |w| && ColumnsTyped(w, t, cols) && j <= |cols| && i < |r[t]|
    requires forall m :: 0 <= m < j ==> FieldAt(w, t, m).num != FieldAt(r, t, i).num
    requires Fits(r, t, PruneColumns(w, t, cols, j))
    ensures Column(r, t, i, DefaultColumn(r, FieldAt(r, t, i)), PruneColumns(w, t, cols, j)) ==
            ConvertColumn(w, r, t, i, cols)
    decreases t, 4, |cols| - j
  {
    var m := Find(w[t], FieldAt(r, t, i).num);
    assert m.Some? ==> FieldAt(w, t, m.value).num == FieldAt(r, t, i).num;
    if j < |cols| {
      var f := FieldAt(w, t, j);
      var g := FieldAt(r, t, i);
      assert ColumnTyped(w, f, cols[j]);
      AllFit(w, r, t, j, cols[j]);
      ColumnsFit(w, r, t, cols, j + 1);
      ColumnConcat(r, t, i, DefaultColumn(r, g), PruneAll(w, f.num, f.kind, cols[j]), PruneColumns(w, t, cols, j + 1));
      if f.num == g.num {
        FindAt(w, t, j);
        FieldConvert(w, r, t, i, j, cols[j]);
        assert MessageOk(w[t], t);
        LaterFieldsSilent(w, r, t, i, ConvertField(w, r, f, cols[j]), cols, j + 1);
      } else {
        OtherFieldSilent(w, r, t, i, j, DefaultColumn(r, g), cols[j]);
        ColumnConvert(w, r, t, i, cols, j + 1);
      }
    }
  }

  lemma {:induction false} ColumnsConvert(w: Schema, r: Schema, t: nat, cols: seq<seq<Value>>)
    requires Compatible(w, r) && t < |w| && ColumnsTyped(w, t, cols)
    ensures Fits(r, t, PruneColumns(w, t, cols, 0))
    ensures Fold(r, t, DefaultColumns(r, t), PruneColumns(w, t, cols, 0)) == ConvertColumns(w, r, t, cols)
    decreases t, 5
  {
    ColumnsFit(w, r, t, cols, 0);
    var items := PruneColumns(w, t, cols, 0);
    forall i | 0 <= i < |r[t]|
      ensures Fold(r, t, DefaultColumns(r, t), items)[i] == ConvertColumns(w, r, t, cols)[i]
    {
      FoldColumn(r, t, i, DefaultColumns(r, t), items);
      ColumnConvert(w, r, t, i, cols, 0);
    }
  }

  // ---- strings longer than the reader's field for them ----

  lemma {:induction false} WithinConcat(r: Schema, t: nat, a: seq<Item>, b: seq<Item>)
    requires t < |r| && Fits(r, t, a) && Fits(r, t, b)
    ensures Fits(r, t, a + b)
    ensures Within(r, t, a + b) <==> Within(r, t, a) && Within(r, t, b)
    decreases |a|
  {
    FitsConcat(r, t, a, b);
    if a == [] {
      assert a + b == b;
    } else {
      assert (a + b)[1..] == a[1..] + b;
      WithinConcat(r, t, a[1..], b);
    }
  }

  lemma {:induction false} PruneWithin(w: Schema, r: Schema, num: int, k: Kind, c: Kind, v: Value)
    requires Compatible(w, r) && Known(w, k) && Agree(k, c) && Typed(w, k, v) && 0 < num < FIELD_LIMIT
    ensures var items := Prune(w, num, k, v);
            if items == [] then Holds(w, r, k, c, v)
            else Carries(r, c, items[0]) && (CarriedWithin(r, c, items[0]) <==> Holds(w, r, k, c, v))
    decreases Rank(k), 0
  {
    PruneConvert(w, r, num, k, c, v);
    if k.Message? {
      ColumnsWithin(w, r, k.ty, v.cols, 0);
    }
  }

  lemma {:induction false} AllWithin(w: Schema, r: Schema, t: nat, j: nat, vals: seq<Value>)
    requires Compatible(w, r) && t < |w| && j < |w[t]| && AllTyped(w, FieldAt(w, t, j).kind, vals)
    ensures var items := PruneAll(w, FieldAt(w, t, j).num, FieldAt(w, t, j).kind, vals);
            Fits(r, t, items) && (Within(r, t, items) <==> HoldsColumn(w, r, t, j, vals))
    decreases t, 1, |vals|
  {
    if vals != [] {
      var f := FieldAt(w, t, j);
      var items := Prune(w, f.num, f.kind, vals[0]);
      PrunedFits(w, r, t, j, vals[0]);
      AllWithin(w, r, t, j, vals[1..]);
      WithinConcat(r, t, items, PruneAll(w, f.num, f.kind, vals[1..]));
      var i := Find(r[t], f.num);
      PruneWithin(w, r, f.num, f.kind, if i.Some? then FieldAt(r, t, i.value).kind else f.kind, vals[0]);
      if items != [] {
        assert Within(r, t, items[1..]);
      }
    }
  }

  lemma {:induction false} ColumnsWithin(w: Schema, r: Schema, t: nat, cols: seq<seq<Value>>, from: nat)
    requires Compatible(w, r) && t < |w| && ColumnsTyped(w, t, cols) && from <= |cols|
    ensures Fits(r, t, PruneColumns(w, t, cols, from))
    ensures Within(r, t, PruneColumns(w, t, cols, from)) <==>
            forall j :: from <= j < |cols| ==> ColumnTyped(w, FieldAt(w, t, j), cols[j]) && HoldsColumn(w, r, t, j, cols[j])
    decreases t, 2, |cols| - from
  {
    if from < |cols| {
      var f := FieldAt(w, t, from);
      assert ColumnTyped(w, f, cols[from]);
      AllWithin(w, r, t, from, cols[from]);
      ColumnsWithin(w, r, t, cols, from + 1);
      WithinConcat(r, t, PruneAll(w, f.num, f.kind, cols[from]), PruneColumns(w, t, cols, from + 1));
    }
  }

  // ---- the main results ----

  /** Schema evolution: a reader whose schema agrees with the writer's on the fields they share recovers exactly
      the conversion of the message, and leaves whatever follows the message unread; it fails exactly when the
      submessages that were written nest more than 128 deep or a string is longer than the reader's field for it.
      Fields may be declared in any order on either side. */
  lemma DecodeEncoded(w: Schema, r: Schema, t: nat, v: Value, rest: seq<Byte>)
    requires Compatible(w, r) && t < |w| && Typed(w, Message(t), v)
    ensures Decode(r, t, Encode(w, t, v) + rest) ==
            if Depth(PruneMessage(w, t, v)) <= 128 && HoldsColumns(w, r, t, v.cols)
            then Done(Convert(w, r, Message(t), v), rest) else Bad
  {
    var items := PruneMessage(w, t, v);
    ColumnsConvert(w, r, t, v.cols);
    ColumnsWithin(w, r, t, v.cols, 0);
    FitsSound(r, t, items);
    Regroup(Print(items), [END_BYTE], rest);
    DecodePrinted(r, t, DefaultColumns(r, t), items, MAX_NESTING, rest);
  }
}
