/** A peer that knows every field of a message may read it and write it anew, in its own field order, without any reader
    noticing: as the command line tool does, which writes fields in the order of their numbers. */
module Relay {
  import opened Wire
  import opened Schemas
  import opened Items
  import opened Encoder
  import opened Decoder
  import opened RoundTrip
  import opened Evolution
  import opened Fidelity
  import opened FieldOrder

  /** Schema `m` has every field of schema `w`. */
  predicate Knows(w: Schema, m: Schema) {
    |w| == |m| && forall t, i :: 0 <= t < |w| && 0 <= i < |w[t]| ==> Find(m[t], w[t][i].num).Some?
  }

  lemma {:induction false} DefaultIsDefault(s: Schema, k: Kind)
    requires Known(s, k)
    ensures Typed(s, k, Default(s, k)) && IsDefault(s, k, Default(s, k))
    decreases Rank(k)
  {
    DefaultTyped(s, k);
    if k.Message? {
      forall i | 0 <= i < |s[k.ty]|
        ensures ColumnTyped(s, FieldAt(s, k.ty, i), DefaultColumns(s, k.ty)[i])
        ensures AllDefault(s, FieldAt(s, k.ty, i).kind, DefaultColumns(s, k.ty)[i])
      {
        DefaultIsDefault(s, FieldAt(s, k.ty, i).kind);
      }
    }
  }

  // ---- the items of one field of an encoded message ----

  lemma {:induction false} OccurrencesConcat(a: seq<Item>, b: seq<Item>, num: int)
    ensures Occurrences(a + b, num) == Occurrences(a, num) + Occurrences(b, num)
  {
    if a == [] {
      assert a + b == b;
    } else {
      assert (a + b)[1..] == a[1..] + b;
      OccurrencesConcat(a[1..], b, num);
    }
  }

  lemma {:induction false} OccurrencesOfField(s: Schema, f: Field, vals: seq<Value>, num: int)
    requires Known(s, f.kind) && AllTyped(s, f.kind, vals)
    ensures Occurrences(PruneAll(s, f.num, f.kind, vals), num) ==
            if num == f.num then PruneAll(s, f.num, f.kind, vals) else []
    decreases |vals|
  {
    if vals != [] {
      var first := Prune(s, f.num, f.kind, vals[0]);
      assert first != [] ==> first[1..] == [] && first == [first[0]] && first[0].num == f.num;
      OccurrencesOfField(s, f, vals[1..], num);
      OccurrencesConcat(first, PruneAll(s, f.num, f.kind, vals[1..]), num);
    }
  }

  /** What the `j`-th field of a message leaves. */
  function FieldItems(s: Schema, t: nat, j: nat, cols: seq<seq<Value>>): seq<Item>
    requires t < |s| && j < |s[t]| && ColumnsTyped(s, t, cols)
  {
    var f := FieldAt(s, t, j);
    assert ColumnTyped(s, f, cols[j]);
    PruneAll(s, f.num, f.kind, cols[j])
  }

  lemma OccurrencesOfFirst(s: Schema, t: nat, cols: seq<seq<Value>>, from: nat, num: int)
    requires t < |s| && ColumnsTyped(s, t, cols) && from < |cols|
    ensures PruneColumns(s, t, cols, from) == FieldItems(s, t, from, cols) + PruneColumns(s, t, cols, from + 1)
    ensures Occurrences(FieldItems(s, t, from, cols), num) ==
            if num == s[t][from].num then FieldItems(s, t, from, cols) else []
  {
    assert ColumnTyped(s, FieldAt(s, t, from), cols[from]);
    OccurrencesOfField(s, FieldAt(s, t, from), cols[from], num);
  }

  lemma {:induction false} OccurrencesOfNone(s: Schema, t: nat, cols: seq<seq<Value>>, from: nat, num: int)
    requires t < |s| && ColumnsTyped(s, t, cols) && from <= |s[t]|
    requires forall j :: from <= j < |s[t]| ==> s[t][j].num != num
    ensures Occurrences(PruneColumns(s, t, cols, from), num) == []
    decreases |s[t]| - from
  {
    hide PruneColumns, FieldItems, Occurrences, MessageOk, SchemaOk;
    if from == |s[t]| {
      NothingLeft(s, t, cols, num);
    } else {
      OccurrencesOfFirst(s, t, cols, from, num);
      OccurrencesOfNone(s, t, cols, from + 1, num);
      OccurrencesConcat(FieldItems(s, t, from, cols), PruneColumns(s, t, cols, from + 1), num);
    }
  }

  lemma NothingLeft(s: Schema, t: nat, cols: seq<seq<Value>>, num: int)
    requires t < |s| && ColumnsTyped(s, t, cols)
    ensures Occurrences(PruneColumns(s, t, cols, |s[t]|), num) == []
  {
  }

  lemma {:induction false} OccurrencesOfColumn(s: Schema, t: nat, cols: seq<seq<Value>>, from: nat, j: nat)
    requires t < |s| && ColumnsTyped(s, t, cols) && from <= j < |cols|
    ensures Occurrences(PruneColumns(s, t, cols, from), s[t][j].num) == FieldItems(s, t, j, cols)
    decreases j - from
  {
    hide PruneColumns, FieldItems;
    OccurrencesOfFirst(s, t, cols, from, s[t][j].num);
    OccurrencesConcat(FieldItems(s, t, from, cols), PruneColumns(s, t, cols, from + 1), s[t][j].num);
    assert MessageOk(s[t], t);
    if from == j {
      OccurrencesOfNone(s, t, cols, from + 1, s[t][j].num);
      assert FieldItems(s, t, j, cols) + [] == FieldItems(s, t, j, cols);
    } else {
      OccurrencesOfColumn(s, t, cols, from + 1, j);
      assert [] + FieldItems(s, t, j, cols) == FieldItems(s, t, j, cols);
    }
  }

  lemma OccurrencesOfColumns(s: Schema, t: nat, cols: seq<seq<Value>>, num: int)
    requires t < |s| && ColumnsTyped(s, t, cols)
    ensures var j := Find(s[t], num);
            Occurrences(PruneColumns(s, t, cols, 0), num) == if j.Some? then FieldItems(s, t, j.value, cols) else []
  {
    match Find(s[t], num)
    case None => OccurrencesOfNone(s, t, cols, 0, num);
    case Some(j) => OccurrencesOfColumn(s, t, cols, 0, j);
  }

  // ---- what the relay writes is a reordering of what it read ----

  lemma {:induction false} SameListConcat(a: seq<Item>, b: seq<Item>, x: seq<Item>, y: seq<Item>)
    requires SameList(a, b) && SameList(x, y)
    ensures SameList(a + x, b + y)
    decreases |a|
  {
    if a == [] {
      assert a + x == x && b + y == y;
    } else {
      assert (a + x)[1..] == a[1..] + x && (b + y)[1..] == b[1..] + y;
      SameListConcat(a[1..], b[1..], x, y);
    }
  }

  lemma ReorderedEmpty(a: seq<Item>, b: seq<Item>)
    requires Reordered(a, b)
    ensures a == [] <==> b == []
  {
    if b != [] {
      assert SameList(Occurrences(a, b[0].num), Occurrences(b, b[0].num));
    }
    if a != [] {
      assert SameList(Occurrences(a, a[0].num), Occurrences(b, a[0].num));
    }
  }

  lemma {:induction false} SameValue(w: Schema, m: Schema, num: int, k: Kind, c: Kind, v: Value)
    requires Compatible(w, m) && Knows(w, m) && Known(w, k) && Agree(k, c) && Typed(w, k, v) && Holds(w, m, k, c, v)
    ensures Typed(m, c, Convert(w, m, k, v))
    ensures SameList(Prune(w, num, k, v), Prune(m, num, c, Convert(w, m, k, v)))
    decreases Rank(k), 0
  {
    ConvertTyped(w, m, k, c, v);
    if k.Message? {
      SameColumns(w, m, k.ty, v.cols);
      ReorderedEmpty(PruneColumns(w, k.ty, v.cols, 0), PruneColumns(m, k.ty, ConvertColumns(w, m, k.ty, v.cols), 0));
    }
  }

  lemma {:induction false} SameAll(w: Schema, m: Schema, num: int, k: Kind, c: Kind, vals: seq<Value>)
    requires Compatible(w, m) && Knows(w, m) && Known(w, k) && Agree(k, c) && AllTyped(w, k, vals)
    requires HoldsAll(w, m, k, c, vals) && 0 < num < FIELD_LIMIT
    ensures AllTyped(m, c, ConvertAll(w, m, k, vals))
    ensures SameList(PruneAll(w, num, k, vals), PruneAll(m, num, c, ConvertAll(w, m, k, vals)))
    decreases Rank(k), 1, |vals|
  {
    ConvertAllTyped(w, m, k, c, vals);
    if vals != [] {
      SameValue(w, m, num, k, c, vals[0]);
      SameAll(w, m, num, k, c, vals[1..]);
      var first, tail := Convert(w, m, k, vals[0]), ConvertAll(w, m, k, vals[1..]);
      if IsDefault(w, k, vals[0]) {
        PruneSound(w, num, k, vals[0]);
        assert [] + tail == tail && [] + PruneAll(w, num, k, vals[1..]) == PruneAll(w, num, k, vals[1..]);
      } else {
        assert ([first] + tail)[1..] == tail;
        SameListConcat(Prune(w, num, k, vals[0]), Prune(m, num, c, first),
                       PruneAll(w, num, k, vals[1..]), PruneAll(m, num, c, tail));
      }
    }
  }

  lemma OnlyElement(s: Schema, num: int, k: Kind, vals: seq<Value>)
    requires Known(s, k) && AllTyped(s, k, vals) && |vals| == 1
    ensures PruneAll(s, num, k, vals) == Prune(s, num, k, vals[0])
  {
    assert vals[1..] == [];
    assert Prune(s, num, k, vals[0]) + [] == Prune(s, num, k, vals[0]);
  }

  lemma {:induction false} SameField(w: Schema, m: Schema, f: Field, g: Field, vals: seq<Value>)
    requires Compatible(w, m) && Knows(w, m) && Known(w, f.kind) && ColumnTyped(w, f, vals) && 0 < f.num < FIELD_LIMIT
    requires f.num == g.num && f.repeated == g.repeated && Agree(f.kind, g.kind) && HoldsAll(w, m, f.kind, g.kind, vals)
    ensures ColumnTyped(m, g, ConvertField(w, m, f, vals)) && AllTyped(m, g.kind, ConvertField(w, m, f, vals))
    ensures SameList(PruneAll(w, f.num, f.kind, vals), PruneAll(m, g.num, g.kind, ConvertField(w, m, f, vals)))
    decreases Rank(f.kind), 2
  {
    ConvertFieldTyped(w, m, f, g, vals);
    if f.repeated {
      SameAll(w, m, f.num, f.kind, g.kind, vals);
    } else {
      SameValue(w, m, f.num, f.kind, g.kind, vals[0]);
      OnlyElement(w, f.num, f.kind, vals);
      OnlyElement(m, g.num, g.kind, ConvertField(w, m, f, vals));
    }
  }

  lemma {:induction false} SameColumns(w: Schema, m: Schema, t: nat, cols: seq<seq<Value>>)
    requires Compatible(w, m) && Knows(w, m) && t < |w| && ColumnsTyped(w, t, cols) && HoldsColumns(w, m, t, cols)
    ensures ColumnsTyped(m, t, ConvertColumns(w, m, t, cols))
    ensures Reordered(PruneColumns(w, t, cols, 0), PruneColumns(m, t, ConvertColumns(w, m, t, cols), 0))
    decreases t, 4
  {
    var relayed := ConvertColumns(w, m, t, cols);
    ConvertTyped(w, m, Message(t), Message(t), Struct(cols));
    var a, b := PruneColumns(w, t, cols, 0), PruneColumns(m, t, relayed, 0);
    forall num: int ensures SameList(Occurrences(a, num), Occurrences(b, num)) {
      OccurrencesOfColumns(w, t, cols, num);
      OccurrencesOfColumns(m, t, relayed, num);
      SameOccurrences(w, m, t, cols, num);
    }
  }

  lemma {:induction false} SameOccurrences(w: Schema, m: Schema, t: nat, cols: seq<seq<Value>>, num: int)
    requires Compatible(w, m) && Knows(w, m) && t < |w| && ColumnsTyped(w, t, cols) && HoldsColumns(w, m, t, cols)
    requires ColumnsTyped(m, t, ConvertColumns(w, m, t, cols))
    ensures var (j, l) := (Find(w[t], num), Find(m[t], num));
            SameList(if j.Some? then FieldItems(w, t, j.value, cols) else [],
                     if l.Some? then FieldItems(m, t, l.value, ConvertColumns(w, m, t, cols)) else [])
    decreases t, 3
  {
    var j, l := Find(w[t], num), Find(m[t], num);
    if l.Some? {
      var g := FieldAt(m, t, l.value);
      var col := ConvertColumn(w, m, t, l.value, cols);
      assert ConvertColumns(w, m, t, cols)[l.value] == col;
      if j.Some? {
        var f := FieldAt(w, t, j.value);
        assert ColumnTyped(w, f, cols[j.value]) && HoldsColumn(w, m, t, j.value, cols[j.value]);
        SameField(w, m, f, g, cols[j.value]);
      } else if !g.repeated {
        DefaultIsDefault(m, g.kind);
        PruneSound(m, g.num, g.kind, Default(m, g.kind));
        assert ColumnTyped(m, g, col);
        OnlyElement(m, g.num, g.kind, col);
      }
    }
  }

  // ---- the main results ----

  /** Converting through the relay's schema is converting at once. */
  lemma ConvertTwice(w: Schema, m: Schema, r: Schema, t: nat, v: Value)
    requires Compatible(w, m) && Compatible(m, r) && Compatible(w, r) && Knows(w, m) && t < |w|
    requires Typed(w, Message(t), v) && HoldsColumns(w, m, t, v.cols)
    ensures Typed(m, Message(t), Convert(w, m, Message(t), v))
    ensures Convert(m, r, Message(t), Convert(w, m, Message(t), v)) == Convert(w, r, Message(t), v)
  {
    SameColumns(w, m, t, v.cols);
    var relayed := ConvertColumns(w, m, t, v.cols);
    ColumnsConvert(w, r, t, v.cols);
    ColumnsConvert(m, r, t, relayed);
    ReorderedFold(r, t, DefaultColumns(r, t), PruneColumns(w, t, v.cols, 0), PruneColumns(m, t, relayed, 0));
  }

  /** Relaying loses nothing: a reader gets the same message, or fails in the same way, from the original bytes and
      from what a peer with all of the writer's fields, and the room for what is in them, made of them, whatever order
      of fields each schema declares. */
  lemma RelayedReadsTheSame(w: Schema, m: Schema, r: Schema, t: nat, v: Value, rest: seq<Byte>)
    requires Compatible(w, m) && Compatible(m, r) && Compatible(w, r) && Knows(w, m) && t < |w|
    requires Typed(w, Message(t), v) && HoldsColumns(w, m, t, v.cols)
    ensures var relayed := Convert(w, m, Message(t), v);
      && Typed(m, Message(t), relayed)
      && Decode(r, t, Encode(m, t, relayed) + rest) == Decode(r, t, Encode(w, t, v) + rest)
  {
    var relayed := Convert(w, m, Message(t), v);
    SameColumns(w, m, t, v.cols);
    var a, b := PruneMessage(w, t, v), PruneMessage(m, t, relayed);
    ColumnsConvert(w, r, t, v.cols);
    ColumnsConvert(m, r, t, relayed.cols);
    FitsSound(r, t, a);
    FitsSound(r, t, b);
    Regroup(Print(a), [END_BYTE], rest);
    Regroup(Print(b), [END_BYTE], rest);
    OrderIndependence(r, t, a, b, rest);
  }
}
