/** Which messages survive a round trip unchanged, and why an encoding is a prefix code. */
module Fidelity {
  import opened Wire
  import opened Schemas
  import opened Items
  import opened Decoder
  import opened RoundTrip
  import opened Encoder
  import opened Evolution

  // ---- lossless messages ----

  /** No negative floating-point zero anywhere, and no repeated element with nothing in it. */
  predicate Canonical(s: Schema, k: Kind, v: Value)
    requires Known(s, k) && Typed(s, k, v)
    decreases Rank(k), 0
  {
    if k.Message? then
      assert ColumnsTyped(s, k.ty, v.cols);
      forall i :: 0 <= i < |v.cols| ==>
        ColumnTyped(s, FieldAt(s, k.ty, i), v.cols[i]) && CanonicalColumn(s, FieldAt(s, k.ty, i), v.cols[i])
    else !(k == Float32 && v == Num(0x8000_0000)) && !(k == Float64 && v == Num(0x8000_0000_0000_0000))
  }

  predicate CanonicalColumn(s: Schema, f: Field, vals: seq<Value>)
    requires Known(s, f.kind) && AllTyped(s, f.kind, vals)
    decreases Rank(f.kind), 1, |vals|
  {
    vals == [] || (Canonical(s, f.kind, vals[0])
                   && (f.repeated ==> !Hollow(s, f.kind, vals[0]))
                   && CanonicalColumn(s, f, vals[1..]))
  }

  lemma {:induction false} ConvertFixes(s: Schema, k: Kind, v: Value)
    requires Known(s, k) && Typed(s, k, v)
    ensures Convert(s, s, k, v) == v <==> Canonical(s, k, v)
    decreases Rank(k), 0
  {
    if k.Message? {
      forall i | 0 <= i < |v.cols|
        ensures ColumnTyped(s, FieldAt(s, k.ty, i), v.cols[i])
        ensures ConvertColumns(s, s, k.ty, v.cols)[i] == v.cols[i] <==>
                CanonicalColumn(s, FieldAt(s, k.ty, i), v.cols[i])
      {
        var f := FieldAt(s, k.ty, i);
        FindAt(s, k.ty, i);
        assert ColumnTyped(s, f, v.cols[i]);
        assert ConvertColumn(s, s, k.ty, i, v.cols) == ConvertField(s, s, f, v.cols[i]);
        if f.repeated {
          ConvertAllFixes(s, f, v.cols[i]);
        } else {
          assert v.cols[i] == [v.cols[i][0]] && v.cols[i][1..] == [];
          assert AllTyped(s, f.kind, v.cols[i]);
          ConvertFixes(s, f.kind, v.cols[i][0]);
        }
      }
    }
  }

  lemma {:induction false} ConvertAllFixes(s: Schema, f: Field, vals: seq<Value>)
    requires Known(s, f.kind) && AllTyped(s, f.kind, vals) && f.repeated
    ensures |ConvertAll(s, s, f.kind, vals)| <= |vals|
    ensures ConvertAll(s, s, f.kind, vals) == vals <==> CanonicalColumn(s, f, vals)
    decreases Rank(f.kind), 1, |vals|
  {
    if vals != [] {
      ConvertFixes(s, f.kind, vals[0]);
      DefaultExactlyWhenHollow(s, f.kind, vals[0]);
      ConvertAllFixes(s, f, vals[1..]);
      var tail := ConvertAll(s, s, f.kind, vals[1..]);
      if !IsDefault(s, f.kind, vals[0]) {
        assert vals == [vals[0]] + vals[1..];
        assert ([Convert(s, s, f.kind, vals[0])] + tail)[1..] == tail;
      } else {
        assert [] + tail == tail;
      }
    }
  }

  /** The same fields in the same order, up to string capacities. */
  predicate AlignedFields(a: seq<Field>, b: seq<Field>) {
    && |a| == |b|
    && forall i :: 0 <= i < |a| ==>
         a[i].num == b[i].num && a[i].repeated == b[i].repeated && Agree(a[i].kind, b[i].kind)
  }

  predicate Aligned(w: Schema, r: Schema) {
    |w| == |r| && forall t :: 0 <= t < |w| ==> AlignedFields(w[t], r[t])
  }

  lemma AlignedCompatible(w: Schema, r: Schema)
    requires Aligned(w, r)
    ensures Compatible(w, r) && Compatible(w, w)
  {
    forall t | 0 <= t < |w| ensures MessageOk(w[t], t) && AlignedFields(w[t], r[t]) {
    }
  }

  /** A reader with the same fields recovers what the writer itself would. */
  lemma {:induction false} AlignedConvert(w: Schema, r: Schema, k: Kind, v: Value)
    requires Aligned(w, r) && Compatible(w, r) && Compatible(w, w) && Known(w, k) && Typed(w, k, v)
    ensures Convert(w, r, k, v) == Convert(w, w, k, v)
    decreases Rank(k), 0
  {
    if k.Message? {
      assert AlignedFields(w[k.ty], r[k.ty]);
      forall i | 0 <= i < |r[k.ty]|
        ensures ConvertColumn(w, r, k.ty, i, v.cols) == ConvertColumn(w, w, k.ty, i, v.cols)
      {
        var f := FieldAt(w, k.ty, i);
        FindAt(w, k.ty, i);
        assert ColumnTyped(w, f, v.cols[i]) && AllTyped(w, f.kind, v.cols[i]);
        if f.repeated {
          AlignedConvertAll(w, r, f.kind, v.cols[i]);
        } else {
          AlignedConvert(w, r, f.kind, v.cols[i][0]);
        }
        assert ConvertField(w, r, f, v.cols[i]) == ConvertField(w, w, f, v.cols[i]);
      }
      assert ConvertColumns(w, r, k.ty, v.cols) == ConvertColumns(w, w, k.ty, v.cols);
    }
  }

  lemma {:induction false} AlignedConvertAll(w: Schema, r: Schema, k: Kind, vals: seq<Value>)
    requires Aligned(w, r) && Compatible(w, r) && Compatible(w, w) && Known(w, k) && AllTyped(w, k, vals)
    ensures ConvertAll(w, r, k, vals) == ConvertAll(w, w, k, vals)
    decreases Rank(k), 1, |vals|
  {
    if vals != [] {
      AlignedConvert(w, r, k, vals[0]);
      AlignedConvertAll(w, r, k, vals[1..]);
    }
  }

  // ---- what is recovered is a well-typed message ----

  lemma {:induction false} ConvertTyped(w: Schema, r: Schema, k: Kind, c: Kind, v: Value)
    requires Compatible(w, r) && Known(w, k) && Agree(k, c) && Typed(w, k, v) && Holds(w, r, k, c, v)
    ensures Typed(r, c, Convert(w, r, k, v))
    decreases Rank(k), 0
  {
    if k.Message? {
      forall i | 0 <= i < |r[k.ty]|
        ensures ColumnTyped(r, FieldAt(r, k.ty, i), ConvertColumns(w, r, k.ty, v.cols)[i])
      {
        ConvertColumnTyped(w, r, k.ty, i, v.cols);
      }
    }
  }

  lemma {:induction false} ConvertColumnTyped(w: Schema, r: Schema, t: nat, i: nat, cols: seq<seq<Value>>)
    requires Compatible(w, r) && t < |w| && i < |r[t]| && ColumnsTyped(w, t, cols) && HoldsColumns(w, r, t, cols)
    ensures ColumnTyped(r, FieldAt(r, t, i), ConvertColumn(w, r, t, i, cols))
    decreases t, 4
  {
    var g := FieldAt(r, t, i);
    match Find(w[t], g.num)
    case None => DefaultTyped(r, g.kind);
    case Some(j) =>
      FindAt(r, t, i);
      assert ColumnTyped(w, FieldAt(w, t, j), cols[j]) && HoldsColumn(w, r, t, j, cols[j]);
      ConvertFieldTyped(w, r, FieldAt(w, t, j), g, cols[j]);
  }

  lemma {:induction false} ConvertFieldTyped(w: Schema, r: Schema, f: Field, g: Field, vals: seq<Value>)
    requires Compatible(w, r) && Known(w, f.kind) && ColumnTyped(w, f, vals)
    requires Agree(f.kind, g.kind) && f.repeated == g.repeated && HoldsAll(w, r, f.kind, g.kind, vals)
    ensures ColumnTyped(r, g, ConvertField(w, r, f, vals))
    decreases Rank(f.kind), 2
  {
    if f.repeated {
      ConvertAllTyped(w, r, f.kind, g.kind, vals);
    } else {
      ConvertTyped(w, r, f.kind, g.kind, vals[0]);
    }
  }

  lemma {:induction false} ConvertAllTyped(w: Schema, r: Schema, k: Kind, c: Kind, vals: seq<Value>)
    requires Compatible(w, r) && Known(w, k) && Agree(k, c) && AllTyped(w, k, vals) && HoldsAll(w, r, k, c, vals)
    ensures AllTyped(r, c, ConvertAll(w, r, k, vals))
    decreases Rank(k), 1, |vals|
  {
    if vals != [] {
      ConvertTyped(w, r, k, c, vals[0]);
      ConvertAllTyped(w, r, k, c, vals[1..]);
      var tail := ConvertAll(w, r, k, vals[1..]);
      if IsDefault(w, k, vals[0]) {
        assert [] + tail == tail;
      } else {
        assert ([Convert(w, r, k, vals[0])] + tail)[1..] == tail;
      }
    }
  }

  lemma {:induction false} DefaultTyped(s: Schema, k: Kind)
    requires Known(s, k)
    ensures Typed(s, k, Default(s, k))
    decreases Rank(k)
  {
    if k.Message? {
      forall i | 0 <= i < |s[k.ty]|
        ensures ColumnTyped(s, FieldAt(s, k.ty, i), DefaultColumns(s, k.ty)[i])
      {
        DefaultTyped(s, FieldAt(s, k.ty, i).kind);
      }
    }
  }

  // ---- readers with room for everything the writer may send ----

  predicate RoomFor(k: Kind, c: Kind) {
    c.Bytes? ==> k.Bytes? && k.cap <= c.cap
  }

  /** No string field the schemas share is smaller in `r`. */
  ghost predicate Roomy(w: Schema, r: Schema) {
    && |w| == |r|
    && forall t, i, j :: 0 <= t < |w| && 0 <= i < |w[t]| && 0 <= j < |r[t]| && w[t][i].num == r[t][j].num
         ==> RoomFor(w[t][i].kind, r[t][j].kind)
  }

  lemma RoomyItself(s: Schema)
    ensures Roomy(s, s) && Compatible(s, s)
  {
    forall t | 0 <= t < |s| ensures MessageOk(s[t], t) {
    }
  }

  lemma {:induction false} RoomyHolds(w: Schema, r: Schema, k: Kind, c: Kind, v: Value)
    requires Roomy(w, r) && Known(w, k) && Typed(w, k, v) && RoomFor(k, c)
    ensures Holds(w, r, k, c, v)
    decreases Rank(k), 0
  {
    if k.Message? {
      forall j | 0 <= j < |v.cols|
        ensures ColumnTyped(w, FieldAt(w, k.ty, j), v.cols[j]) && HoldsColumn(w, r, k.ty, j, v.cols[j])
      {
        var f := FieldAt(w, k.ty, j);
        assert ColumnTyped(w, f, v.cols[j]);
        match Find(r[k.ty], f.num)
        case None =>
        case Some(i) => RoomyHoldsAll(w, r, f.kind, FieldAt(r, k.ty, i).kind, v.cols[j]);
      }
    }
  }

  lemma {:induction false} RoomyHoldsAll(w: Schema, r: Schema, k: Kind, c: Kind, vals: seq<Value>)
    requires Roomy(w, r) && Known(w, k) && AllTyped(w, k, vals) && RoomFor(k, c)
    ensures HoldsAll(w, r, k, c, vals)
    decreases Rank(k), 1, |vals|
  {
    if vals != [] {
      RoomyHolds(w, r, k, c, vals[0]);
      RoomyHoldsAll(w, r, k, c, vals[1..]);
    }
  }

  // ---- depth ----

  lemma {:induction false} PruneDepth(s: Schema, num: int, k: Kind, v: Value)
    requires Known(s, k) && Typed(s, k, v)
    ensures Depth(Prune(s, num, k, v)) <= Nest(s, k, v)
    decreases Rank(k), 0
  {
    if k.Message? {
      PruneColumnsDepth(s, k.ty, v.cols, 0);
    }
  }

  lemma {:induction false} PruneAllDepth(s: Schema, num: int, k: Kind, vals: seq<Value>)
    requires Known(s, k) && AllTyped(s, k, vals)
    ensures Depth(PruneAll(s, num, k, vals)) <= NestAll(s, k, vals)
    decreases Rank(k), 1, |vals|
  {
    if vals != [] {
      PruneDepth(s, num, k, vals[0]);
      PruneAllDepth(s, num, k, vals[1..]);
      DepthConcat(Prune(s, num, k, vals[0]), PruneAll(s, num, k, vals[1..]));
    }
  }

  lemma {:induction false} PruneColumnsDepth(s: Schema, t: nat, cols: seq<seq<Value>>, i: nat)
    requires t < |s| && ColumnsTyped(s, t, cols) && i <= |cols|
    ensures Depth(PruneColumns(s, t, cols, i)) <= NestColumns(s, t, cols, i)
    decreases t, 2, |cols| - i
  {
    hide Prune, PruneAll, Nest, NestAll, Typed, AllTyped;
    if i < |cols| {
      var f := FieldAt(s, t, i);
      assert ColumnTyped(s, f, cols[i]);
      PruneAllDepth(s, f.num, f.kind, cols[i]);
      PruneColumnsDepth(s, t, cols, i + 1);
      DepthConcat(PruneAll(s, f.num, f.kind, cols[i]), PruneColumns(s, t, cols, i + 1));
    }
  }

  // ---- the main results ----

  /** Round trip: with one schema on both sides, and submessages at most 128 deep, encoding never runs out of stack,
      decoding never fails, the bytes after the message stay unread, and the message comes back unchanged exactly
      when it holds no negative zero and no empty repeated element. */
  lemma RoundTripExact(s: Schema, t: nat, v: Value, rest: seq<Byte>)
    requires t < |s| && Typed(s, Message(t), v) && Nest(s, Message(t), v) <= 129
    ensures RoomColumns(s, t, v.cols, 0, 0)
    ensures Decode(s, t, Encode(s, t, v) + rest) == Done(Convert(s, s, Message(t), v), rest)
    ensures Decode(s, t, Encode(s, t, v) + rest) == Done(v, rest) <==> Canonical(s, Message(t), v)
  {
    NestingBound(s, t, v);
    PruneColumnsDepth(s, t, v.cols, 0);
    RoomyItself(s);
    RoomyHolds(s, s, Message(t), Message(t), v);
    DecodeEncoded(s, s, t, v, rest);
    ConvertFixes(s, Message(t), v);
  }

  lemma SingleConvert(f: Field, col: seq<Value>)
    requires 0 < f.num < FIELD_LIMIT && !f.kind.Message? && ColumnTyped(SingleField(f), f, col)
    ensures Typed(SingleField(f), Message(0), Struct([col])) && Compatible(SingleField(f), SingleField(f))
    ensures Convert(SingleField(f), SingleField(f), Message(0), Struct([col])) ==
            Struct([ConvertField(SingleField(f), SingleField(f), f, col)])
  {
    hide SingleField, ConvertField, ColumnTyped;
    var s := SingleField(f);
    RoomyItself(s);
    assert ColumnsTyped(s, 0, [col]);
    FindAt(s, 0, 0);
    assert ConvertColumns(s, s, 0, [col]) == [ConvertField(s, s, f, col)];
  }

  lemma SingleColumn(f: Field, col: seq<Value>, rest: seq<Byte>)
    requires 0 < f.num < FIELD_LIMIT && !f.kind.Message? && ColumnTyped(SingleField(f), f, col)
    ensures Typed(SingleField(f), Message(0), Struct([col])) && Compatible(SingleField(f), SingleField(f))
    ensures Decode(SingleField(f), 0, Encode(SingleField(f), 0, Struct([col])) + rest) ==
            Done(Struct([ConvertField(SingleField(f), SingleField(f), f, col)]), rest)
  {
    hide ConvertField, ColumnTyped, Typed, Convert, Encode, Decode, Nest;
    SingleConvert(f, col);
    NestRank(SingleField(f), Message(0), Struct([col]));
    RoundTripExact(SingleField(f), 0, Struct([col]), rest);
  }

  /** Negative floating-point zero comes back as zero. */
  lemma NegativeZeroIsLost(rest: seq<Byte>)
    ensures var (s, v) := (SingleField(Field(1, Float32, false)), Struct([[Num(0x8000_0000)]]));
      Typed(s, Message(0), v) && Decode(s, 0, Encode(s, 0, v) + rest) == Done(Struct([[Num(0)]]), rest)
  {
    var f := Field(1, Float32, false);
    var col := [Num(0x8000_0000)];
    assert col[1..] == [];
    SingleColumn(f, col, rest);
  }

  /** A repeated element with nothing in it disappears. */
  lemma EmptyElementIsLost(rest: seq<Byte>)
    ensures var (s, v) := (SingleField(Field(1, Text, true)), Struct([[Blob([])]]));
      Typed(s, Message(0), v) && Decode(s, 0, Encode(s, 0, v) + rest) == Done(Struct([[]]), rest)
  {
    var f := Field(1, Text, true);
    var col := [Blob([])];
    assert col[1..] == [];
    SingleColumn(f, col, rest);
    assert ConvertAll(SingleField(f), SingleField(f), Text, []) == [];
  }

  function Older(): (s: Schema)
    ensures s == [[Field(1, Uint32, false), Field(2, Text, false)]]
  {
    assert MessageOk([Field(1, Uint32, false), Field(2, Text, false)], 0);
    [[Field(1, Uint32, false), Field(2, Text, false)]]
  }

  function Newer(): (s: Schema)
    ensures s == [[Field(3, Bool, true), Field(1, Uint32, false)]]
  {
    assert MessageOk([Field(3, Bool, true), Field(1, Uint32, false)], 0);
    [[Field(3, Bool, true), Field(1, Uint32, false)]]
  }

  lemma OneTyped(s: Schema, f: Field, v: Value)
    requires !f.kind.Message? && ScalarOk(f.kind, v)
    ensures ColumnTyped(s, f, [v])
  {
    assert [v][1..] == [];
    assert AllTyped(s, f.kind, []);
  }

  lemma OlderTyped(n: nat, text: seq<Byte>)
    requires n < UINT32 && |text| < UINT32
    ensures ColumnsTyped(Older(), 0, [[Num(n)], [Blob(text)]])
  {
    hide ColumnTyped;
    OneTyped(Older(), Field(1, Uint32, false), Num(n));
    OneTyped(Older(), Field(2, Text, false), Blob(text));
  }

  lemma VersionsAgree()
    ensures Compatible(Older(), Newer()) && Roomy(Older(), Newer())
  {
    hide Older, Newer;
    var w, r := Older()[0], Newer()[0];
    forall i, j | 0 <= i < |w| && 0 <= j < |r| && w[i].num == r[j].num
      ensures w[i].repeated == r[j].repeated && Agree(w[i].kind, r[j].kind) && RoomFor(w[i].kind, r[j].kind)
    {
      assert i == 0 && j == 1;
    }
  }

  lemma NewerConverts(n: nat, text: seq<Byte>)
    requires 0 < n < UINT32 && Compatible(Older(), Newer()) && ColumnsTyped(Older(), 0, [[Num(n)], [Blob(text)]])
    ensures ConvertColumns(Older(), Newer(), 0, [[Num(n)], [Blob(text)]]) == [[], [Num(n)]]
  {
    hide Compatible;
    var cols := [[Num(n)], [Blob(text)]];
    FindAt(Older(), 0, 0);
    assert Find(Older()[0], 3).None?;
    assert ColumnTyped(Older(), FieldAt(Older(), 0, 0), cols[0]);
    assert ConvertColumn(Older(), Newer(), 0, 0, cols) == [] && ConvertColumn(Older(), Newer(), 0, 1, cols) == [Num(n)];
  }

  /** A reader of another version, which has lost the writer's field 2, gained field 3 and moved field 1. */
  lemma AnotherVersion(n: nat, text: seq<Byte>, rest: seq<Byte>)
    requires 0 < n < UINT32 && |text| < UINT32
    ensures Typed(Older(), Message(0), Struct([[Num(n)], [Blob(text)]]))
    ensures Decode(Newer(), 0, Encode(Older(), 0, Struct([[Num(n)], [Blob(text)]])) + rest) ==
            Done(Struct([[], [Num(n)]]), rest)
  {
    hide Decode, Encode, Compatible, Roomy, ConvertColumns, ColumnsTyped, HoldsColumns, Older, Newer, Nest;
    var cols := [[Num(n)], [Blob(text)]];
    OlderTyped(n, text);
    VersionsAgree();
    DepthWithin(Older(), 0, Struct(cols));
    RoomyHolds(Older(), Newer(), Message(0), Message(0), Struct(cols));
    DecodeEncoded(Older(), Newer(), 0, Struct(cols), rest);
    NewerConverts(n, text);
  }

  lemma DepthWithin(s: Schema, t: nat, v: Value)
    requires t < |s| && Typed(s, Message(t), v) && t < 128
    ensures Depth(PruneMessage(s, t, v)) <= 128
  {
    NestRank(s, Message(t), v);
    PruneColumnsDepth(s, t, v.cols, 0);
  }

  /** Encodings form a prefix code: every proper prefix leaves the decoder waiting, never satisfied and never failing.
      */
  lemma ProperPrefixWaits(w: Schema, r: Schema, t: nat, v: Value, n: nat)
    requires Compatible(w, r) && t < |w| && Typed(w, Message(t), v)
    requires Depth(PruneMessage(w, t, v)) <= 128 && HoldsColumns(w, r, t, v.cols) && n < |Encode(w, t, v)|
    ensures Decode(r, t, Encode(w, t, v)[..n]) == Short
  {
    var bs := Encode(w, t, v);
    DecodeEncoded(w, r, t, v, []);
    assert bs + [] == bs && bs[..n] + bs[n..] == bs;
    DecodeSettled(r, t, bs[..n], bs[n..]);
  }
}
