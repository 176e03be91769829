/** Message schemas, in-memory message values, and what a value becomes when it is read under another schema. */
module Schemas {
  import opened Wire

  datatype Option<+T> = None | Some(value: T)

  /** The storage types of generated fields. Enum fields travel as `Int32`; `Bytes(cap)` is a fixed-capacity
      inline string or byte field and `Text` an unbounded one. */
  datatype Kind =
    | Int32
    | Int64
    | Uint32
    | Uint64
    | Bool
    | Float32
    | Float64
    | Bytes(cap: nat)
    | Text
    | Message(ty: nat)

  datatype Field = Field(num: int, kind: Kind, repeated: bool)

  /** A message may only refer to messages defined before it. */
  predicate MessageOk(fields: seq<Field>, limit: nat) {
    && (forall i :: 0 <= i < |fields| ==>
          0 < fields[i].num < FIELD_LIMIT && (fields[i].kind.Message? ==> fields[i].kind.ty < limit))
    && (forall i, j :: 0 <= i < j < |fields| ==> fields[i].num != fields[j].num)
  }

  predicate SchemaOk(s: seq<seq<Field>>) {
    forall t :: 0 <= t < |s| ==> MessageOk(s[t], t)
  }

  type Schema = s: seq<seq<Field>> | SchemaOk(s) witness []

  predicate Known(s: Schema, k: Kind) {
    k.Message? ==> k.ty < |s|
  }

  function Rank(k: Kind): nat {
    if k.Message? then k.ty + 1 else 0
  }

  function FieldAt(s: Schema, t: nat, i: nat): (f: Field)
    requires t < |s| && i < |s[t]|
    ensures Known(s, f.kind) && Rank(f.kind) <= t && 0 < f.num < FIELD_LIMIT
  {
    assert MessageOk(s[t], t);
    s[t][i]
  }

  function Find(fields: seq<Field>, num: int): (r: Option<nat>)
    ensures r.Some? ==> r.value < |fields| && fields[r.value].num == num
    ensures r.None? ==> forall i :: 0 <= i < |fields| ==> fields[i].num != num
  {
    if fields == [] then None
    else if fields[0].num == num then Some(0)
    else match Find(fields[1..], num)
         case None => None
         case Some(i) => Some(i + 1)
  }

  lemma FindAt(s: Schema, t: nat, i: nat)
    requires t < |s| && i < |s[t]|
    ensures Find(s[t], s[t][i].num) == Some(i)
  {
    assert MessageOk(s[t], t);
  }

  /** One message type with one scalar field. */
  function SingleField(f: Field): (s: Schema)
    requires 0 < f.num < FIELD_LIMIT && !f.kind.Message?
    ensures s == [[f]]
  {
    assert MessageOk([f], 0);
    [[f]]
  }

  /** Floats are bit patterns; a struct has one column per declared field, of length one unless the field is repeated.
      */
  datatype Value = Num(n: int) | Blob(bs: seq<Byte>) | Struct(cols: seq<seq<Value>>)

  predicate ScalarOk(k: Kind, v: Value)
    requires !k.Message?
  {
    match k
    case Int32 => v.Num? && -INT32 <= v.n < INT32
    case Int64 => v.Num? && -INT64 <= v.n < INT64
    case Uint32 => v.Num? && 0 <= v.n < UINT32
    case Uint64 => v.Num? && 0 <= v.n < UINT64
    case Bool => v.Num? && 0 <= v.n < 2
    case Float32 => v.Num? && 0 <= v.n < UINT32
    case Float64 => v.Num? && 0 <= v.n < UINT64
    case Bytes(cap) => v.Blob? && |v.bs| <= cap && |v.bs| < UINT32
    case Text => v.Blob? && |v.bs| < UINT32
  }

  predicate Typed(s: Schema, k: Kind, v: Value)
    requires Known(s, k)
    decreases Rank(k), 0
  {
    if k.Message? then v.Struct? && ColumnsTyped(s, k.ty, v.cols) else ScalarOk(k, v)
  }

  predicate ColumnsTyped(s: Schema, t: nat, cols: seq<seq<Value>>)
    requires t < |s|
    decreases t, 3
  {
    |cols| == |s[t]| && forall i :: 0 <= i < |cols| ==> ColumnTyped(s, FieldAt(s, t, i), cols[i])
  }

  predicate ColumnTyped(s: Schema, f: Field, col: seq<Value>)
    requires Known(s, f.kind)
    decreases Rank(f.kind), 2
  {
    (f.repeated || |col| == 1) && AllTyped(s, f.kind, col)
  }

  predicate AllTyped(s: Schema, k: Kind, vals: seq<Value>)
    requires Known(s, k)
    decreases Rank(k), 1, |vals|
  {
    vals == [] || (Typed(s, k, vals[0]) && AllTyped(s, k, vals[1..]))
  }

  // ---- default values ----

  /** The encoder's test for leaving a scalar out; both floating-point zeros pass it. */
  predicate IsZero(k: Kind, v: Value)
    requires !k.Message? && ScalarOk(k, v)
  {
    if k.Bytes? || k.Text? then v.bs == []
    else v.n == 0 || (k.Float32? && v.n == INT32) || (k.Float64? && v.n == INT64)
  }

  function Zero(k: Kind): (v: Value)
    requires !k.Message?
    ensures ScalarOk(k, v) && IsZero(k, v)
  {
    if k.Bytes? || k.Text? then Blob([]) else Num(0)
  }

  function Default(s: Schema, k: Kind): Value
    requires Known(s, k)
    decreases Rank(k), 0
  {
    if k.Message? then Struct(DefaultColumns(s, k.ty)) else Zero(k)
  }

  function DefaultColumns(s: Schema, t: nat): (cols: seq<seq<Value>>)
    requires t < |s|
    ensures |cols| == |s[t]|
    decreases t, 2
  {
    seq(|s[t]|, i requires 0 <= i < |s[t]| => DefaultColumn(s, FieldAt(s, t, i)))
  }

  function DefaultColumn(s: Schema, f: Field): (col: seq<Value>)
    requires Known(s, f.kind)
    decreases Rank(f.kind), 1
  {
    if f.repeated then [] else [Default(s, f.kind)]
  }

  /** A value with nothing in it the encoder would write. */
  predicate IsDefault(s: Schema, k: Kind, v: Value)
    requires Known(s, k) && Typed(s, k, v)
    decreases Rank(k), 0
  {
    if k.Message? then ColumnsDefault(s, k.ty, v.cols) else IsZero(k, v)
  }

  predicate ColumnsDefault(s: Schema, t: nat, cols: seq<seq<Value>>)
    requires t < |s| && ColumnsTyped(s, t, cols)
    decreases t, 2
  {
    forall i :: 0 <= i < |cols| ==>
      ColumnTyped(s, FieldAt(s, t, i), cols[i]) && AllDefault(s, FieldAt(s, t, i).kind, cols[i])
  }

  predicate AllDefault(s: Schema, k: Kind, vals: seq<Value>)
    requires Known(s, k) && AllTyped(s, k, vals)
    decreases Rank(k), 1, |vals|
  {
    vals == [] || (IsDefault(s, k, vals[0]) && AllDefault(s, k, vals[1..]))
  }

  // ---- what that amounts to ----

  /** Zero, false, an empty string, and the patterns of the two negative floating-point zeros. */
  predicate Blank(k: Kind, v: Value) {
    || v == Num(0) || v == Blob([])
    || (k == Float32 && v == Num(0x8000_0000)) || (k == Float64 && v == Num(0x8000_0000_0000_0000))
  }

  /** A value all of whose scalars, at any depth, are blank. */
  predicate Hollow(s: Schema, k: Kind, v: Value)
    requires Known(s, k)
    decreases Rank(k)
  {
    if k.Message? then
      && v.Struct? && |v.cols| == |s[k.ty]|
      && forall i, j :: 0 <= i < |v.cols| && 0 <= j < |v.cols[i]| ==> Hollow(s, FieldAt(s, k.ty, i).kind, v.cols[i][j])
    else Blank(k, v)
  }

  /** The values with nothing in them the encoder would write are the hollow ones. */
  lemma {:induction false} DefaultExactlyWhenHollow(s: Schema, k: Kind, v: Value)
    requires Known(s, k) && Typed(s, k, v)
    ensures IsDefault(s, k, v) <==> Hollow(s, k, v)
    decreases Rank(k), 0
  {
    if k.Message? {
      forall i | 0 <= i < |v.cols|
        ensures ColumnTyped(s, FieldAt(s, k.ty, i), v.cols[i])
        ensures AllDefault(s, FieldAt(s, k.ty, i).kind, v.cols[i]) <==>
                forall j :: 0 <= j < |v.cols[i]| ==> Hollow(s, FieldAt(s, k.ty, i).kind, v.cols[i][j])
      {
        assert ColumnTyped(s, FieldAt(s, k.ty, i), v.cols[i]);
        AllDefaultExactlyWhenHollow(s, FieldAt(s, k.ty, i).kind, v.cols[i]);
      }
    }
  }

  lemma {:induction false} AllDefaultExactlyWhenHollow(s: Schema, k: Kind, vals: seq<Value>)
    requires Known(s, k) && AllTyped(s, k, vals)
    ensures AllDefault(s, k, vals) <==> forall j :: 0 <= j < |vals| ==> Hollow(s, k, vals[j])
    decreases Rank(k), 1, |vals|
  {
    if vals != [] {
      DefaultExactlyWhenHollow(s, k, vals[0]);
      AllDefaultExactlyWhenHollow(s, k, vals[1..]);
      assert forall j :: 0 < j < |vals| ==> vals[j] == vals[1..][j - 1];
    }
  }

  // ---- reading a value under another schema ----

  /** Kinds that travel alike: two string fields may differ in how much they can hold. */
  predicate Agree(a: Kind, b: Kind) {
    a == b || ((a.Bytes? || a.Text?) && (b.Bytes? || b.Text?))
  }

  /** Two schemas that give every field number they share the same kind, up to string capacities, and multiplicity. */
  ghost predicate Compatible(w: Schema, r: Schema) {
    && |w| == |r|
    && forall t, i, j :: 0 <= t < |w| && 0 <= i < |w[t]| && 0 <= j < |r[t]| && w[t][i].num == r[t][j].num
         ==> w[t][i].repeated == r[t][j].repeated && Agree(w[t][i].kind, r[t][j].kind)
  }

  /** The value a reader using schema `r` should hold for `v`, written under schema `w`: negative floating-point zero
      becomes zero, repeated elements with nothing in them disappear, fields unknown to the reader are dropped and
      fields unknown to the writer get their defaults. */
  ghost function Convert(w: Schema, r: Schema, k: Kind, v: Value): (c: Value)
    requires Compatible(w, r) && Known(w, k) && Typed(w, k, v)
    decreases Rank(k), 0
  {
    if k.Message? then Struct(ConvertColumns(w, r, k.ty, v.cols))
    else if IsZero(k, v) then Zero(k) else v
  }

  ghost function ConvertColumns(w: Schema, r: Schema, t: nat, cols: seq<seq<Value>>): (c: seq<seq<Value>>)
    requires Compatible(w, r) && t < |w| && ColumnsTyped(w, t, cols)
    ensures |c| == |r[t]|
    decreases t, 4
  {
    seq(|r[t]|, i requires 0 <= i < |r[t]| => ConvertColumn(w, r, t, i, cols))
  }

  ghost function ConvertColumn(w: Schema, r: Schema, t: nat, i: nat, cols: seq<seq<Value>>): seq<Value>
    requires Compatible(w, r) && t < |w| && i < |r[t]| && ColumnsTyped(w, t, cols)
    decreases t, 3
  {
    match Find(w[t], FieldAt(r, t, i).num)
    case None => DefaultColumn(r, FieldAt(r, t, i))
    case Some(j) =>
      assert ColumnTyped(w, FieldAt(w, t, j), cols[j]);
      ConvertField(w, r, FieldAt(w, t, j), cols[j])
  }

  /** The column a reader builds from the writer's column of field `f`. */
  ghost function ConvertField(w: Schema, r: Schema, f: Field, vals: seq<Value>): seq<Value>
    requires Compatible(w, r) && Known(w, f.kind) && ColumnTyped(w, f, vals)
    decreases Rank(f.kind), 2
  {
    assert AllTyped(w, f.kind, vals);
    if f.repeated then ConvertAll(w, r, f.kind, vals) else [Convert(w, r, f.kind, vals[0])]
  }

  ghost function ConvertAll(w: Schema, r: Schema, k: Kind, vals: seq<Value>): seq<Value>
    requires Compatible(w, r) && Known(w, k) && AllTyped(w, k, vals)
    decreases Rank(k), 1, |vals|
  {
    if vals == [] then []
    else
      (if IsDefault(w, k, vals[0]) then [] else [Convert(w, r, k, vals[0])]) + ConvertAll(w, r, k, vals[1..])
  }

  // ---- whether the reader has the room ----

  /** Every string in `v`, a value of the writer's kind `k`, fits the field the reader has for it, if it has one; `c` is
      the reader's kind for `v` itself. */
  predicate Holds(w: Schema, r: Schema, k: Kind, c: Kind, v: Value)
    requires |w| == |r| && Known(w, k) && Typed(w, k, v)
    decreases Rank(k), 0
  {
    if k.Message? then HoldsColumns(w, r, k.ty, v.cols) else c.Bytes? && v.Blob? ==> |v.bs| <= c.cap
  }

  predicate HoldsColumns(w: Schema, r: Schema, t: nat, cols: seq<seq<Value>>)
    requires |w| == |r| && t < |w| && ColumnsTyped(w, t, cols)
    decreases t, 3
  {
    forall j :: 0 <= j < |cols| ==> ColumnTyped(w, FieldAt(w, t, j), cols[j]) && HoldsColumn(w, r, t, j, cols[j])
  }

  predicate HoldsColumn(w: Schema, r: Schema, t: nat, j: nat, col: seq<Value>)
    requires |w| == |r| && t < |w| && j < |w[t]| && AllTyped(w, FieldAt(w, t, j).kind, col)
    decreases t, 2
  {
    match Find(r[t], FieldAt(w, t, j).num)
    case None => true
    case Some(i) => HoldsAll(w, r, FieldAt(w, t, j).kind, FieldAt(r, t, i).kind, col)
  }

  predicate HoldsAll(w: Schema, r: Schema, k: Kind, c: Kind, vals: seq<Value>)
    requires |w| == |r| && Known(w, k) && AllTyped(w, k, vals)
    decreases Rank(k), 1, |vals|
  {
    vals == [] || (Holds(w, r, k, c, vals[0]) && HoldsAll(w, r, k, c, vals[1..]))
  }
}
