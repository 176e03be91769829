/** The generated `maxMessageSize`: a bound on the bytes of a message without its closing end tag. */
module SizeBound {
  import opened Wire
  import opened Schemas
  import opened Items

  /** `MaxVarIntSize` is the length of a varint. */
  method MaxVarIntSize(value: nat) returns (size: nat)
    ensures size == |Varint(value)|
  {
    size := 1;
    var left := value;
    while left > 127
      invariant size + |Varint(left)| == 1 + |Varint(value)|
    {
      left := left / 128;
      size := size + 1;
    }
  }

  lemma {:induction false} VarintMonotone(a: nat, b: nat)
    requires a <= b
    ensures |Varint(a)| <= |Varint(b)|
  {
    if b >= 128 && a >= 128 {
      VarintMonotone(a / 128, b / 128);
    }
  }

  /** The generator sizes every tag as if its wire type were 2; the wire type never changes a tag's length. */
  lemma TagLength(num: nat, w: WireType)
    requires 0 < num < FIELD_LIMIT && !w.Reserved?
    ensures |TagBytes(num, w)| == |Varint(8 * num + 2)|
  {
    assert (8 * num) % UINT32 == 8 * num;
    assert (8 * num + Code(w)) / 128 == num / 16 == (8 * num + 2) / 128;
  }

  // ---- what a proto file declares besides the schema ----

  /** `fixed` marks the types fixed32, sfixed32, fixed64 and sfixed64, which are stored and sent like the other integers;
      `elements` is the declared number of elements of a repeated field. */
  datatype Declared = Declared(fixed: bool, elements: Option<nat>)

  predicate IsInteger(k: Kind) {
    k.Int32? || k.Int64? || k.Uint32? || k.Uint64?
  }

  predicate DeclaredOk(f: Field, e: Declared) {
    (e.fixed ==> IsInteger(f.kind)) && (e.elements.Some? ==> f.repeated && e.elements.value > 0)
  }

  predicate Declares(s: Schema, d: seq<seq<Declared>>) {
    && |d| == |s|
    && forall t :: 0 <= t < |s| ==> |d[t]| == |s[t]| && forall i :: 0 <= i < |s[t]| ==> DeclaredOk(s[t][i], d[t][i])
  }

  // ---- the bound ----

  function FixedWidth(k: Kind): nat {
    if k.Int32? || k.Uint32? then 4 else 8
  }

  /** What one value counts, with its tag; `None` where there is no bound. */
  function MaxValue(s: Schema, d: seq<seq<Declared>>, num: int, k: Kind, fixed: bool): Option<nat>
    requires Declares(s, d) && Known(s, k) && num > 0
    decreases Rank(k), 0
  {
    var tag := |Varint(8 * num + 2)|;
    if fixed then Some(FixedWidth(k) + tag)
    else match k
         case Int32 => Some(5 + tag)
         case Int64 => Some(10 + tag)
         case Uint32 => Some(5 + tag)
         case Uint64 => Some(10 + tag)
         case Bool => Some(1 + tag)
         case Float32 => Some(4 + tag)
         case Float64 => Some(8 + tag)
         case Bytes(cap) => Some(cap + |Varint(cap)| + tag)
         case Text => None
         case Message(ty) =>
           match MaxFrom(s, d, ty, 0)
           case None => None
           case Some(n) => Some(n + |Varint(n)| + tag)
  }

  /** What a field counts: an array as many times as it has elements; an optional field as if it were not optional. */
  function MaxField(s: Schema, d: seq<seq<Declared>>, f: Field, e: Declared): Option<nat>
    requires Declares(s, d) && Known(s, f.kind) && f.num > 0
    decreases Rank(f.kind), 1
  {
    if f.repeated && e.elements.None? then None
    else match MaxValue(s, d, f.num, f.kind, e.fixed)
         case None => None
         case Some(n) => Some(if f.repeated then e.elements.value * n else n)
  }

  /** The bound for the fields from the `i`-th on. */
  function MaxFrom(s: Schema, d: seq<seq<Declared>>, t: nat, i: nat): Option<nat>
    requires Declares(s, d) && t < |s| && i <= |s[t]|
    decreases t, 2, |s[t]| - i
  {
    if i == |s[t]| then Some(0)
    else match MaxField(s, d, FieldAt(s, t, i), d[t][i])
         case None => None
         case Some(a) =>
           match MaxFrom(s, d, t, i + 1)
           case None => None
           case Some(b) => Some(a + b)
  }

  function MaxMessageSize(s: Schema, d: seq<seq<Declared>>, t: nat): Option<nat>
    requires Declares(s, d) && t < |s|
  {
    MaxFrom(s, d, t, 0)
  }

  // ---- fixed-width fields ----

  /** The values of a fixed-width field that keep to the width counted for it. */
  predicate Narrow(k: Kind, v: Value) {
    v.Num? && match k
              case Uint32 => v.n < 0x1000_0000
              case Int32 => -0x800_0000 <= v.n < 0x800_0000
              case Uint64 => v.n < 0x100_0000_0000_0000
              case Int64 => -0x80_0000_0000_0000 <= v.n < 0x80_0000_0000_0000
              case _ => true
  }

  lemma Pow128Values()
    ensures Pow128(4) == 0x1000_0000 && Pow128(8) == 0x100_0000_0000_0000
  {
    assert Pow128(2) == 128 * (128 * Pow128(0)) && Pow128(4) == 128 * (128 * Pow128(2));
    assert Pow128(6) == 128 * (128 * Pow128(4)) && Pow128(8) == 128 * (128 * Pow128(6));
  }

  /** Fixed-width fields are counted as 4 or 8 bytes but sent as varints, which keep to that exactly for narrow values.
      */
  lemma FixedFieldsAreUndercounted(k: Kind, v: Value)
    requires IsInteger(k) && ScalarOk(k, v)
    ensures |Payload(k, v)| <= FixedWidth(k) <==> Narrow(k, v)
  {
    Pow128Values();
    var n := if k.Int32? || k.Int64? then ZigZag(v.n) else v.n;
    VarintLength(n, FixedWidth(k));
  }

  /** A scalar's payload is within what is counted for it. */
  lemma PayloadFits(k: Kind, v: Value)
    requires !k.Message? && !k.Text? && ScalarOk(k, v)
    ensures |Payload(k, v)| <= match k
                               case Int32 => 5
                               case Int64 => 10
                               case Uint32 => 5
                               case Uint64 => 10
                               case Bool => 1
                               case Float32 => 4
                               case Float64 => 8
                               case Bytes(cap) => cap + |Varint(cap)|
                               case _ => 0
  {
    match k
    case Int32 => Varint32Length(ZigZag(v.n));
    case Int64 => Varint64Length(ZigZag(v.n));
    case Uint32 => Varint32Length(v.n);
    case Uint64 => Varint64Length(v.n);
    case Bytes(cap) => VarintMonotone(|v.bs|, cap);
    case _ =>
  }

  // ---- the messages that keep to the bound ----

  /** Every fixed-width field holds narrow values and every array has at most its declared number of elements. */
  predicate Keeps(s: Schema, d: seq<seq<Declared>>, k: Kind, fixed: bool, v: Value)
    requires Declares(s, d) && Known(s, k) && Typed(s, k, v)
    decreases Rank(k), 0
  {
    if k.Message? then KeepsFrom(s, d, k.ty, v.cols, 0) else fixed ==> Narrow(k, v)
  }

  predicate AllKeep(s: Schema, d: seq<seq<Declared>>, k: Kind, fixed: bool, vals: seq<Value>)
    requires Declares(s, d) && Known(s, k) && AllTyped(s, k, vals)
    decreases Rank(k), 1, |vals|
  {
    vals == [] || (Keeps(s, d, k, fixed, vals[0]) && AllKeep(s, d, k, fixed, vals[1..]))
  }

  predicate ColumnKeeps(s: Schema, d: seq<seq<Declared>>, f: Field, e: Declared, col: seq<Value>)
    requires Declares(s, d) && Known(s, f.kind) && ColumnTyped(s, f, col)
    decreases Rank(f.kind), 2
  {
    assert AllTyped(s, f.kind, col);
    (e.elements.Some? ==> |col| <= e.elements.value) && AllKeep(s, d, f.kind, e.fixed, col)
  }

  predicate KeepsFrom(s: Schema, d: seq<seq<Declared>>, t: nat, cols: seq<seq<Value>>, i: nat)
    requires Declares(s, d) && t < |s| && ColumnsTyped(s, t, cols) && i <= |cols|
    decreases t, 3, |cols| - i
  {
    i == |cols| || (ColumnTyped(s, FieldAt(s, t, i), cols[i])
                    && ColumnKeeps(s, d, FieldAt(s, t, i), d[t][i], cols[i]) && KeepsFrom(s, d, t, cols, i + 1))
  }

  lemma {:induction false} ValueFits(s: Schema, d: seq<seq<Declared>>, num: int, k: Kind, fixed: bool, v: Value)
    requires Declares(s, d) && Known(s, k) && 0 < num < FIELD_LIMIT && Typed(s, k, v) && (fixed ==> IsInteger(k))
    requires MaxValue(s, d, num, k, fixed).Some? && Keeps(s, d, k, fixed, v)
    ensures AllSound(Prune(s, num, k, v)) && |Print(Prune(s, num, k, v))| <= MaxValue(s, d, num, k, fixed).value
    decreases Rank(k), 0
  {
    PruneSound(s, num, k, v);
    if k.Message? {
      var items := PruneColumns(s, k.ty, v.cols, 0);
      ColumnsFit(s, d, k.ty, v.cols, 0);
      if items != [] {
        PrintOne(Group(num, items));
        TagLength(num, StartType);
      }
    } else if !IsZero(k, v) {
      PrintOne(Leaf(num, k, v));
      TagLength(num, WireOf(k));
      PayloadFits(k, v);
      if fixed {
        FixedFieldsAreUndercounted(k, v);
      }
    }
  }

  lemma {:induction false} AllFit(s: Schema, d: seq<seq<Declared>>, f: Field, fixed: bool, vals: seq<Value>, one: nat)
    requires Declares(s, d) && Known(s, f.kind) && 0 < f.num < FIELD_LIMIT && AllTyped(s, f.kind, vals)
    requires (fixed ==> IsInteger(f.kind)) && MaxValue(s, d, f.num, f.kind, fixed) == Some(one)
    requires AllKeep(s, d, f.kind, fixed, vals)
    ensures AllSound(PruneAll(s, f.num, f.kind, vals))
    ensures |Print(PruneAll(s, f.num, f.kind, vals))| <= |vals| * one
    decreases Rank(f.kind), 1, |vals|
  {
    hide Prune, Keeps, MaxValue, Typed, Sound, PrintItem;
    if vals != [] {
      ValueFits(s, d, f.num, f.kind, fixed, vals[0]);
      AllFit(s, d, f, fixed, vals[1..], one);
      PrintConcat(Prune(s, f.num, f.kind, vals[0]), PruneAll(s, f.num, f.kind, vals[1..]));
      OneMore(|vals[1..]|, one);
    }
  }

  lemma OneMore(n: nat, one: nat)
    ensures (n + 1) * one == one + n * one
  {
  }

  lemma {:induction false} FieldFits(s: Schema, d: seq<seq<Declared>>, f: Field, e: Declared, col: seq<Value>)
    requires Declares(s, d) && Known(s, f.kind) && 0 < f.num < FIELD_LIMIT && ColumnTyped(s, f, col) && DeclaredOk(f, e)
    requires MaxField(s, d, f, e).Some? && ColumnKeeps(s, d, f, e, col)
    ensures AllSound(PruneAll(s, f.num, f.kind, col))
    ensures |Print(PruneAll(s, f.num, f.kind, col))| <= MaxField(s, d, f, e).value
    decreases Rank(f.kind), 2
  {
    hide MaxValue, AllTyped, AllKeep, PruneAll;
    var one := MaxValue(s, d, f.num, f.kind, e.fixed).value;
    AllFit(s, d, f, e.fixed, col, one);
    if f.repeated {
      Times(|col|, e.elements.value, one);
    } else {
      assert |col| * one == one;
    }
  }

  lemma Times(a: nat, b: nat, n: nat)
    requires a <= b
    ensures a * n <= b * n
  {
  }

  lemma {:induction false} ColumnsFit(s: Schema, d: seq<seq<Declared>>, t: nat, cols: seq<seq<Value>>, i: nat)
    requires Declares(s, d) && t < |s| && ColumnsTyped(s, t, cols) && i <= |cols|
    requires MaxFrom(s, d, t, i).Some? && KeepsFrom(s, d, t, cols, i)
    ensures AllSound(PruneColumns(s, t, cols, i)) && |Print(PruneColumns(s, t, cols, i))| <= MaxFrom(s, d, t, i).value
    decreases t, 3, |cols| - i
  {
    hide Typed, AllTyped, Prune, PruneAll, MaxField, Sound, PrintItem, ColumnKeeps;
    PruneColumnsSound(s, t, cols, i);
    if i < |cols| {
      var f := FieldAt(s, t, i);
      assert ColumnTyped(s, f, cols[i]) && DeclaredOk(f, d[t][i]);
      FieldFits(s, d, f, d[t][i], cols[i]);
      ColumnsFit(s, d, t, cols, i + 1);
      PrintConcat(PruneAll(s, f.num, f.kind, cols[i]), PruneColumns(s, t, cols, i + 1));
    }
  }

  /** Every message of narrow fixed-width fields and arrays of the declared size, without its closing end tag, is at most
      `maxMessageSize` bytes long. */
  lemma MessageFits(s: Schema, d: seq<seq<Declared>>, t: nat, v: Value)
    requires Declares(s, d) && t < |s| && Typed(s, Message(t), v) && MaxMessageSize(s, d, t).Some?
    requires KeepsFrom(s, d, t, v.cols, 0)
    ensures AllSound(PruneMessage(s, t, v)) && |Print(PruneMessage(s, t, v))| <= MaxMessageSize(s, d, t).value
  {
    ColumnsFit(s, d, t, v.cols, 0);
  }

  // ---- the bound is reached ----

  /** Values of this kind can fill what is counted for them: strings hold something, and submessages are counted with a
      length of one byte, as long as the end tag that is sent instead. */
  predicate Tight(s: Schema, d: seq<seq<Declared>>, k: Kind)
    requires Declares(s, d) && Known(s, k)
    decreases Rank(k), 0
  {
    match k
    case Text => false
    case Bytes(cap) => 0 < cap < UINT32
    case Message(ty) => MaxFrom(s, d, ty, 0).Some? && 1 <= MaxFrom(s, d, ty, 0).value < 128 && TightFrom(s, d, ty, 0)
    case _ => true
  }

  predicate TightFrom(s: Schema, d: seq<seq<Declared>>, t: nat, i: nat)
    requires Declares(s, d) && t < |s| && i <= |s[t]|
    decreases t, 1, |s[t]| - i
  {
    i == |s[t]| || (Tight(s, d, FieldAt(s, t, i).kind) && (FieldAt(s, t, i).repeated ==> d[t][i].elements.Some?)
                    && TightFrom(s, d, t, i + 1))
  }

  /** A value with the longest encoding; of a fixed-width field, among its narrow values. */
  function Longest(s: Schema, d: seq<seq<Declared>>, k: Kind, fixed: bool): Value
    requires Declares(s, d) && Known(s, k)
    decreases Rank(k), 0
  {
    match k
    case Int32 => Num(if fixed then 0x7FF_FFFF else -0x8000_0000)
    case Int64 => Num(if fixed then 0x7F_FFFF_FFFF_FFFF else -0x8000_0000_0000_0000)
    case Uint32 => Num(if fixed then 0xFFF_FFFF else 0xFFFF_FFFF)
    case Uint64 => Num(if fixed then 0xFF_FFFF_FFFF_FFFF else 0xFFFF_FFFF_FFFF_FFFF)
    case Bytes(cap) => Blob(seq(cap, _ => 0))
    case Message(ty) => Struct(LongestColumns(s, d, ty, 0))
    case _ => Num(1)
  }

  function LongestColumns(s: Schema, d: seq<seq<Declared>>, t: nat, i: nat): (cols: seq<seq<Value>>)
    requires Declares(s, d) && t < |s| && i <= |s[t]|
    ensures |cols| == |s[t]| - i
    decreases t, 2, |s[t]| - i
  {
    if i == |s[t]| then [] else [LongestColumn(s, d, t, i)] + LongestColumns(s, d, t, i + 1)
  }

  function LongestColumn(s: Schema, d: seq<seq<Declared>>, t: nat, i: nat): seq<Value>
    requires Declares(s, d) && t < |s| && i < |s[t]|
    decreases t, 1
  {
    var f := FieldAt(s, t, i);
    Copies(Longest(s, d, f.kind, d[t][i].fixed), if f.repeated && d[t][i].elements.Some? then d[t][i].elements.value else 1)
  }

  function Copies(v: Value, n: nat): (r: seq<Value>)
    ensures |r| == n
  {
    if n == 0 then [] else [v] + Copies(v, n - 1)
  }

  lemma Pow128OddValues()
    ensures Pow128(3) == 0x20_0000 && Pow128(7) == 0x2_0000_0000_0000 && Pow128(9) == 0x8000_0000_0000_0000
  {
    Pow128Values();
    assert Pow128(4) == 128 * Pow128(3) && Pow128(8) == 128 * Pow128(7) && Pow128(9) == 128 * Pow128(8);
  }

  lemma LongestScalar(s: Schema, d: seq<seq<Declared>>, k: Kind, fixed: bool)
    requires Declares(s, d) && !k.Message? && Tight(s, d, k) && (fixed ==> IsInteger(k))
    ensures ScalarOk(k, Longest(s, d, k, fixed)) && !IsZero(k, Longest(s, d, k, fixed))
    ensures fixed ==> Narrow(k, Longest(s, d, k, fixed))
    ensures |Payload(k, Longest(s, d, k, fixed))| ==
            if fixed then FixedWidth(k)
            else match k
                 case Int32 => 5
                 case Int64 => 10
                 case Uint32 => 5
                 case Uint64 => 10
                 case Bool => 1
                 case Float32 => 4
                 case Float64 => 8
                 case Bytes(cap) => cap + |Varint(cap)|
                 case _ => 0
  {
    Pow128Values();
    var v := Longest(s, d, k, fixed);
    if IsInteger(k) {
      var n := if k.Int32? || k.Int64? then ZigZag(v.n) else v.n;
      var width := if k.Int32? || k.Uint32? then (if fixed then 4 else 5) else (if fixed then 8 else 10);
      Pow128OddValues();
      if width == 5 {
        Varint32Length(n);
      } else if width == 10 {
        Varint64Length(n);
      } else {
        VarintLength(n, width);
      }
      VarintLength(n, width - 1);
    }
  }

  lemma {:induction false} LongestValue(s: Schema, d: seq<seq<Declared>>, num: int, k: Kind, fixed: bool)
    requires Declares(s, d) && Known(s, k) && Tight(s, d, k) && 0 < num < FIELD_LIMIT && (fixed ==> IsInteger(k))
    ensures var v := Longest(s, d, k, fixed);
      && Typed(s, k, v) && Keeps(s, d, k, fixed, v) && MaxValue(s, d, num, k, fixed).Some?
      && AllSound(Prune(s, num, k, v)) && |Print(Prune(s, num, k, v))| == MaxValue(s, d, num, k, fixed).value
    decreases Rank(k), 0
  {
    hide Typed, Keeps, MaxValue, Prune, Longest, LongestColumns, Declares;
    if k.Message? {
      LongestFields(s, d, k.ty, 0, []);
      assert [] + LongestColumns(s, d, k.ty, 0) == LongestColumns(s, d, k.ty, 0);
      LongestGroup(s, d, num, k);
    } else {
      LongestLeaf(s, d, num, k, fixed);
    }
  }

  lemma LongestLeaf(s: Schema, d: seq<seq<Declared>>, num: int, k: Kind, fixed: bool)
    requires Declares(s, d) && !k.Message? && Tight(s, d, k) && 0 < num < FIELD_LIMIT && (fixed ==> IsInteger(k))
    ensures var v := Longest(s, d, k, fixed);
      && Typed(s, k, v) && Keeps(s, d, k, fixed, v) && MaxValue(s, d, num, k, fixed).Some?
      && AllSound(Prune(s, num, k, v)) && |Print(Prune(s, num, k, v))| == MaxValue(s, d, num, k, fixed).value
  {
    hide Declares, Longest, Payload, TagBytes, Varint, Narrow, IsZero, ScalarOk;
    var v := Longest(s, d, k, fixed);
    LongestScalar(s, d, k, fixed);
    PrintOne(Leaf(num, k, v));
    TagLength(num, WireOf(k));
  }

  lemma LongestGroup(s: Schema, d: seq<seq<Declared>>, num: int, k: Kind)
    requires Declares(s, d) && k.Message? && Known(s, k) && Tight(s, d, k) && 0 < num < FIELD_LIMIT
    requires var cols := LongestColumns(s, d, k.ty, 0);
      && ColumnsTyped(s, k.ty, cols) && KeepsFrom(s, d, k.ty, cols, 0) && AllSound(PruneColumns(s, k.ty, cols, 0))
      && |Print(PruneColumns(s, k.ty, cols, 0))| == MaxFrom(s, d, k.ty, 0).value
    ensures var v := Longest(s, d, k, false);
      && Typed(s, k, v) && Keeps(s, d, k, false, v) && MaxValue(s, d, num, k, false).Some?
      && AllSound(Prune(s, num, k, v)) && |Print(Prune(s, num, k, v))| == MaxValue(s, d, num, k, false).value
  {
    hide Declares, LongestColumns, ColumnsTyped, KeepsFrom, PruneColumns, TightFrom, MaxFrom, TagBytes;
    var items := PruneColumns(s, k.ty, LongestColumns(s, d, k.ty, 0), 0);
    assert items != [];
    PrintOne(Group(num, items));
    TagLength(num, StartType);
  }

  lemma {:induction false} LongestCopies(s: Schema, d: seq<seq<Declared>>, f: Field, fixed: bool, n: nat)
    requires Declares(s, d) && Known(s, f.kind) && Tight(s, d, f.kind) && 0 < f.num < FIELD_LIMIT
    requires fixed ==> IsInteger(f.kind)
    ensures MaxValue(s, d, f.num, f.kind, fixed).Some?
    ensures var vals := Copies(Longest(s, d, f.kind, fixed), n);
      && AllTyped(s, f.kind, vals) && AllKeep(s, d, f.kind, fixed, vals) && AllSound(PruneAll(s, f.num, f.kind, vals))
      && |Print(PruneAll(s, f.num, f.kind, vals))| == n * MaxValue(s, d, f.num, f.kind, fixed).value
    decreases Rank(f.kind), 1, n
  {
    hide Longest, Typed, Keeps, MaxValue, Prune, Sound, PrintItem, Tight;
    LongestValue(s, d, f.num, f.kind, fixed);
    if n > 0 {
      var v := Longest(s, d, f.kind, fixed);
      LongestCopies(s, d, f, fixed, n - 1);
      assert Copies(v, n)[1..] == Copies(v, n - 1);
      PrintConcat(Prune(s, f.num, f.kind, v), PruneAll(s, f.num, f.kind, Copies(v, n - 1)));
      OneMore(n - 1, MaxValue(s, d, f.num, f.kind, fixed).value);
    }
  }

  lemma {:induction false} LongestField(s: Schema, d: seq<seq<Declared>>, t: nat, i: nat)
    requires Declares(s, d) && t < |s| && i < |s[t]| && TightFrom(s, d, t, i)
    ensures var (f, col) := (FieldAt(s, t, i), LongestColumn(s, d, t, i));
      && ColumnTyped(s, f, col) && ColumnKeeps(s, d, f, d[t][i], col) && MaxField(s, d, f, d[t][i]).Some?
      && AllTyped(s, f.kind, col) && AllSound(PruneAll(s, f.num, f.kind, col))
      && |Print(PruneAll(s, f.num, f.kind, col))| == MaxField(s, d, f, d[t][i]).value
    decreases t, 1
  {
    hide Longest, MaxValue, AllTyped, AllKeep, PruneAll, Tight;
    assert DeclaredOk(s[t][i], d[t][i]);
    var f := FieldAt(s, t, i);
    LongestCopies(s, d, f, d[t][i].fixed, |LongestColumn(s, d, t, i)|);
  }

  lemma {:induction false} LongestFields(s: Schema, d: seq<seq<Declared>>, t: nat, i: nat, before: seq<seq<Value>>)
    requires Declares(s, d) && t < |s| && i <= |s[t]| && TightFrom(s, d, t, i) && |before| == i
    requires forall j :: 0 <= j < i ==> ColumnTyped(s, FieldAt(s, t, j), before[j])
    ensures var cols := before + LongestColumns(s, d, t, i);
      && ColumnsTyped(s, t, cols) && KeepsFrom(s, d, t, cols, i) && MaxFrom(s, d, t, i).Some?
      && AllSound(PruneColumns(s, t, cols, i)) && |Print(PruneColumns(s, t, cols, i))| == MaxFrom(s, d, t, i).value
    decreases t, 2, |s[t]| - i
  {
    hide LongestColumn, ColumnTyped, ColumnKeeps, MaxField, PruneAll, Tight, Sound;
    var cols := before + LongestColumns(s, d, t, i);
    if i < |s[t]| {
      LongestField(s, d, t, i);
      var col := LongestColumn(s, d, t, i);
      assert cols == (before + [col]) + LongestColumns(s, d, t, i + 1);
      LongestFields(s, d, t, i + 1, before + [col]);
      assert cols[i] == col;
      PrintConcat(PruneAll(s, FieldAt(s, t, i).num, FieldAt(s, t, i).kind, col), PruneColumns(s, t, cols, i + 1));
    }
  }

  /** The bound is exact: some message that keeps to the declarations is just as long, when every string can hold
      something and no submessage is counted with a length of more than one byte. */
  lemma BoundIsReached(s: Schema, d: seq<seq<Declared>>, t: nat)
    requires Declares(s, d) && t < |s| && TightFrom(s, d, t, 0)
    ensures var v := Longest(s, d, Message(t), false);
      && Typed(s, Message(t), v) && KeepsFrom(s, d, t, v.cols, 0) && MaxMessageSize(s, d, t).Some?
      && AllSound(PruneMessage(s, t, v)) && |Print(PruneMessage(s, t, v))| == MaxMessageSize(s, d, t).value
  {
    hide LongestColumns, KeepsFrom, PruneColumns, TightFrom;
    LongestFields(s, d, t, 0, []);
    assert [] + LongestColumns(s, d, t, 0) == LongestColumns(s, d, t, 0);
  }

  lemma VarintsOfTwoBytes()
    ensures |Varint(200)| == 2 && |Varint(203)| == 2 && |Varint(10)| == 1
  {
  }

  lemma OneFieldCounted(s: Schema, d: seq<seq<Declared>>, t: nat)
    requires Declares(s, d) && t < |s| && |s[t]| == 1 && !s[t][0].repeated
    ensures MaxMessageSize(s, d, t) == MaxValue(s, d, FieldAt(s, t, 0).num, FieldAt(s, t, 0).kind, d[t][0].fixed)
  {
    hide MaxValue;
    assert MaxFrom(s, d, t, 1) == Some(0);
    assert MaxField(s, d, FieldAt(s, t, 0), d[t][0]) ==
      MaxValue(s, d, FieldAt(s, t, 0).num, FieldAt(s, t, 0).kind, d[t][0].fixed);
  }

  /** Longer submessages are counted with the length of their length: 203 bytes of a string field of 200 become 206. */
  lemma SubmessagesCountTheirLength()
    ensures var (fields, d) := ([[Field(1, Bytes(200), false)], [Field(1, Message(0), false)]],
                                [[Declared(false, None)], [Declared(false, None)]]);
      SchemaOk(fields) && Declares(fields, d)
      && MaxMessageSize(fields, d, 0) == Some(203) && MaxMessageSize(fields, d, 1) == Some(206)
  {
    hide Varint, MaxFrom;
    var fields := [[Field(1, Bytes(200), false)], [Field(1, Message(0), false)]];
    var d := [[Declared(false, None)], [Declared(false, None)]];
    assert MessageOk(fields[0], 0) && MessageOk(fields[1], 1);
    var s: Schema := fields;
    assert DeclaredOk(fields[0][0], d[0][0]) && DeclaredOk(fields[1][0], d[1][0]);
    VarintsOfTwoBytes();
    OneFieldCounted(s, d, 0);
    OneFieldCounted(s, d, 1);
  }

  /** The bound holds for a message of one fixed-width field exactly when its value is narrow. */
  lemma OneFixedField(num: int, k: Kind, v: Value)
    requires 0 < num < FIELD_LIMIT && IsInteger(k) && ScalarOk(k, v)
    ensures var fields := [[Field(num, k, false)]];
      && SchemaOk(fields) && Declares(fields, [[Declared(true, None)]]) && Typed(fields, Message(0), Struct([[v]]))
      && AllSound(PruneMessage(fields, 0, Struct([[v]])))
      && MaxMessageSize(fields, [[Declared(true, None)]], 0).Some?
      && (|Print(PruneMessage(fields, 0, Struct([[v]])))| <= MaxMessageSize(fields, [[Declared(true, None)]], 0).value
          <==> Narrow(k, v))
  {
    var s := SingleField(Field(num, k, false));
    var d := [[Declared(true, None)]];
    var f := FieldAt(s, 0, 0);
    assert [v][1..] == [] && Typed(s, k, v);
    assert AllTyped(s, k, [v]);
    assert ColumnTyped(s, f, [v]) && ColumnsTyped(s, 0, [[v]]);
    OneFieldBound(s, d, num, k);
    OneFieldPrinted(s, num, k, v);
    FixedFieldsAreUndercounted(k, v);
  }

  lemma OneFieldBound(s: Schema, d: seq<seq<Declared>>, num: int, k: Kind)
    requires 0 < num < FIELD_LIMIT && IsInteger(k)
    requires s == [[Field(num, k, false)]] && d == [[Declared(true, None)]]
    ensures Declares(s, d) && MaxMessageSize(s, d, 0) == Some(FixedWidth(k) + |Varint(8 * num + 2)|)
  {
    assert DeclaredOk(s[0][0], d[0][0]) && MaxFrom(s, d, 0, 1) == Some(0);
    assert MaxField(s, d, FieldAt(s, 0, 0), d[0][0]) == Some(FixedWidth(k) + |Varint(8 * num + 2)|);
  }

  lemma OneFieldPrinted(s: Schema, num: int, k: Kind, v: Value)
    requires 0 < num < FIELD_LIMIT && IsInteger(k) && ScalarOk(k, v)
    requires s == [[Field(num, k, false)]] && ColumnsTyped(s, 0, [[v]])
    ensures AllSound(PruneMessage(s, 0, Struct([[v]])))
    ensures |Print(PruneMessage(s, 0, Struct([[v]])))| ==
            if IsZero(k, v) then 0 else |Varint(8 * num + 2)| + |Payload(k, v)|
  {
    var cols := [[v]];
    PruneColumnsSound(s, 0, cols, 0);
    assert cols[0] == [v] && [v][1..] == [];
    assert PruneColumns(s, 0, cols, 1) == [];
    var items := Prune(s, num, k, v);
    assert PruneAll(s, num, k, [v]) == items + [] == items;
    assert PruneColumns(s, 0, cols, 0) == items + [] == items;
    if !IsZero(k, v) {
      PrintOne(Leaf(num, k, v));
      TagLength(num, WireOf(k));
    }
  }

  /** A fixed32 field numbered 1 that holds the largest value takes 6 bytes where 5 are counted. */
  lemma LargestFixed32ExceedsTheBound()
    ensures var (fields, d, v) := ([[Field(1, Uint32, false)]], [[Declared(true, None)]], Struct([[Num(UINT32 - 1)]]));
      && SchemaOk(fields) && Declares(fields, d) && Typed(fields, Message(0), v)
      && MaxMessageSize(fields, d, 0) == Some(5)
      && AllSound(PruneMessage(fields, 0, v)) && |Print(PruneMessage(fields, 0, v))| == 6
  {
    OneFixedField(1, Uint32, Num(UINT32 - 1));
    OneFieldBound(SingleField(Field(1, Uint32, false)), [[Declared(true, None)]], 1, Uint32);
    OneFieldPrinted(SingleField(Field(1, Uint32, false)), 1, Uint32, Num(UINT32 - 1));
    Varint32Length(UINT32 - 1);
    FixedFieldsAreUndercounted(Uint32, Num(UINT32 - 1));
  }

  // ---- as it is computed ----

  /** 32-bit wrap-around. */
  function Wrap(n: nat): (r: nat)
    ensures r < UINT32 && (n < UINT32 ==> r == n)
  {
    n % UINT32
  }

  /** `ComputeMaxMessageSize` in 32-bit arithmetic: as long as the bound itself fits 32 bits, no intermediate sum
      wraps. */
  method ComputeMaxMessageSize(s: Schema, d: seq<seq<Declared>>, t: nat) returns (size: Option<nat>)
    requires Declares(s, d) && t < |s|
    ensures size.Some? <==> MaxMessageSize(s, d, t).Some?
    ensures MaxMessageSize(s, d, t).Some? && MaxMessageSize(s, d, t).value < UINT32 ==> size == MaxMessageSize(s, d, t)
    ensures size.Some? ==> size.value < UINT32
    decreases t, 2
  {
    hide Wrap, MaxField;
    var sum: nat := 0;
    for i := 0 to |s[t]|
      invariant sum < UINT32
      invariant MaxFrom(s, d, t, 0).Some? <==> MaxFrom(s, d, t, i).Some?
      invariant MaxFrom(s, d, t, 0).Some? && MaxFrom(s, d, t, 0).value < UINT32 ==>
        sum + MaxFrom(s, d, t, i).value == MaxFrom(s, d, t, 0).value
    {
      assert DeclaredOk(s[t][i], d[t][i]);
      var max := VisitField(s, d, FieldAt(s, t, i), d[t][i]);
      if max == None {
        return None;
      }
      assert MaxFrom(s, d, t, i).Some? ==>
        MaxFrom(s, d, t, i).value == MaxField(s, d, FieldAt(s, t, i), d[t][i]).value + MaxFrom(s, d, t, i + 1).value;
      sum := Wrap(sum + max.value);
    }
    return Some(sum);
  }

  /** One visit of `GenerateMaxMessageSizeVisitor` to a field that may be an array. */
  method VisitField(s: Schema, d: seq<seq<Declared>>, f: Field, e: Declared) returns (size: Option<nat>)
    requires Declares(s, d) && Known(s, f.kind) && 0 < f.num < FIELD_LIMIT && DeclaredOk(f, e)
    ensures size.Some? <==> MaxField(s, d, f, e).Some?
    ensures MaxField(s, d, f, e).Some? && MaxField(s, d, f, e).value < UINT32 ==> size == MaxField(s, d, f, e)
    ensures size.Some? ==> size.value < UINT32
    decreases Rank(f.kind), 1
  {
    hide Wrap, MaxValue;
    if f.repeated && e.elements == None {
      return None;
    }
    size := VisitValue(s, d, f.num, f.kind, e.fixed);
    if size != None && f.repeated {
      ghost var one := MaxValue(s, d, f.num, f.kind, e.fixed).value;
      Times(1, e.elements.value, one);
      size := Some(Wrap(e.elements.value * size.value));
    }
  }

  /** A visit to a single value. */
  method VisitValue(s: Schema, d: seq<seq<Declared>>, num: int, k: Kind, fixed: bool) returns (size: Option<nat>)
    requires Declares(s, d) && Known(s, k) && 0 < num < FIELD_LIMIT && (fixed ==> IsInteger(k))
    ensures size.Some? <==> MaxValue(s, d, num, k, fixed).Some?
    ensures MaxValue(s, d, num, k, fixed).Some? && MaxValue(s, d, num, k, fixed).value < UINT32 ==>
      size == MaxValue(s, d, num, k, fixed)
    ensures size.Some? ==> size.value < UINT32
    decreases Rank(k), 0
  {
    hide Varint, Wrap, MaxFrom;
    var tag := MaxVarIntSize(8 * num + 2);
    match k
    case Int32 => return Some(Wrap((if fixed then 4 else 5) + tag));
    case Int64 => return Some(Wrap((if fixed then 8 else 10) + tag));
    case Uint32 => return Some(Wrap((if fixed then 4 else 5) + tag));
    case Uint64 => return Some(Wrap((if fixed then 8 else 10) + tag));
    case Bool => return Some(Wrap(1 + tag));
    case Float32 => return Some(Wrap(4 + tag));
    case Float64 => return Some(Wrap(8 + tag));
    case Bytes(cap) =>
      var length := MaxVarIntSize(cap);
      return Some(Wrap(cap + length + tag));
    case Text => return None;
    case Message(ty) =>
      var inner := ComputeMaxMessageSize(s, d, ty);
      if inner == None {
        return None;
      }
      var length := MaxVarIntSize(inner.value);
      return Some(Wrap(inner.value + length + tag));
  }
}
