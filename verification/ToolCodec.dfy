/** The command line tool's own codec for messages known only by their discovered schema: it merges a submessage that
    occurs again, and skips unknown fields one level deeper than generated code does. */
module ToolCodec {
  import opened Wire
  import opened Schemas
  import opened Items
  import opened Encoder
  import opened Decoder
  import opened Reader
  import opened RoundTrip
  import opened Evolution
  import opened Fidelity
  import opened FieldOrder
  import opened Relay
  import WireFormat

  // ---- the tool's decoder ----

  /** What a submessage is read into: what the field holds already, or a new element of a repeated field. */
  function Begin(s: Schema, f: Field, col: seq<Value>): (cols: seq<seq<Value>>)
    requires Known(s, f.kind) && f.kind.Message?
    ensures |cols| == |s[f.kind.ty]|
  {
    if !f.repeated && col != [] && col[0].Struct? && |col[0].cols| == |s[f.kind.ty]| then col[0].cols
    else DefaultColumns(s, f.kind.ty)
  }

  function ReadValue(s: Schema, f: Field, col: seq<Value>, bs: seq<Byte>, nesting: int): (p: Parse<Value>)
    requires Known(s, f.kind)
    ensures p.Done? ==> IsSuffix(p.rest, bs)
    decreases |bs|, 1
  {
    if !f.kind.Message? then DecodeScalar(f.kind, bs)
    else if nesting < 0 then Bad
    else ReadFields(s, f.kind.ty, bs, Begin(s, f, col), nesting)
  }

  /** The loop of `unmarshal_message`. */
  function ReadFields(s: Schema, t: nat, bs: seq<Byte>, cols: seq<seq<Value>>, nesting: int): (p: Parse<Value>)
    requires t < |s| && |cols| == |s[t]|
    ensures p.Done? ==> IsSuffix(p.rest, bs) && |p.rest| < |bs|
    decreases |bs|, 0
  {
    var (tag, r) :- ReadTag(bs);
    if tag.wire.EndType? then Done(Struct(cols), r)
    else match Find(s[t], tag.num)
         case None =>
           var (_, r2) :- SkipField(r, tag.wire, nesting);
           ReadFields(s, t, r2, cols, nesting)
         case Some(i) =>
           var (v, r2) :- ReadValue(s, FieldAt(s, t, i), cols[i], r, nesting - 1);
           ReadFields(s, t, r2, cols[i := Store(FieldAt(s, t, i), cols[i], v)], nesting)
  }

  function ReadMessage(s: Schema, t: nat, bs: seq<Byte>): Parse<Value>
    requires t < |s|
  {
    ReadFields(s, t, bs, DefaultColumns(s, t), MAX_NESTING)
  }

  method UnmarshalValue(input: Input, s: Schema, f: Field, col: seq<Value>, nesting: int) returns (ok: bool, v: Value)
    requires Known(s, f.kind)
    modifies input
    ensures var p := ReadValue(s, f, col, old(input.bytes), nesting);
            ok == p.Done? && (ok ==> v == p.value && input.bytes == p.rest)
    decreases |input.bytes|, 1
  {
    if !f.kind.Message? {
      var p := DecodeScalar(f.kind, input.bytes);
      if !p.Done? {
        return false, Num(0);
      }
      input.bytes := p.rest;
      return true, p.value;
    }
    if nesting < 0 {
      return false, Num(0);
    }
    ok, v := UnmarshalFields(input, s, f.kind.ty, Begin(s, f, col), nesting);
  }

  /** `unmarshal_message`, which reads into a message that may hold something already. */
  method UnmarshalFields(input: Input, s: Schema, t: nat, held: seq<seq<Value>>, nesting: int) returns (ok: bool, v: Value)
    requires t < |s| && |held| == |s[t]|
    modifies input
    ensures var p := ReadFields(s, t, old(input.bytes), held, nesting);
            ok == p.Done? && (ok ==> v == p.value && input.bytes == p.rest)
    decreases |input.bytes|, 0
  {
    ghost var start := input.bytes;
    var cols := held;
    while true
      invariant |input.bytes| <= |start| && |cols| == |s[t]|
      invariant ReadFields(s, t, input.bytes, cols, nesting) == ReadFields(s, t, start, held, nesting)
      decreases |input.bytes|
    {
      var more, tag := input.ReadTag();
      if !more {
        return false, Num(0);
      }
      if tag.wire == EndType {
        return true, Struct(cols);
      }
      match Find(s[t], tag.num)
      case None =>
        more := input.Skip(tag.wire, nesting);
        if !more {
          return false, Num(0);
        }
      case Some(i) =>
        var field: Value;
        more, field := UnmarshalValue(input, s, FieldAt(s, t, i), cols[i], nesting - 1);
        if !more {
          return false, Num(0);
        }
        cols := cols[i := Store(FieldAt(s, t, i), cols[i], field)];
    }
  }

  // ---- what it makes of printed fields ----

  function Merge(r: Schema, t: nat, cols: seq<seq<Value>>, items: seq<Item>): (c: seq<seq<Value>>)
    requires t < |r| && |cols| == |r[t]| && Fits(r, t, items)
    ensures |c| == |cols|
    decreases items, 2
  {
    if items == [] then cols else Merge(r, t, MergeOne(r, t, cols, items[0]), items[1..])
  }

  function MergeOne(r: Schema, t: nat, cols: seq<seq<Value>>, item: Item): (c: seq<seq<Value>>)
    requires t < |r| && |cols| == |r[t]| && ItemFits(r, t, item)
    ensures |c| == |cols|
    decreases item, 1
  {
    match Find(r[t], item.num)
    case None => cols
    case Some(i) =>
      var f := FieldAt(r, t, i);
      cols[i := Store(f, cols[i], Merged(r, f, cols[i], item))]
  }

  function Merged(r: Schema, f: Field, col: seq<Value>, item: Item): Value
    requires Known(r, f.kind) && Carries(r, f.kind, item)
    decreases item, 0
  {
    match item
    case Leaf(_, _, v) => v
    case Group(_, items) => Struct(Merge(r, f.kind.ty, Begin(r, f, col), items))
  }

  /** How deep the tool goes: for an unknown field one level less than is there. */
  function ToolDepth(r: Schema, t: nat, items: seq<Item>): nat
    requires t < |r| && Fits(r, t, items)
    decreases items, 1
  {
    if items == [] then 0
    else
      var (a, b) := (ToolItemDepth(r, t, items[0]), ToolDepth(r, t, items[1..]));
      if a > b then a else b
  }

  function ToolItemDepth(r: Schema, t: nat, item: Item): nat
    requires t < |r| && ItemFits(r, t, item)
    decreases item, 0
  {
    match Find(r[t], item.num)
    case None => if ItemDepth(item) == 0 then 0 else ItemDepth(item) - 1
    case Some(i) =>
      assert Carries(r, FieldAt(r, t, i).kind, item);
      if item.Leaf? then 0 else 1 + ToolDepth(r, FieldAt(r, t, i).kind.ty, item.items)
  }

  lemma {:induction false} ReadBodyItem(r: Schema, f: Field, col: seq<Value>, item: Item, nesting: int, rest: seq<Byte>)
    requires Known(r, f.kind) && Sound(item) && nesting >= -1 && Carries(r, f.kind, item)
    ensures ReadValue(r, f, col, Body(item) + rest, nesting) ==
            if (item.Group? ==> ToolDepth(r, f.kind.ty, item.items) <= nesting) && CarriedWithin(r, f.kind, item)
            then Done(Merged(r, f, col, item), rest) else Bad
    decreases item, 0
  {
    match item
    case Leaf(_, k, v) => DecodeScalarRoundTrip(k, f.kind, v, rest);
    case Group(_, items) =>
      if nesting >= 0 {
        Regroup(Print(items), [END_BYTE], rest);
        ReadPrinted(r, f.kind.ty, Begin(r, f, col), items, nesting, rest);
      }
  }

  lemma ReadOneUnknown(
      r: Schema, t: nat, cols: seq<seq<Value>>, num: int, w: WireType, nesting: nat, bs: seq<Byte>, body: seq<Byte>)
    requires t < |r| && |cols| == |r[t]| && Find(r[t], num).None? && !w.EndType?
    requires ReadTag(bs) == Done(Tag(w, num), body)
    ensures var p := SkipField(body, w, nesting);
            ReadFields(r, t, bs, cols, nesting) ==
            if p.Done? then ReadFields(r, t, p.rest, cols, nesting) else if p.Short? then Short else Bad
  {
  }

  lemma ReadOneKnown(
      r: Schema, t: nat, cols: seq<seq<Value>>, num: int, w: WireType, nesting: nat, bs: seq<Byte>, body: seq<Byte>, i: nat)
    requires t < |r| && |cols| == |r[t]| && Find(r[t], num) == Some(i) && !w.EndType?
    requires ReadTag(bs) == Done(Tag(w, num), body)
    ensures var f := FieldAt(r, t, i);
            var p := ReadValue(r, f, cols[i], body, nesting - 1);
            ReadFields(r, t, bs, cols, nesting) ==
            if p.Done? then ReadFields(r, t, p.rest, cols[i := Store(f, cols[i], p.value)], nesting)
            else if p.Short? then Short else Bad
  {
  }

  lemma {:induction false} ReadFirst(
      r: Schema, t: nat, cols: seq<seq<Value>>, items: seq<Item>, nesting: nat, rest: seq<Byte>)
    requires t < |r| && |cols| == |r[t]| && items != [] && ItemFits(r, t, items[0]) && AllSound(items)
    ensures ReadFields(r, t, Print(items) + ([END_BYTE] + rest), cols, nesting) ==
            if ToolItemDepth(r, t, items[0]) <= nesting && ItemWithin(r, t, items[0])
            then ReadFields(r, t, Print(items[1..]) + ([END_BYTE] + rest), MergeOne(r, t, cols, items[0]), nesting)
            else Bad
    decreases items, 0
  {
    var item := items[0];
    var bs := Print(items) + ([END_BYTE] + rest);
    var after := Print(items[1..]) + ([END_BYTE] + rest);
    ReadFirstTag(items, rest);
    match Find(r[t], item.num)
    case None =>
      SkipBody(item, nesting, after);
      ReadOneUnknown(r, t, cols, item.num, WireOfItem(item), nesting, bs, Body(item) + after);
    case Some(i) =>
      ReadBodyItem(r, FieldAt(r, t, i), cols[i], item, nesting - 1, after);
      ReadOneKnown(r, t, cols, item.num, WireOfItem(item), nesting, bs, Body(item) + after, i);
  }

  /** The tool stores printed fields in order, merging submessages, and stops right behind the end tag. */
  lemma {:induction false} ReadPrinted(
      r: Schema, t: nat, cols: seq<seq<Value>>, items: seq<Item>, nesting: nat, rest: seq<Byte>)
    requires t < |r| && |cols| == |r[t]| && Fits(r, t, items) && AllSound(items)
    ensures ReadFields(r, t, Print(items) + ([END_BYTE] + rest), cols, nesting) ==
            if ToolDepth(r, t, items) <= nesting && Within(r, t, items)
            then Done(Struct(Merge(r, t, cols, items)), rest) else Bad
    decreases items, 1
  {
    if items == [] {
      assert Print(items) + ([END_BYTE] + rest) == [END_BYTE] + rest;
      ReadEndByte(rest);
    } else {
      ReadFirst(r, t, cols, items, nesting, rest);
      ReadPrinted(r, t, MergeOne(r, t, cols, items[0]), items[1..], nesting, rest);
    }
  }

  // ---- where nothing occurs twice, merging is storing ----

  /** No field that holds one submessage occurs twice, at any level. */
  predicate Singles(r: Schema, t: nat, items: seq<Item>)
    requires t < |r| && Fits(r, t, items)
    decreases items, 1
  {
    items == []
    || (ItemSingles(r, t, items[0], Occurrences(items[1..], items[0].num) == []) && Singles(r, t, items[1..]))
  }

  predicate ItemSingles(r: Schema, t: nat, item: Item, last: bool)
    requires t < |r| && ItemFits(r, t, item)
    decreases item, 0
  {
    var i := Find(r[t], item.num);
    item.Group? && i.Some? ==>
      && Carries(r, FieldAt(r, t, i.value).kind, item)
      && (FieldAt(r, t, i.value).repeated || last)
      && Singles(r, FieldAt(r, t, i.value).kind.ty, item.items)
  }

  /** Fields still to come that hold one submessage are untouched. */
  predicate Untouched(r: Schema, t: nat, cols: seq<seq<Value>>, items: seq<Item>)
    requires t < |r| && |cols| == |r[t]|
  {
    forall i :: 0 <= i < |cols| ==>
      FieldAt(r, t, i).kind.Message? && !FieldAt(r, t, i).repeated && Occurrences(items, FieldAt(r, t, i).num) != [] ==>
        cols[i] == DefaultColumn(r, FieldAt(r, t, i))
  }

  lemma {:induction false} MergeIsFold(r: Schema, t: nat, cols: seq<seq<Value>>, items: seq<Item>)
    requires t < |r| && |cols| == |r[t]| && Fits(r, t, items) && Singles(r, t, items) && Untouched(r, t, cols, items)
    ensures Merge(r, t, cols, items) == Fold(r, t, cols, items)
    decreases items, 1
  {
    if items != [] {
      MergeOneIsStep(r, t, cols, items[0], items[1..]);
      MergeIsFold(r, t, Step(r, t, cols, items[0]), items[1..]);
    }
  }

  lemma {:induction false} MergeOneIsStep(r: Schema, t: nat, cols: seq<seq<Value>>, item: Item, later: seq<Item>)
    requires t < |r| && |cols| == |r[t]| && ItemFits(r, t, item)
    requires ItemSingles(r, t, item, Occurrences(later, item.num) == []) && Untouched(r, t, cols, [item] + later)
    ensures MergeOne(r, t, cols, item) == Step(r, t, cols, item)
    ensures Untouched(r, t, Step(r, t, cols, item), later)
    decreases item, 0
  {
    assert ([item] + later)[1..] == later;
    match Find(r[t], item.num)
    case None =>
    case Some(i) =>
      FindAt(r, t, i);
      var f := FieldAt(r, t, i);
      assert Carries(r, f.kind, item);
      if item.Group? {
        assert Occurrences([item] + later, f.num) != [];
        if !f.repeated {
          assert cols[i] == DefaultColumn(r, FieldAt(r, t, i)) == [Default(r, f.kind)];
          assert Default(r, f.kind) == Struct(DefaultColumns(r, f.kind.ty));
        }
        assert Begin(r, f, cols[i]) == DefaultColumns(r, f.kind.ty);
        assert Untouched(r, f.kind.ty, DefaultColumns(r, f.kind.ty), item.items);
        MergeIsFold(r, f.kind.ty, DefaultColumns(r, f.kind.ty), item.items);
      }
  }

  // ---- an encoder writes nothing twice ----

  lemma {:induction false} PruneSingles(w: Schema, r: Schema, num: int, k: Kind, c: Kind, v: Value)
    requires Compatible(w, r) && Known(w, k) && Agree(k, c) && Typed(w, k, v) && 0 < num < FIELD_LIMIT
    ensures var items := Prune(w, num, k, v);
            |items| <= 1 && forall i :: 0 <= i < |items| ==>
              Carries(r, c, items[i]) && (items[i].Group? ==> Singles(r, c.ty, items[i].items))
    decreases Rank(k), 0
  {
    PruneConvert(w, r, num, k, c, v);
    if k.Message? {
      ColumnsSingles(w, r, k.ty, v.cols, 0);
    }
  }

  lemma {:induction false} FieldSingles(w: Schema, r: Schema, t: nat, j: nat, vals: seq<Value>, later: seq<Item>)
    requires Compatible(w, r) && t < |w| && j < |w[t]| && AllTyped(w, FieldAt(w, t, j).kind, vals)
    requires FieldAt(w, t, j).repeated || |vals| <= 1
    requires Fits(r, t, later) && Singles(r, t, later) && Occurrences(later, FieldAt(w, t, j).num) == []
    ensures var items := PruneAll(w, FieldAt(w, t, j).num, FieldAt(w, t, j).kind, vals) + later;
            Fits(r, t, items) && Singles(r, t, items)
    decreases t, 1, |vals|
  {
    var f := FieldAt(w, t, j);
    if vals == [] {
      assert [] + later == later;
    } else {
      var first, others := Prune(w, f.num, f.kind, vals[0]), PruneAll(w, f.num, f.kind, vals[1..]);
      var i := Find(r[t], f.num);
      PrunedFits(w, r, t, j, vals[0]);
      PruneSingles(w, r, f.num, f.kind, if i.Some? then FieldAt(r, t, i.value).kind else f.kind, vals[0]);
      FieldSingles(w, r, t, j, vals[1..], later);
      FitsConcat(r, t, first, others + later);
      Regroup(first, others, later);
      if first == [] {
        assert [] + (others + later) == others + later;
      } else {
        assert (first + (others + later))[1..] == others + later;
        if !f.repeated {
          assert others + later == later;
        }
      }
    }
  }

  lemma {:induction false} ColumnsSingles(w: Schema, r: Schema, t: nat, cols: seq<seq<Value>>, from: nat)
    requires Compatible(w, r) && t < |w| && ColumnsTyped(w, t, cols) && from <= |cols|
    ensures Fits(r, t, PruneColumns(w, t, cols, from)) && Singles(r, t, PruneColumns(w, t, cols, from))
    decreases t, 2, |cols| - from
  {
    if from < |cols| {
      var f := FieldAt(w, t, from);
      assert ColumnTyped(w, f, cols[from]);
      ColumnsSingles(w, r, t, cols, from + 1);
      assert MessageOk(w[t], t);
      OccurrencesOfNone(w, t, cols, from + 1, f.num);
      FieldSingles(w, r, t, from, cols[from], PruneColumns(w, t, cols, from + 1));
    }
  }

  // ---- depth ----

  /** The tool goes as deep as generated code, or one level less deep where the deepest field is unknown to it. */
  lemma {:induction false} ToolDepthBounds(r: Schema, t: nat, items: seq<Item>)
    requires t < |r| && Fits(r, t, items)
    ensures ToolDepth(r, t, items) <= Depth(items) <= ToolDepth(r, t, items) + 1
    decreases items, 1
  {
    if items != [] {
      ToolItemDepthBounds(r, t, items[0]);
      ToolDepthBounds(r, t, items[1..]);
    }
  }

  lemma {:induction false} ToolItemDepthBounds(r: Schema, t: nat, item: Item)
    requires t < |r| && ItemFits(r, t, item)
    ensures ToolItemDepth(r, t, item) <= ItemDepth(item) <= ToolItemDepth(r, t, item) + 1
    decreases item, 0
  {
    match Find(r[t], item.num)
    case None =>
    case Some(i) =>
      assert Carries(r, FieldAt(r, t, i).kind, item);
      if item.Group? {
        ToolDepthBounds(r, FieldAt(r, t, i).kind.ty, item.items);
      }
  }

  // ---- the main results ----

  /** What the tool reads from an encoding. */
  lemma ReadEncoded(w: Schema, r: Schema, t: nat, v: Value, rest: seq<Byte>)
    requires Compatible(w, r) && t < |w| && Typed(w, Message(t), v)
    ensures Fits(r, t, PruneMessage(w, t, v))
    ensures ReadMessage(r, t, Encode(w, t, v) + rest) ==
            if ToolDepth(r, t, PruneMessage(w, t, v)) <= 128 && HoldsColumns(w, r, t, v.cols)
            then Done(Convert(w, r, Message(t), v), rest) else Bad
  {
    var items := PruneMessage(w, t, v);
    ColumnsConvert(w, r, t, v.cols);
    ColumnsWithin(w, r, t, v.cols, 0);
    ColumnsSingles(w, r, t, v.cols, 0);
    FitsSound(r, t, items);
    MergeIsFold(r, t, DefaultColumns(r, t), items);
    Regroup(Print(items), [END_BYTE], rest);
    ReadPrinted(r, t, DefaultColumns(r, t), items, MAX_NESTING, rest);
  }

  /** The tool reads every encoding as generated code does, save one that goes to depth 129 in fields the tool does not
      know and no deeper than 128 in others: the tool reads it, generated code refuses it. */
  lemma ToolReadsTheSame(w: Schema, r: Schema, t: nat, v: Value, rest: seq<Byte>)
    requires Compatible(w, r) && t < |w| && Typed(w, Message(t), v)
    ensures Fits(r, t, PruneMessage(w, t, v))
    ensures ReadMessage(r, t, Encode(w, t, v) + rest) != Decode(r, t, Encode(w, t, v) + rest) <==>
            && ToolDepth(r, t, PruneMessage(w, t, v)) == 128 && Depth(PruneMessage(w, t, v)) == 129
            && HoldsColumns(w, r, t, v.cols)
  {
    hide PruneMessage, Encode, Decode, ReadMessage, Convert, Typed, HoldsColumns, ToolDepth, Depth, Fits;
    ReadEncoded(w, r, t, v, rest);
    DecodeEncoded(w, r, t, v, rest);
    ToolDepthBounds(r, t, PruneMessage(w, t, v));
  }

  // ---- where the tool differs ----

  /** The tool passes over one group more than generated code where it knows no field of them, and no more than that. */
  lemma SkipsOneDeeper(s: Schema, t: nat, rest: seq<Byte>)
    requires t < |s| && Find(s[t], 1).None?
    ensures ReadMessage(s, t, WireFormat.Opening(129) + (WireFormat.Closing(129) + rest)) == ReadMessage(s, t, rest)
    ensures Decode(s, t, WireFormat.Opening(129) + (WireFormat.Closing(129) + rest)) == Bad
    ensures ReadMessage(s, t, WireFormat.Opening(130) + rest) == Bad
  {
    hide ReadMessage, Decode, SkipField, Find, WireFormat.Opening, WireFormat.Closing;
    WireFormat.TooDeep(s, t, WireFormat.Closing(129) + rest);
    WireFormat.FirstOpening(128, WireFormat.Closing(129) + rest);
    PassesOver(s, t, WireFormat.Opening(128) + (WireFormat.Closing(129) + rest));
    WireFormat.SkipNested(129, 128, rest);
    WireFormat.FirstOpening(129, rest);
    PassesOver(s, t, WireFormat.Opening(129) + rest);
    WireFormat.SkipOpening(130, 128, rest);
  }

  lemma PassesOver(s: Schema, t: nat, later: seq<Byte>)
    requires t < |s| && Find(s[t], 1).None?
    ensures var p := SkipField(later, StartType, 128);
      ReadMessage(s, t, [11] + later) == if p.Done? then ReadMessage(s, t, p.rest) else if p.Short? then Short else Bad
  {
    hide ReadTag, Find, SkipField, ReadValue, IsSuffix;
    WireFormat.ReadTagByte(1, 3, later);
  }

  /** Two numbered fields, and a message that holds one submessage with them. */
  function PairFields(): (s: seq<seq<Field>>)
    ensures |s| == 2
  {
    [[Field(1, Uint32, false), Field(2, Uint32, false)], [Field(1, Message(0), false)]]
  }

  function PairSchema(): (s: Schema)
    ensures s == PairFields()
  {
    assert MessageOk(PairFields()[0], 0) && MessageOk(PairFields()[1], 1);
    PairFields()
  }

  lemma OneStep(r: Schema, t: nat, x: seq<seq<Value>>, item: Item)
    requires t < |r| && |x| == |r[t]| && ItemFits(r, t, item)
    ensures Fits(r, t, [item]) && AllSound([item]) && (Within(r, t, [item]) <==> ItemWithin(r, t, item))
    ensures Fold(r, t, x, [item]) == Step(r, t, x, item) && Merge(r, t, x, [item]) == MergeOne(r, t, x, item)
  {
    var later := [item][1..];
    assert later == [];
    assert Fold(r, t, Step(r, t, x, item), later) == Step(r, t, x, item);
    assert Merge(r, t, MergeOne(r, t, x, item), later) == MergeOne(r, t, x, item);
  }

  lemma OneLeaf(r: Schema, t: nat, i: nat, x: seq<seq<Value>>, v: Value)
    requires t < |r| && i < |r[t]| && |x| == |r[t]|
    requires var f := FieldAt(r, t, i); !f.kind.Message? && !f.repeated && ScalarOk(f.kind, v)
    ensures var items := [Leaf(FieldAt(r, t, i).num, FieldAt(r, t, i).kind, v)];
      && Fits(r, t, items) && AllSound(items) && Within(r, t, items)
      && Fold(r, t, x, items) == Merge(r, t, x, items) == x[i := [v]]
      && ToolDepth(r, t, items) == Depth(items) == 0
  {
    var f := FieldAt(r, t, i);
    var items := [Leaf(f.num, f.kind, v)];
    FindAt(r, t, i);
    assert items[1..] == [];
    assert ItemFits(r, t, items[0]) && ItemWithin(r, t, items[0]);
    assert ItemValue(r, f.kind, items[0]) == v == Merged(r, f, x[i], items[0]) && Store(f, x[i], v) == [v];
    OneStep(r, t, x, items[0]);
  }

  /** Field `i` of message `t` holds one submessage of type `ty`, and what is to come for it fits. */
  predicate HoldsOne(r: Schema, t: nat, i: nat, num: int, ty: nat, x: seq<seq<Value>>, inner: seq<Item>) {
    && t < |r| && i < |r[t]| && ty < |r| && |x| == |r[t]| && FieldAt(r, t, i) == Field(num, Message(ty), false)
    && Fits(r, ty, inner) && AllSound(inner) && Within(r, ty, inner)
  }

  lemma OneGroup(r: Schema, t: nat, i: nat, num: int, ty: nat, x: seq<seq<Value>>, inner: seq<Item>)
    requires HoldsOne(r, t, i, num, ty, x, inner)
    ensures Fits(r, t, [Group(num, inner)]) && AllSound([Group(num, inner)]) && Within(r, t, [Group(num, inner)])
    ensures Fold(r, t, x, [Group(num, inner)]) == x[i := [Struct(Fold(r, ty, DefaultColumns(r, ty), inner))]]
    ensures Merge(r, t, x, [Group(num, inner)]) ==
            x[i := [Struct(Merge(r, ty, Begin(r, FieldAt(r, t, i), x[i]), inner))]]
  {
    var f := FieldAt(r, t, i);
    var item := Group(num, inner);
    FindAt(r, t, i);
    assert [item][1..] == [];
    assert Carries(r, f.kind, item) && CarriedWithin(r, f.kind, item);
    assert ItemFits(r, t, item) && ItemWithin(r, t, item);
    assert ItemValue(r, f.kind, item) == Struct(Fold(r, ty, DefaultColumns(r, ty), inner));
    assert Merged(r, f, x[i], item) == Struct(Merge(r, ty, Begin(r, f, x[i]), inner));
    OneStep(r, t, x, item);
  }

  lemma BeginAt(r: Schema, t: nat, i: nat, num: int, ty: nat, x: seq<seq<Value>>, inner: seq<seq<Value>>)
    requires t < |r| && i < |r[t]| && ty < |r| && |x| == |r[t]| && FieldAt(r, t, i) == Field(num, Message(ty), false)
    requires |inner| == |r[ty]| && x[i] == [Struct(inner)]
    ensures Begin(r, FieldAt(r, t, i), x[i]) == inner
  {
  }

  /** A submessage that occurs twice: generated code keeps the second, the tool merges the second into the first. */
  lemma TwoGroups(r: Schema, t: nat, i: nat, num: int, ty: nat, x: seq<seq<Value>>, a: seq<Item>, b: seq<Item>)
    requires HoldsOne(r, t, i, num, ty, x, a) && HoldsOne(r, t, i, num, ty, x, b)
    requires x[i] == [Struct(DefaultColumns(r, ty))]
    ensures var items := [Group(num, a)] + [Group(num, b)];
      && Fits(r, t, items) && AllSound(items) && Within(r, t, items)
      && Fold(r, t, x, items) == x[i := [Struct(Fold(r, ty, DefaultColumns(r, ty), b))]]
      && Merge(r, t, x, items) == x[i := [Struct(Merge(r, ty, Merge(r, ty, DefaultColumns(r, ty), a), b))]]
  {
    hide Fold, Merge, Within, Depth, ToolDepth, Fits, AllSound, FieldAt, Begin, DefaultColumns;
    var start := DefaultColumns(r, ty);
    var x1, x2 := x[i := [Struct(Fold(r, ty, start, a))]], x[i := [Struct(Merge(r, ty, start, a))]];
    OneGroup(r, t, i, num, ty, x, a);
    BeginAt(r, t, i, num, ty, x, start);
    OneGroup(r, t, i, num, ty, x1, b);
    OneGroup(r, t, i, num, ty, x2, b);
    BeginAt(r, t, i, num, ty, x2, Merge(r, ty, start, a));
    Joining(r, t, x, [Group(num, a)], [Group(num, b)]);
  }

  lemma {:induction false} Joining(r: Schema, t: nat, x: seq<seq<Value>>, a: seq<Item>, b: seq<Item>)
    requires t < |r| && |x| == |r[t]| && Fits(r, t, a) && Fits(r, t, b) && AllSound(a) && AllSound(b)
    ensures Fits(r, t, a + b) && AllSound(a + b) && (Within(r, t, a + b) <==> Within(r, t, a) && Within(r, t, b))
    ensures Fold(r, t, x, a + b) == Fold(r, t, Fold(r, t, x, a), b)
    ensures Merge(r, t, x, a + b) == Merge(r, t, Merge(r, t, x, a), b)
    ensures Depth(a + b) == if Depth(a) > Depth(b) then Depth(a) else Depth(b)
    decreases |a|
  {
    WithinConcat(r, t, a, b);
    PrintConcat(a, b);
    DepthConcat(a, b);
    if a == [] {
      assert a + b == b;
    } else {
      assert (a + b)[1..] == a[1..] + b;
      Joining(r, t, Step(r, t, x, a[0]), a[1..], b);
      Joining(r, t, MergeOne(r, t, x, a[0]), a[1..], b);
    }
  }

  lemma PairFacts(a: Value, b: Value)
    requires a.Num? && b.Num? && 0 < a.n < UINT32 && 0 < b.n < UINT32
    ensures var (r, zero, ia, ib) := (PairSchema(), [[Num(0)], [Num(0)]], [Leaf(1, Uint32, a)], [Leaf(2, Uint32, b)]);
      && DefaultColumns(r, 0) == zero && DefaultColumns(r, 1) == [[Struct(zero)]]
      && HoldsOne(r, 1, 0, 1, 0, [[Struct(zero)]], ia) && HoldsOne(r, 1, 0, 1, 0, [[Struct(zero)]], ib)
      && Fold(r, 0, zero, ib) == [[Num(0)], [b]] && Merge(r, 0, zero, ia) == [[a], [Num(0)]]
      && Merge(r, 0, [[a], [Num(0)]], ib) == [[a], [b]]
      && Depth(ia) == Depth(ib) == 0
  {
    hide Print, Fold, Merge, Fits, AllSound, Within;
    var r, zero := PairSchema(), [[Num(0)], [Num(0)]];
    OneLeaf(r, 0, 0, zero, a);
    OneLeaf(r, 0, 1, zero, b);
    OneLeaf(r, 0, 1, [[a], [Num(0)]], b);
  }

  lemma TwoDeep(ia: seq<Item>, ib: seq<Item>)
    requires Depth(ia) == Depth(ib) == 0
    ensures Depth([Group(1, ia)] + [Group(1, ib)]) == 1
  {
    assert [Group(1, ia)][1..] == [] && [Group(1, ib)][1..] == [];
    DepthConcat([Group(1, ia)], [Group(1, ib)]);
  }

  /** The same fields in both decoders. */
  lemma BothRead(r: Schema, t: nat, items: seq<Item>, rest: seq<Byte>)
    requires t < |r| && Fits(r, t, items) && AllSound(items) && Within(r, t, items) && Depth(items) <= MAX_NESTING
    ensures Decode(r, t, Print(items) + ([END_BYTE] + rest)) == Done(Struct(Fold(r, t, DefaultColumns(r, t), items)), rest)
    ensures ReadMessage(r, t, Print(items) + ([END_BYTE] + rest)) ==
            Done(Struct(Merge(r, t, DefaultColumns(r, t), items)), rest)
  {
    hide Print, Fold, Merge, Fits, AllSound, Within, Depth, ToolDepth;
    ToolDepthBounds(r, t, items);
    DecodePrinted(r, t, DefaultColumns(r, t), items, MAX_NESTING, rest);
    ReadPrinted(r, t, DefaultColumns(r, t), items, MAX_NESTING, rest);
  }

  /** Bytes on which the two decoders part. */
  lemma DuplicatedSubmessageIsMerged(a: Value, b: Value, rest: seq<Byte>)
    requires a.Num? && b.Num? && 0 < a.n < UINT32 && 0 < b.n < UINT32
    ensures var items := [Group(1, [Leaf(1, Uint32, a)])] + [Group(1, [Leaf(2, Uint32, b)])];
      && AllSound(items)
      && Decode(PairSchema(), 1, Print(items) + ([END_BYTE] + rest)) == Done(Struct([[Struct([[Num(0)], [b]])]]), rest)
      && ReadMessage(PairSchema(), 1, Print(items) + ([END_BYTE] + rest)) == Done(Struct([[Struct([[a], [b]])]]), rest)
  {
    hide Print, Fold, Merge, Fits, AllSound, Within, Depth, PairFields, PairSchema, HoldsOne, DefaultColumns, Decode,
         ReadMessage;
    var r, ia, ib := PairSchema(), [Leaf(1, Uint32, a)], [Leaf(2, Uint32, b)];
    PairFacts(a, b);
    TwoGroups(r, 1, 0, 1, 0, DefaultColumns(r, 1), ia, ib);
    TwoDeep(ia, ib);
    assert DefaultColumns(r, 1)[0 := [Struct([[Num(0)], [b]])]] == [[Struct([[Num(0)], [b]])]];
    assert DefaultColumns(r, 1)[0 := [Struct([[a], [b]])]] == [[Struct([[a], [b]])]];
    BothRead(r, 1, [Group(1, ia)] + [Group(1, ib)], rest);
  }

  // ---- the tool as a relay ----

  lemma {:induction false} ToolDepthConcat(r: Schema, t: nat, a: seq<Item>, b: seq<Item>)
    requires t < |r| && Fits(r, t, a) && Fits(r, t, b)
    ensures Fits(r, t, a + b)
    ensures ToolDepth(r, t, a + b) ==
            if ToolDepth(r, t, a) > ToolDepth(r, t, b) then ToolDepth(r, t, a) else ToolDepth(r, t, b)
    decreases |a|
  {
    FitsConcat(r, t, a, b);
    if a == [] {
      assert a + b == b;
    } else {
      assert (a + b)[1..] == a[1..] + b;
      ToolDepthConcat(r, t, a[1..], b);
    }
  }

  lemma {:induction false} KnownDepth(w: Schema, m: Schema, t: nat, j: nat, v: Value)
    requires Compatible(w, m) && Knows(w, m) && t < |w| && j < |w[t]| && Typed(w, FieldAt(w, t, j).kind, v)
    ensures var items := Prune(w, FieldAt(w, t, j).num, FieldAt(w, t, j).kind, v);
            Fits(m, t, items) && ToolDepth(m, t, items) == Depth(items)
    decreases t, 0
  {
    var f := FieldAt(w, t, j);
    var items := Prune(w, f.num, f.kind, v);
    PrunedFits(w, m, t, j, v);
    if items != [] {
      var i := Find(m[t], f.num).value;
      FindAt(w, t, j);
      PruneConvert(w, m, f.num, f.kind, FieldAt(m, t, i).kind, v);
      assert items[1..] == [];
      if f.kind.Message? {
        ColumnsKnownDepth(w, m, f.kind.ty, v.cols, 0);
      }
    }
  }

  lemma {:induction false} AllKnownDepth(w: Schema, m: Schema, t: nat, j: nat, vals: seq<Value>)
    requires Compatible(w, m) && Knows(w, m) && t < |w| && j < |w[t]| && AllTyped(w, FieldAt(w, t, j).kind, vals)
    ensures var items := PruneAll(w, FieldAt(w, t, j).num, FieldAt(w, t, j).kind, vals);
            Fits(m, t, items) && ToolDepth(m, t, items) == Depth(items)
    decreases t, 1, |vals|
  {
    if vals != [] {
      var f := FieldAt(w, t, j);
      KnownDepth(w, m, t, j, vals[0]);
      AllKnownDepth(w, m, t, j, vals[1..]);
      ToolDepthConcat(m, t, Prune(w, f.num, f.kind, vals[0]), PruneAll(w, f.num, f.kind, vals[1..]));
      DepthConcat(Prune(w, f.num, f.kind, vals[0]), PruneAll(w, f.num, f.kind, vals[1..]));
    }
  }

  /** The tool looks all the way down into a message whose fields it knows. */
  lemma {:induction false} ColumnsKnownDepth(w: Schema, m: Schema, t: nat, cols: seq<seq<Value>>, from: nat)
    requires Compatible(w, m) && Knows(w, m) && t < |w| && ColumnsTyped(w, t, cols) && from <= |cols|
    ensures var items := PruneColumns(w, t, cols, from);
            Fits(m, t, items) && ToolDepth(m, t, items) == Depth(items)
    decreases t, 2, |cols| - from
  {
    if from < |cols| {
      var f := FieldAt(w, t, from);
      assert ColumnTyped(w, f, cols[from]);
      AllKnownDepth(w, m, t, from, cols[from]);
      ColumnsKnownDepth(w, m, t, cols, from + 1);
      ToolDepthConcat(m, t, PruneAll(w, f.num, f.kind, cols[from]), PruneColumns(w, t, cols, from + 1));
      DepthConcat(PruneAll(w, f.num, f.kind, cols[from]), PruneColumns(w, t, cols, from + 1));
    }
  }

  /** What the tool has read it can write again, never deeper than its own limit of 128, and every reader gets the same
      from what it writes as from what it read. */
  lemma ToolRelays(w: Schema, m: Schema, r: Schema, t: nat, v: Value, rest: seq<Byte>)
    requires Compatible(w, m) && Compatible(m, r) && Compatible(w, r) && Knows(w, m) && t < |w| && Typed(w, Message(t), v)
    ensures var p := ReadMessage(m, t, Encode(w, t, v) + rest);
      p.Done? ==>
        && p.rest == rest && Typed(m, Message(t), p.value)
        && Depth(PruneMessage(m, t, p.value)) <= 128
        && Decode(r, t, Encode(m, t, p.value) + rest) == Decode(r, t, Encode(w, t, v) + rest)
  {
    hide Encode, Decode, ReadMessage;
    ReadEncoded(w, m, t, v, rest);
    if ReadMessage(m, t, Encode(w, t, v) + rest).Done? {
      RelayedReadsTheSame(w, m, r, t, v, rest);
      SameColumns(w, m, t, v.cols);
      ReorderedDepth(PruneMessage(w, t, v), PruneMessage(m, t, Convert(w, m, Message(t), v)));
      ColumnsKnownDepth(w, m, t, v.cols, 0);
    }
  }
}
