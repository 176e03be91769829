/** Decoding what the encoder prints: round trips, schema evolution and the nesting limit. */
module RoundTrip {
  import opened Wire
  import opened Schemas
  import opened Items
  import opened Decoder

  // ---- one field on the wire ----

  function WireOfItem(item: Item): WireType
    requires Sound(item)
  {
    match item
    case Leaf(_, k, _) => WireOf(k)
    case Group(_, _) => StartType
  }

  /** What follows the tag of an item. */
  function Body(item: Item): seq<Byte>
    requires Sound(item)
  {
    match item
    case Leaf(_, k, v) => Payload(k, v)
    case Group(_, items) => Print(items) + [END_BYTE]
  }

  lemma ReadItemTag(item: Item, rest: seq<Byte>)
    requires Sound(item)
    ensures ReadTag(PrintItem(item) + rest) == Done(Tag(WireOfItem(item), item.num), Body(item) + rest)
  {
    var tag := TagBytes(item.num, WireOfItem(item));
    TagRoundTrip(item.num, WireOfItem(item), Body(item) + rest);
    Regroup(tag, Body(item), rest);
    if item.Group? {
      Regroup(tag, Print(item.items), [END_BYTE]);
    }
  }

  lemma ZigZagRoundTrip(n: int)
    ensures UnZigZag(ZigZag(n)) == n
    ensures -INT32 <= n < INT32 ==> ZigZag(n) < UINT32
    ensures -INT64 <= n < INT64 ==> ZigZag(n) < UINT64
  {
  }

  lemma DecodeNumberRoundTrip(k: Kind, v: Value, rest: seq<Byte>)
    requires !k.Message? && !k.Bytes? && !k.Text? && ScalarOk(k, v)
    ensures DecodeScalar(k, Payload(k, v) + rest) == Done(v, rest)
  {
    ZigZagRoundTrip(v.n);
    Pow256Values();
    if k.Int32? {
      ReadUint32RoundTrip(ZigZag(v.n), rest);
    } else if k.Int64? {
      ReadUint64RoundTrip(ZigZag(v.n), rest);
    } else if k.Uint32? {
      ReadUint32RoundTrip(v.n, rest);
    } else if k.Uint64? {
      ReadUint64RoundTrip(v.n, rest);
    } else if k.Float32? {
      ReadFixedRoundTrip(v.n, 4, rest);
    } else if k.Float64? {
      ReadFixedRoundTrip(v.n, 8, rest);
    } else {
      assert ([v.n as Byte] + rest)[1..] == rest;
    }
  }

  /** A string is read whole, whatever its capacity where it was written, or refused where it does not fit. */
  lemma DecodeBlobRoundTrip(k: Kind, c: Kind, v: Value, rest: seq<Byte>)
    requires (k.Bytes? || k.Text?) && (c.Bytes? || c.Text?) && ScalarOk(k, v)
    ensures DecodeScalar(c, Payload(k, v) + rest) == if c.Bytes? && |v.bs| > c.cap then Bad else Done(v, rest)
    ensures SkipField(Payload(k, v) + rest, LenType, 0) == Done((), rest)
  {
    Regroup(Varint(|v.bs|), v.bs, rest);
    ReadUint64RoundTrip(|v.bs|, v.bs + rest);
    ReadUint32RoundTrip(|v.bs|, v.bs + rest);
    TakeAppend(v.bs, rest);
  }

  lemma DecodeScalarRoundTrip(k: Kind, c: Kind, v: Value, rest: seq<Byte>)
    requires !k.Message? && Agree(k, c) && ScalarOk(k, v)
    ensures DecodeScalar(c, Payload(k, v) + rest) ==
            if c.Bytes? && v.Blob? && |v.bs| > c.cap then Bad else Done(v, rest)
  {
    if k.Bytes? || k.Text? {
      DecodeBlobRoundTrip(k, c, v, rest);
    } else {
      DecodeNumberRoundTrip(k, v, rest);
    }
  }

  lemma ReadFirstTag(items: seq<Item>, rest: seq<Byte>)
    requires AllSound(items) && items != []
    ensures ReadTag(Print(items) + ([END_BYTE] + rest)) ==
            Done(Tag(WireOfItem(items[0]), items[0].num), Body(items[0]) + (Print(items[1..]) + ([END_BYTE] + rest)))
  {
    Regroup(PrintItem(items[0]), Print(items[1..]), [END_BYTE] + rest);
    ReadItemTag(items[0], Print(items[1..]) + ([END_BYTE] + rest));
  }

  // ---- skipping ----

  lemma SkipPayload(k: Kind, v: Value, nesting: int, rest: seq<Byte>)
    requires !k.Message? && ScalarOk(k, v)
    ensures SkipField(Payload(k, v) + rest, WireOf(k), nesting) == Done((), rest)
  {
    if k.Bytes? || k.Text? {
      DecodeBlobRoundTrip(k, k, v, rest);
    } else if k.Float32? {
      TakeAppend(Fixed(v.n, 4), rest);
    } else if k.Float64? {
      TakeAppend(Fixed(v.n, 8), rest);
    } else if k.Int32? || k.Int64? {
      ZigZagRoundTrip(v.n);
      SkipVarint(ZigZag(v.n), rest);
    } else {
      SkipVarint(v.n, rest);
    }
  }

  lemma SkipVarint(n: nat, rest: seq<Byte>)
    requires n < UINT64
    ensures ReadVar(Varint(n) + rest, 10) == Done(n, rest)
  {
    Varint64Length(n);
    ReadVarRoundTrip(n, 10, rest);
  }

  /** Skipping an unknown field consumes exactly that field, or fails when its groups nest too deeply. */
  lemma {:induction false} SkipBody(item: Item, nesting: int, rest: seq<Byte>)
    requires Sound(item) && nesting >= -1
    ensures SkipField(Body(item) + rest, WireOfItem(item), nesting) ==
            if ItemDepth(item) <= nesting + 1 then Done((), rest) else Bad
    decreases item, 0
  {
    match item
    case Leaf(_, k, v) => SkipPayload(k, v, nesting, rest);
    case Group(_, items) =>
      if nesting >= 0 {
        Regroup(Print(items), [END_BYTE], rest);
        SkipPrinted(items, nesting, rest);
      }
  }

  lemma {:induction false} SkipPrinted(items: seq<Item>, nesting: nat, rest: seq<Byte>)
    requires AllSound(items)
    ensures SkipGroup(Print(items) + ([END_BYTE] + rest), nesting) ==
            if Depth(items) <= nesting then Done((), rest) else Bad
    decreases items, 1
  {
    if items == [] {
      assert Print(items) + ([END_BYTE] + rest) == [END_BYTE] + rest;
      ReadEndByte(rest);
    } else {
      var after := Print(items[1..]) + ([END_BYTE] + rest);
      ReadFirstTag(items, rest);
      SkipBody(items[0], nesting - 1, after);
      SkipPrinted(items[1..], nesting, rest);
    }
  }

  // ---- decoding ----

  /** Items whose known fields carry a kind that agrees with the one the reader's schema declares for their number. */
  predicate Fits(r: Schema, t: nat, items: seq<Item>)
    requires t < |r|
    decreases items, 1
  {
    items == [] || (ItemFits(r, t, items[0]) && Fits(r, t, items[1..]))
  }

  predicate ItemFits(r: Schema, t: nat, item: Item)
    requires t < |r|
    decreases item, 1
  {
    && Sound(item)
    && match Find(r[t], item.num)
       case None => true
       case Some(i) => Carries(r, FieldAt(r, t, i).kind, item)
  }

  predicate Carries(r: Schema, k: Kind, item: Item)
    requires Known(r, k)
    decreases item, 0
  {
    match item
    case Leaf(_, k', _) => Agree(k', k)
    case Group(_, items) => k.Message? && Fits(r, k.ty, items)
  }

  /** No string is longer than the reader's field for it. */
  predicate Within(r: Schema, t: nat, items: seq<Item>)
    requires t < |r| && Fits(r, t, items)
    decreases items, 1
  {
    items == [] || (ItemWithin(r, t, items[0]) && Within(r, t, items[1..]))
  }

  predicate ItemWithin(r: Schema, t: nat, item: Item)
    requires t < |r| && ItemFits(r, t, item)
    decreases item, 1
  {
    match Find(r[t], item.num)
    case None => true
    case Some(i) => CarriedWithin(r, FieldAt(r, t, i).kind, item)
  }

  predicate CarriedWithin(r: Schema, k: Kind, item: Item)
    requires Known(r, k) && Carries(r, k, item)
    decreases item, 0
  {
    match item
    case Leaf(_, _, v) => k.Bytes? && v.Blob? ==> |v.bs| <= k.cap
    case Group(_, items) => Within(r, k.ty, items)
  }

  lemma {:induction false} FitsSound(r: Schema, t: nat, items: seq<Item>)
    requires t < |r| && Fits(r, t, items)
    ensures AllSound(items)
  {
    if items != [] {
      FitsSound(r, t, items[1..]);
    }
  }

  /** The columns left after the fields in `items` have been stored one after the other. */
  function Fold(r: Schema, t: nat, cols: seq<seq<Value>>, items: seq<Item>): (c: seq<seq<Value>>)
    requires t < |r| && |cols| == |r[t]| && Fits(r, t, items)
    ensures |c| == |cols|
    decreases items, 2
  {
    if items == [] then cols else Fold(r, t, Step(r, t, cols, items[0]), items[1..])
  }

  /** The columns after one more field has been read. */
  function Step(r: Schema, t: nat, cols: seq<seq<Value>>, item: Item): (c: seq<seq<Value>>)
    requires t < |r| && |cols| == |r[t]| && ItemFits(r, t, item)
    ensures |c| == |cols|
    decreases item, 1
  {
    match Find(r[t], item.num)
    case None => cols
    case Some(i) =>
      var f := FieldAt(r, t, i);
      cols[i := Store(f, cols[i], ItemValue(r, f.kind, item))]
  }

  function ItemValue(r: Schema, k: Kind, item: Item): Value
    requires Known(r, k) && Carries(r, k, item)
    decreases item, 0
  {
    match item
    case Leaf(_, _, v) => v
    case Group(_, items) => Struct(Fold(r, k.ty, DefaultColumns(r, k.ty), items))
  }

  lemma {:induction false} DecodeBody(r: Schema, k: Kind, item: Item, nesting: int, rest: seq<Byte>)
    requires Known(r, k) && Sound(item) && nesting >= -1 && Carries(r, k, item)
    ensures DecodeValue(r, k, Body(item) + rest, nesting) ==
            if ItemDepth(item) <= nesting + 1 && CarriedWithin(r, k, item) then Done(ItemValue(r, k, item), rest) else Bad
    decreases item, 0
  {
    match item
    case Leaf(_, k', v) => DecodeScalarRoundTrip(k', k, v, rest);
    case Group(_, items) =>
      if nesting >= 0 {
        Regroup(Print(items), [END_BYTE], rest);
        DecodePrinted(r, k.ty, DefaultColumns(r, k.ty), items, nesting, rest);
      }
  }

  lemma DecodeOneUnknown(
      r: Schema, t: nat, cols: seq<seq<Value>>, num: int, w: WireType, nesting: nat, bs: seq<Byte>, body: seq<Byte>)
    requires t < |r| && |cols| == |r[t]| && Find(r[t], num).None? && !w.EndType?
    requires ReadTag(bs) == Done(Tag(w, num), body)
    ensures var p := SkipField(body, w, nesting - 1);
            DecodeFields(r, t, bs, cols, nesting) ==
            if p.Done? then DecodeFields(r, t, p.rest, cols, nesting) else if p.Short? then Short else Bad
  {
  }

  lemma DecodeOneKnown(
      r: Schema, t: nat, cols: seq<seq<Value>>, num: int, w: WireType, nesting: nat, bs: seq<Byte>, body: seq<Byte>, i: nat)
    requires t < |r| && |cols| == |r[t]| && Find(r[t], num) == Some(i) && !w.EndType?
    requires ReadTag(bs) == Done(Tag(w, num), body)
    ensures var f := FieldAt(r, t, i);
            var p := DecodeValue(r, f.kind, body, nesting - 1);
            DecodeFields(r, t, bs, cols, nesting) ==
            if p.Done? then DecodeFields(r, t, p.rest, cols[i := Store(f, cols[i], p.value)], nesting)
            else if p.Short? then Short else Bad
  {
  }

  lemma {:induction false} DecodeFirst(
      r: Schema, t: nat, cols: seq<seq<Value>>, items: seq<Item>, nesting: nat, rest: seq<Byte>)
    requires t < |r| && |cols| == |r[t]| && items != [] && ItemFits(r, t, items[0]) && AllSound(items)
    ensures DecodeFields(r, t, Print(items) + ([END_BYTE] + rest), cols, nesting) ==
            if ItemDepth(items[0]) <= nesting && ItemWithin(r, t, items[0])
            then DecodeFields(r, t, Print(items[1..]) + ([END_BYTE] + rest), Step(r, t, cols, items[0]), nesting)
            else Bad
    decreases items, 0
  {
    var item := items[0];
    var bs := Print(items) + ([END_BYTE] + rest);
    var after := Print(items[1..]) + ([END_BYTE] + rest);
    ReadFirstTag(items, rest);
    match Find(r[t], item.num)
    case None =>
      SkipBody(item, nesting - 1, after);
      DecodeOneUnknown(r, t, cols, item.num, WireOfItem(item), nesting, bs, Body(item) + after);
    case Some(i) =>
      DecodeBody(r, FieldAt(r, t, i).kind, item, nesting - 1, after);
      DecodeOneKnown(r, t, cols, item.num, WireOfItem(item), nesting, bs, Body(item) + after, i);
  }

  /** Decoding printed fields stores them in order and stops right after the end tag; it fails exactly when groups
      nest too deeply or a string is longer than the reader's field for it. */
  lemma {:induction false} DecodePrinted(
      r: Schema, t: nat, cols: seq<seq<Value>>, items: seq<Item>, nesting: nat, rest: seq<Byte>)
    requires t < |r| && |cols| == |r[t]| && Fits(r, t, items) && AllSound(items)
    ensures DecodeFields(r, t, Print(items) + ([END_BYTE] + rest), cols, nesting) ==
            if Depth(items) <= nesting && Within(r, t, items) then Done(Struct(Fold(r, t, cols, items)), rest) else Bad
    decreases items, 1
  {
    if items == [] {
      assert Print(items) + ([END_BYTE] + rest) == [END_BYTE] + rest;
      ReadEndByte(rest);
    } else {
      DecodeFirst(r, t, cols, items, nesting, rest);
      DecodePrinted(r, t, Step(r, t, cols, items[0]), items[1..], nesting, rest);
    }
  }
}
