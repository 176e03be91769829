/** The wire format byte by byte, and what readers do with bytes that no writer sends. */
module WireFormat {
  import opened Wire
  import opened Schemas
  import opened Items
  import opened Encoder
  import opened Decoder
  import opened RoundTrip
  import opened Evolution
  import opened Fidelity
  import opened Chunks
  import opened Frames
  import Endpoints
  import Hello

  // ---- varints ----

  /** The number written in base 128, lowest digit first. */
  function Base128(bs: seq<Byte>): nat {
    if bs == [] then 0 else bs[0] as nat % 128 + 128 * Base128(bs[1..])
  }

  /** All digits but the last have the high bit set. */
  predicate IsVarint(bs: seq<Byte>) {
    bs != [] && bs[|bs| - 1] < 128 && forall i :: 0 <= i < |bs| - 1 ==> bs[i] >= 128
  }

  lemma OneMoreDigit(b: Byte, later: seq<Byte>)
    requires b >= 128 && IsVarint(later)
    ensures IsVarint([b] + later) && Base128([b] + later) == b as nat - 128 + 128 * Base128(later)
  {
    var bs := [b] + later;
    assert bs[1..] == later && forall i :: 1 <= i < |bs| ==> bs[i] == later[i - 1];
  }

  /** A varint is its number in base 128, lowest digit first, with no digits to spare. */
  lemma {:induction false} VarintSpelledOut(n: nat)
    ensures IsVarint(Varint(n)) && Base128(Varint(n)) == n
    ensures |Varint(n)| > 1 ==> Varint(n)[|Varint(n)| - 1] != 0
  {
    if n >= 128 {
      hide IsVarint, Base128;
      VarintSpelledOut(n / 128);
      OneMoreDigit((n % 128 + 128) as Byte, Varint(n / 128));
    }
  }

  lemma ReadVarStep(b: Byte, later: seq<Byte>, max: nat)
    requires b >= 128 && max > 0
    ensures var p := ReadVar(later, max - 1);
      ReadVar([b] + later, max) ==
      if p.Done? then Done(b as nat - 128 + 128 * p.value, p.rest) else if p.Short? then Short else Bad
  {
    hide IsSuffix;
    assert ([b] + later)[1..] == later;
  }

  lemma ReadVarLast(b: Byte, rest: seq<Byte>, max: nat)
    requires b < 128
    ensures ReadVar([b] + rest, max) == if max > 0 then Done(b as nat, rest) else Bad
  {
    assert ([b] + rest)[1..] == rest;
  }

  lemma DigitsLeft(bs: seq<Byte>)
    requires IsVarint(bs)
    ensures |bs| > 1 ==> bs[0] >= 128 && IsVarint(bs[1..]) && Base128(bs) == bs[0] as nat - 128 + 128 * Base128(bs[1..])
    ensures |bs| == 1 ==> bs[0] < 128 && Base128(bs) == bs[0] as nat
  {
    hide Base128;
    if |bs| > 1 {
      assert bs[1..] != [] && bs[1..][|bs| - 2] == bs[|bs| - 1];
      HighDigit(bs);
    } else {
      LastDigit(bs);
    }
  }

  lemma HighDigit(bs: seq<Byte>)
    requires bs != [] && bs[0] >= 128
    ensures Base128(bs) == bs[0] as nat - 128 + 128 * Base128(bs[1..])
  {
    var b := bs[0] as nat;
    assert b % 128 == b - 128;
  }

  lemma LastDigit(bs: seq<Byte>)
    requires |bs| == 1 && bs[0] < 128
    ensures Base128(bs) == bs[0] as nat
  {
    assert bs[1..] == [] && Base128([]) == 0;
  }

  lemma {:induction false} ReadVarExactly(bs: seq<Byte>, max: nat, rest: seq<Byte>)
    requires IsVarint(bs)
    ensures ReadVar(bs + rest, max) == if |bs| <= max then Done(Base128(bs), rest) else Bad
    decreases |bs|
  {
    DigitsLeft(bs);
    assert bs != [];
    hide IsVarint, Base128, ReadVar;
    if max == 0 {
      ReadNothing(bs + rest);
    } else if |bs| > 1 {
      assert bs + rest == [bs[0]] + (bs[1..] + rest);
      ReadVarExactly(bs[1..], max - 1, rest);
      ReadVarStep(bs[0], bs[1..] + rest, max);
    } else {
      assert bs + rest == [bs[0]] + rest;
      ReadVarLast(bs[0], rest, max);
    }
  }

  lemma ReadNothing(bs: seq<Byte>)
    ensures ReadVar(bs, 0) == Bad
  {
  }

  /** Readers accept any varint of at most 5 or 10 bytes, with or without digits to spare, whose value fits; they refuse
      every other one, and wait for the end of one that may still be good. */
  lemma ReadersAcceptExactly(bs: seq<Byte>, rest: seq<Byte>)
    requires IsVarint(bs)
    ensures ReadUint32(bs + rest) ==
            if |bs| <= 5 && Base128(bs) < 0x1_0000_0000 then Done(Base128(bs), rest) else Bad
    ensures ReadUint64(bs + rest) ==
            if |bs| <= 10 && Base128(bs) < 0x1_0000_0000_0000_0000 then Done(Base128(bs), rest) else Bad
  {
    ReadVarExactly(bs, 5, rest);
    ReadVarExactly(bs, 10, rest);
  }

  lemma {:induction false} ReadUnfinished(bs: seq<Byte>, max: nat)
    requires forall i :: 0 <= i < |bs| ==> bs[i] >= 128
    ensures ReadVar(bs, max) == if |bs| < max then Short else Bad
    decreases |bs|
  {
    if bs != [] && max > 0 {
      ReadUnfinished(bs[1..], max - 1);
    }
  }

  // ---- messages ----

  /** The code of the wire type in which a kind of scalar travels. */
  function TypeCode(k: Kind): nat {
    match k
    case Float64 => 1
    case Bytes(_) => 2
    case Text => 2
    case Float32 => 5
    case _ => 0
  }

  /** The four lowest bytes of a number, lowest first. */
  function Four(n: nat): seq<Byte> {
    [(n % 0x100) as Byte, (n / 0x100 % 0x100) as Byte, (n / 0x1_0000 % 0x100) as Byte, (n / 0x100_0000 % 0x100) as Byte]
  }

  /** What follows the tag of a scalar. Signed integers become 2n, or -2n - 1 when they are negative; true is a byte 1;
      floats are their bits, lowest byte first; strings follow their length. */
  function ScalarBytes(k: Kind, v: Value): seq<Byte>
    requires !k.Message? && ScalarOk(k, v)
  {
    match k
    case Int32 => Varint(if v.n < 0 then -2 * v.n - 1 else 2 * v.n)
    case Int64 => Varint(if v.n < 0 then -2 * v.n - 1 else 2 * v.n)
    case Uint32 => Varint(v.n)
    case Uint64 => Varint(v.n)
    case Bool => if v.n == 1 then [1] else [0]
    case Float32 => Four(v.n)
    case Float64 => Four(v.n) + Four(v.n / 0x1_0000_0000)
    case Bytes(_) => Varint(|v.bs|) + v.bs
    case Text => Varint(|v.bs|) + v.bs
  }

  /** One value: nothing when it is blank or hollow; otherwise a tag, which is a varint of eight times the field number
      plus the code of a wire type, and the scalar, or the submessage with its end tag. */
  function ValueBytes(s: Schema, num: int, k: Kind, v: Value): seq<Byte>
    requires Known(s, k) && Typed(s, k, v) && num > 0
    decreases Rank(k), 0
  {
    if k.Message? then
      if Hollow(s, k, v) then [] else Varint(8 * num + 3) + (FieldsBytes(s, k.ty, v.cols, 0) + [4])
    else if Blank(k, v) then [] else Varint(8 * num + TypeCode(k)) + ScalarBytes(k, v)
  }

  function ListBytes(s: Schema, num: int, k: Kind, vals: seq<Value>): seq<Byte>
    requires Known(s, k) && AllTyped(s, k, vals) && num > 0
    decreases Rank(k), 1, |vals|
  {
    if vals == [] then [] else ValueBytes(s, num, k, vals[0]) + ListBytes(s, num, k, vals[1..])
  }

  function FieldsBytes(s: Schema, t: nat, cols: seq<seq<Value>>, i: nat): seq<Byte>
    requires t < |s| && ColumnsTyped(s, t, cols) && i <= |cols|
    decreases t, 2, |cols| - i
  {
    if i == |cols| then []
    else
      var f := FieldAt(s, t, i);
      assert ColumnTyped(s, f, cols[i]);
      ListBytes(s, f.num, f.kind, cols[i]) + FieldsBytes(s, t, cols, i + 1)
  }

  lemma TagSpelledOut(num: int, k: Kind)
    requires 0 < num < 0x1000_0000
    ensures TagBytes(num, StartType) == Varint(8 * num + 3)
    ensures !k.Message? ==> TagBytes(num, WireOf(k)) == Varint(8 * num + TypeCode(k))
  {
    assert (num * 8) % UINT32 == 8 * num;
  }

  lemma LowestByte(n: nat, width: nat)
    requires width > 0
    ensures Fixed(n, width) == [(n % 256) as Byte] + Fixed(n / 256, width - 1)
  {
  }

  lemma FourLowest(n: nat, width: nat)
    requires width >= 4
    ensures Fixed(n, width) == Four(n) + Fixed(n / 0x1_0000_0000, width - 4)
  {
    hide Fixed;
    LowestByte(n, width);
    LowestByte(n / 0x100, width - 1);
    LowestByte(n / 0x1_0000, width - 2);
    LowestByte(n / 0x100_0000, width - 3);
    assert n / 0x100 / 256 == n / 0x1_0000 && n / 0x1_0000 / 256 == n / 0x100_0000;
    assert n / 0x100_0000 / 256 == n / 0x1_0000_0000;
  }

  lemma ScalarSpelledOut(k: Kind, v: Value)
    requires !k.Message? && ScalarOk(k, v)
    ensures Payload(k, v) == ScalarBytes(k, v)
  {
    hide Four;
    if k.Float32? {
      FourLowest(v.n, 4);
      assert Four(v.n) + [] == Four(v.n);
    } else if k.Float64? {
      FourLowest(v.n, 8);
      FourLowest(v.n / 0x1_0000_0000, 4);
      assert Four(v.n / 0x1_0000_0000) + [] == Four(v.n / 0x1_0000_0000);
    }
  }

  lemma {:induction false} ValueSpelledOut(s: Schema, num: int, k: Kind, v: Value)
    requires Known(s, k) && Typed(s, k, v) && 0 < num < FIELD_LIMIT
    ensures AllSound(Prune(s, num, k, v)) && Print(Prune(s, num, k, v)) == ValueBytes(s, num, k, v)
    decreases Rank(k), 0
  {
    hide Payload, ScalarBytes, TagBytes, Varint, TypeCode, WireOf;
    PruneSound(s, num, k, v);
    TagSpelledOut(num, k);
    if k.Message? {
      PrunedAwayExactlyWhenDefault(s, k.ty, v);
      FieldsSpelledOut(s, k.ty, v.cols, 0);
      var items := PruneColumns(s, k.ty, v.cols, 0);
      if items != [] {
        PrintOne(Group(num, items));
        Regroup(TagBytes(num, StartType), Print(items), [END_BYTE]);
      }
    } else if !Blank(k, v) {
      PrintOne(Leaf(num, k, v));
      ScalarSpelledOut(k, v);
    }
  }

  lemma {:induction false} ListSpelledOut(s: Schema, num: int, k: Kind, vals: seq<Value>)
    requires Known(s, k) && AllTyped(s, k, vals) && 0 < num < FIELD_LIMIT
    ensures AllSound(PruneAll(s, num, k, vals)) && Print(PruneAll(s, num, k, vals)) == ListBytes(s, num, k, vals)
    decreases Rank(k), 1, |vals|
  {
    hide Prune, ValueBytes, Typed, PrintItem;
    if vals != [] {
      ValueSpelledOut(s, num, k, vals[0]);
      ListSpelledOut(s, num, k, vals[1..]);
      PrintConcat(Prune(s, num, k, vals[0]), PruneAll(s, num, k, vals[1..]));
    }
  }

  lemma {:induction false} FieldsSpelledOut(s: Schema, t: nat, cols: seq<seq<Value>>, i: nat)
    requires t < |s| && ColumnsTyped(s, t, cols) && i <= |cols|
    ensures AllSound(PruneColumns(s, t, cols, i)) && Print(PruneColumns(s, t, cols, i)) == FieldsBytes(s, t, cols, i)
    decreases t, 2, |cols| - i
  {
    hide PruneAll, ListBytes, AllTyped, PrintItem;
    if i < |cols| {
      var f := FieldAt(s, t, i);
      assert ColumnTyped(s, f, cols[i]);
      ListSpelledOut(s, f.num, f.kind, cols[i]);
      FieldsSpelledOut(s, t, cols, i + 1);
      PrintConcat(PruneAll(s, f.num, f.kind, cols[i]), PruneColumns(s, t, cols, i + 1));
    }
  }

  /** The encoding of a message, byte by byte. */
  lemma EncodingSpelledOut(s: Schema, t: nat, v: Value)
    requires t < |s| && Typed(s, Message(t), v)
    ensures Encode(s, t, v) == FieldsBytes(s, t, v.cols, 0) + [4]
  {
    FieldsSpelledOut(s, t, v.cols, 0);
  }

  // ---- what the decoder makes of bytes no encoder sends ----

  lemma ReadTagByte(num: nat, w: nat, rest: seq<Byte>)
    requires num < 16 && w < 8
    ensures ReadTag([(8 * num + w) as Byte] + rest) == Done(Tag(Uncode(w), num), rest)
  {
    assert ([(8 * num + w) as Byte] + rest)[1..] == rest;
  }

  lemma DecodeBegins(s: Schema, t: nat, bs: seq<Byte>)
    requires t < |s|
    ensures Decode(s, t, bs) == DecodeFields(s, t, bs, DefaultColumns(s, t), 128)
  {
  }

  lemma AtEnd(s: Schema, t: nat, num: nat, later: seq<Byte>, cols: seq<seq<Value>>, nesting: int)
    requires t < |s| && |cols| == |s[t]| && num < 16
    ensures DecodeFields(s, t, [(8 * num + 4) as Byte] + later, cols, nesting) == Done(Struct(cols), later)
  {
    hide ReadTag, Find, SkipField, DecodeValue, IsSuffix;
    ReadTagByte(num, 4, later);
  }

  lemma AtUnknown(s: Schema, t: nat, num: nat, w: nat, later: seq<Byte>)
    requires t < |s| && num < 16 && w < 8 && w != 4 && Find(s[t], num).None?
    ensures var p := SkipField(later, Uncode(w), 127);
      Decode(s, t, [(8 * num + w) as Byte] + later) ==
      if p.Done? then Decode(s, t, p.rest) else if p.Short? then Short else Bad
  {
    hide ReadTag, Find, SkipField;
    ReadTagByte(num, w, later);
    DecodeBegins(s, t, [(8 * num + w) as Byte] + later);
    var p := SkipField(later, Uncode(w), 127);
    if p.Done? {
      DecodeBegins(s, t, p.rest);
    }
  }

  /** What a field holds that was not sent: a submessage, what its own end tag alone is read as. */
  function Missing(s: Schema, f: Field): seq<Value>
    requires Known(s, f.kind)
  {
    if f.repeated then []
    else match f.kind
         case Bytes(_) => [Blob([])]
         case Text => [Blob([])]
         case Message(ty) => (var p := Decode(s, ty, [4]); if p.Done? then [p.value] else [])
         case _ => [Num(0)]
  }

  /** A message ends at the first end tag, whatever its number; fields that were not sent hold nothing. */
  lemma EmptyMessage(s: Schema, t: nat, num: nat, rest: seq<Byte>)
    requires t < |s| && num < 16
    ensures var p := Decode(s, t, [(8 * num + 4) as Byte] + rest);
      && p.Done? && p.rest == rest && p.value.Struct? && |p.value.cols| == |s[t]|
      && forall i :: 0 <= i < |s[t]| ==> p.value.cols[i] == Missing(s, FieldAt(s, t, i))
  {
    DecodeBegins(s, t, [(8 * num + 4) as Byte] + rest);
    AtEnd(s, t, num, rest, DefaultColumns(s, t), 128);
    forall i | 0 <= i < |s[t]| ensures DefaultColumns(s, t)[i] == Missing(s, FieldAt(s, t, i)) {
      MissingIsDefault(s, FieldAt(s, t, i));
    }
  }

  lemma MissingIsDefault(s: Schema, f: Field)
    requires Known(s, f.kind)
    ensures DefaultColumn(s, f) == Missing(s, f)
  {
    hide Decode, DefaultColumns;
    if f.kind.Message? {
      AloneMissing(s, f.kind.ty);
    }
  }

  lemma AloneMissing(s: Schema, ty: nat)
    requires ty < |s|
    ensures Decode(s, ty, [4]) == Done(Struct(DefaultColumns(s, ty)), [])
  {
    assert [4] + [] == [4 as Byte];
    DecodeBegins(s, ty, [4]);
    AtEnd(s, ty, 0, [], DefaultColumns(s, ty), 128);
  }

  /** The decoder goes by the field number alone: a scalar is read under any wire type but that of an end tag. */
  lemma AnyWireType(num: nat, k: Kind, v: Value, w: nat, rest: seq<Byte>)
    requires 0 < num < 16 && w < 8 && w != 4 && !k.Message? && ScalarOk(k, v)
    ensures Decode(SingleField(Field(num, k, false)), 0, [(8 * num + w) as Byte] + (ScalarBytes(k, v) + ([4] + rest))) ==
            Done(Struct([[v]]), rest)
  {
    hide ReadTag, SingleField, DecodeScalar, ScalarBytes, DecodeFields;
    var s := SingleField(Field(num, k, false));
    FindAt(s, 0, 0);
    var later := ScalarBytes(k, v) + ([4] + rest);
    ScalarSpelledOut(k, v);
    DecodeScalarRoundTrip(k, k, v, [4] + rest);
    DecodeBegins(s, 0, [(8 * num + w) as Byte] + later);
    AtKnown(s, num, w, k, v, later, [4] + rest);
    AtEnd(s, 0, 0, rest, [[v]], 128);
  }

  lemma AtKnown(s: Schema, num: nat, w: nat, k: Kind, v: Value, later: seq<Byte>, rest: seq<Byte>)
    requires num < 16 && w < 8 && w != 4 && !k.Message? && s == [[Field(num, k, false)]]
    requires DecodeScalar(k, later) == Done(v, rest) && |rest| <= |later|
    ensures DecodeFields(s, 0, [(8 * num + w) as Byte] + later, DefaultColumns(s, 0), 128) ==
            DecodeFields(s, 0, rest, [[v]], 128)
  {
    hide DecodeScalar, Find, DecodeFields;
    AtField(s, 0, 0, num, w, later, DefaultColumns(s, 0), v, rest);
    assert DefaultColumns(s, 0)[0 := [v]] == [[v]];
  }

  lemma AtField(
      s: Schema, t: nat, i: nat, num: nat, w: nat, later: seq<Byte>, cols: seq<seq<Value>>, v: Value, rest: seq<Byte>)
    requires t < |s| && i < |s[t]| && s[t][i].num == num && |cols| == |s[t]| && num < 16 && w < 8 && w != 4
    requires DecodeValue(s, FieldAt(s, t, i).kind, later, 127) == Done(v, rest)
    ensures DecodeFields(s, t, [(8 * num + w) as Byte] + later, cols, 128) ==
            DecodeFields(s, t, rest, cols[i := Store(FieldAt(s, t, i), cols[i], v)], 128)
  {
    hide ReadTag, Find, SkipField, DecodeValue, Store, IsSuffix;
    FindAt(s, t, i);
    ReadTagByte(num, w, later);
  }

  /** Two of the eight wire types mean nothing: a field that is not known is refused under them. Of the others, each
      says how much to skip. */
  lemma UnknownFieldsSkipped(s: Schema, t: nat, num: nat, w: nat, bs: seq<Byte>, rest: seq<Byte>)
    requires t < |s| && 0 < num < 16 && Find(s[t], num).None?
    ensures w == 6 || w == 7 ==> Decode(s, t, [(8 * num + w) as Byte] + rest) == Bad
    ensures (w == 0 && IsVarint(bs) && |bs| <= 10) || (w == 1 && |bs| == 8) || (w == 5 && |bs| == 4) ==>
      Decode(s, t, [(8 * num + w) as Byte] + (bs + rest)) == Decode(s, t, rest)
    ensures w == 2 && |bs| < 0x1_0000_0000 ==>
      Decode(s, t, [(8 * num + w) as Byte] + ((Varint(|bs|) + bs) + rest)) == Decode(s, t, rest)
  {
    hide Decode, SkipField, Find, Varint, IsVarint;
    if w == 6 || w == 7 {
      AtUnknown(s, t, num, w, rest);
      ReservedRefused(w, rest);
    } else if (w == 0 && IsVarint(bs) && |bs| <= 10) || (w == 1 && |bs| == 8) || (w == 5 && |bs| == 4) {
      AtUnknown(s, t, num, w, bs + rest);
      NumberSkipped(w, bs, rest);
    } else if w == 2 && |bs| < 0x1_0000_0000 {
      AtUnknown(s, t, num, w, (Varint(|bs|) + bs) + rest);
      StringSkipped(bs, rest);
    }
  }

  lemma ReservedRefused(w: nat, rest: seq<Byte>)
    requires w == 6 || w == 7
    ensures SkipField(rest, Uncode(w), 127) == Bad
  {
  }

  lemma NumberSkipped(w: nat, bs: seq<Byte>, rest: seq<Byte>)
    requires (w == 0 && IsVarint(bs) && |bs| <= 10) || (w == 1 && |bs| == 8) || (w == 5 && |bs| == 4)
    ensures SkipField(bs + rest, Uncode(w), 127) == Done((), rest)
  {
    hide ReadVar, IsVarint;
    if w == 0 {
      ReadVarExactly(bs, 10, rest);
    } else {
      TakeAppend(bs, rest);
    }
  }

  lemma StringSkipped(bs: seq<Byte>, rest: seq<Byte>)
    requires |bs| < 0x1_0000_0000
    ensures SkipField((Varint(|bs|) + bs) + rest, Uncode(2), 127) == Done((), rest)
  {
    hide ReadUint32, Varint;
    Regroup(Varint(|bs|), bs, rest);
    ReadUint32RoundTrip(|bs|, bs + rest);
    TakeAppend(bs, rest);
  }

  /** `d` start tags of field 1 in a row. */
  function Opening(d: nat): seq<Byte> {
    if d == 0 then [] else [11] + Opening(d - 1)
  }

  lemma {:induction false} SkipOpening(d: nat, nesting: int, rest: seq<Byte>)
    requires d > 0 && nesting >= -1 && d > nesting + 1
    ensures SkipField(Opening(d - 1) + rest, StartType, nesting) == Bad
    decreases d
  {
    if nesting >= 0 {
      ReadTagByte(1, 3, Opening(d - 2) + rest);
      assert Opening(d - 1) + rest == [11] + (Opening(d - 2) + rest);
      SkipOpening(d - 1, nesting - 1, rest);
    }
  }

  /** `d` end tags in a row. */
  function Closing(d: nat): seq<Byte> {
    if d == 0 then [] else [4] + Closing(d - 1)
  }

  lemma {:induction false} ClosingOnce(d: nat)
    ensures Closing(d + 1) == Closing(d) + [4]
  {
    if d > 0 {
      ClosingOnce(d - 1);
    }
  }

  /** The rest of `d` groups within each other, of which the first has been opened. */
  lemma {:induction false} SkipNested(d: nat, nesting: int, rest: seq<Byte>)
    requires 0 < d <= nesting + 1
    ensures SkipField(Opening(d - 1) + (Closing(d) + rest), StartType, nesting) == Done((), rest)
    decreases d
  {
    hide SkipField, SkipGroup;
    if d == 1 {
      assert Closing(1) == [4] + [] && Opening(0) + (Closing(1) + rest) == [4] + rest;
      SkipGroupEnds(nesting, rest);
    } else {
      ClosingOnce(d - 1);
      var inner := Closing(d - 1) + ([4] + rest);
      assert Closing(d) + rest == inner;
      FirstOpening(d - 2, inner);
      SkipNested(d - 1, nesting - 1, [4] + rest);
      SkipInner(nesting, Opening(d - 2) + inner, [4] + rest);
      SkipGroupEnds(nesting, rest);
    }
  }

  lemma SkipInner(nesting: int, bs: seq<Byte>, later: seq<Byte>)
    requires nesting >= 0 && SkipField(bs, StartType, nesting - 1) == Done((), later)
    ensures SkipField([11] + bs, StartType, nesting) == SkipGroup(later, nesting)
  {
    assert SkipField([11] + bs, StartType, nesting) == SkipGroup([11] + bs, nesting);
    SkipGroupStep(nesting, [11] + bs, bs, later) by {
      ReadTagByte(1, 3, bs);
    }
  }

  lemma SkipGroupStep(nesting: int, bs: seq<Byte>, inner: seq<Byte>, later: seq<Byte>)
    requires ReadTag(bs) == Done(Tag(StartType, 1), inner) && SkipField(inner, StartType, nesting - 1) == Done((), later)
    ensures SkipGroup(bs, nesting) == SkipGroup(later, nesting)
  {
    hide ReadTag, SkipField, IsSuffix;
  }

  lemma SkipGroupEnds(nesting: int, rest: seq<Byte>)
    ensures SkipGroup([4] + rest, nesting) == Done((), rest)
    ensures nesting >= 0 ==> SkipField([4] + rest, StartType, nesting) == Done((), rest)
  {
    hide ReadTag;
    ReadTagByte(0, 4, rest);
  }

  /** 128 groups within each other are passed over and 129 are refused, when no field of them is known. */
  lemma TooDeep(s: Schema, t: nat, rest: seq<Byte>)
    requires t < |s| && Find(s[t], 1).None?
    ensures Decode(s, t, Opening(128) + (Closing(128) + rest)) == Decode(s, t, rest)
    ensures Decode(s, t, Opening(129) + rest) == Bad
  {
    hide Decode, SkipField, Find, Opening, Closing;
    FirstOpening(128, rest);
    AtUnknown(s, t, 1, 3, Opening(128) + rest);
    SkipOpening(129, 127, rest);
    FirstOpening(127, Closing(128) + rest);
    AtUnknown(s, t, 1, 3, Opening(127) + (Closing(128) + rest));
    SkipNested(128, 127, rest);
  }

  lemma FirstOpening(d: nat, rest: seq<Byte>)
    ensures Opening(d + 1) + rest == [11] + (Opening(d) + rest)
  {
    assert Opening(d + 1) == [11] + Opening(d);
  }

  /** A bool is a byte 0 or 1 and nothing else; strings longer than their field are refused. */
  lemma ScalarsRefused(b: Byte, cap: nat, n: nat, rest: seq<Byte>)
    ensures DecodeScalar(Bool, [b] + rest) == if b < 2 then Done(Num(b as int), rest) else Bad
    ensures cap < n < 0x1_0000_0000_0000_0000 ==> DecodeScalar(Bytes(cap), Varint(n) + rest) == Bad
  {
    assert ([b] + rest)[1..] == rest;
    if n < 0x1_0000_0000_0000_0000 {
      ReadUint64RoundTrip(n, rest);
    }
  }

  // ---- requests ----

  /** The body of a request or of a server message, if it has one. */
  function BodySpelled(s: Schema, t: Option<nat>, body: Option<Value>): seq<Byte>
    requires BodyOk(s, t, body)
  {
    if body.None? then [] else Encode(s, t.value, body.value)
  }

  /** What callers may send: to any endpoint, a body of its request type at most 128 submessages deep, if it has one; to
      subscribe the same, and nothing to unsubscribe. */
  lemma RequestsTypedExactly(p: Protocol, ep: nat, op: Op, body: Option<Value>)
    requires 1 <= ep <= |p.table|
    ensures RequestTyped(p, Request(ep, op, body)) <==>
      var e := p.table[ep - 1];
      && (if e.streaming then op == Subscribe || op == Unsubscribe else op == Unary)
      && if op == Unsubscribe || e.req.None? then body == None
         else body.Some? && e.req.value < |p.client| && Typed(p.client, Message(e.req.value), body.value)
              && Nest(p.client, Message(e.req.value), body.value) <= 129
  {
  }

  /** A request: its endpoint id; for a streaming endpoint a byte 1 to subscribe or 0 to unsubscribe; and its body, which
      an unsubscribe request does not have. */
  lemma RequestSpelledOut(p: Protocol, q: Request)
    requires RequestTyped(p, q)
    ensures var e := p.table[q.ep - 1];
      && (q.op == Unary <==> !e.streaming) && (q.op == Unsubscribe ==> q.body.None?)
      && (q.op != Unsubscribe ==> BodyOk(p.client, e.req, q.body))
      && RequestBytes(p, q) ==
         Varint(q.ep) + ((match q.op
                          case Unary => []
                          case Subscribe => [1]
                          case Unsubscribe => [0])
                         + if q.op == Unsubscribe || q.body.None? then [] else BodySpelled(p.client, e.req, q.body))
  {
  }

  /** The server takes id 0 for a goodbye, an id beyond its table for an unknown endpoint, and any flag but 0 for a
      subscription. */
  lemma RequestsDecided(p: Protocol, n: nat, b: Byte, rest: seq<Byte>)
    requires p.TableOk() && n < 0x1_0000_0000
    ensures ReadRequest(p, [0] + rest) == Done(CloseRequest, rest)
    ensures n > |p.table| ==> ReadRequest(p, Varint(n) + rest) == Done(Unserved(n), rest)
    ensures 1 <= n <= |p.table| && p.table[n - 1] == Endpoint(None, None, true) ==>
      ReadRequest(p, Varint(n) + ([b] + rest)) == Done(Request(n, if b == 0 then Unsubscribe else Subscribe, None), rest)
    ensures 1 <= n <= |p.table| && p.table[n - 1] == Endpoint(None, None, false) ==>
      ReadRequest(p, Varint(n) + rest) == Done(Request(n, Unary, None), rest)
  {
    hide Varint, ReadUint32;
    assert ReadUint32([0] + rest) == Done(0, rest) by {
      ReadZero(rest);
    }
    ReadUint32RoundTrip(n, rest);
    ReadUint32RoundTrip(n, [b] + rest);
    assert ([b] + rest)[1..] == rest;
  }

  lemma ReadZero(rest: seq<Byte>)
    ensures ReadUint32([0] + rest) == Done(0, rest)
  {
    assert ([0] + rest)[1..] == rest;
  }

  // ---- server messages ----

  /** A server message: its marker, and what belongs to it. */
  lemma FrameSpelledOut(p: Protocol, t: Option<nat>, f: Frame)
    requires FrameTyped(p, t, f)
    ensures match f
            case Reply(body) => FrameBytes(p, t, f) == [0xF0] + BodySpelled(p.server, t, body)
            case ErrorReply(chunks) =>
              && (chunks == [] ==> FrameBytes(p, t, f) == [0xF1, 0])
              && (|chunks| == 1 ==> FrameBytes(p, t, f) == [0xF1] + (Varint(|chunks[0]|) + chunks[0] + [0]))
            case Event(ep, body) => FrameBytes(p, t, f) == [0xF2] + (Varint(ep) + BodySpelled(p.server, t, body))
            case Log(text) => FrameBytes(p, t, f) == [0xF3] + (Varint(|text|) + text)
            case Text(line) => FrameBytes(p, t, f) == line
            case Goodbye => FrameBytes(p, t, f) == [0xFA]
  {
    if f.ErrorReply? && |f.chunks| == 1 {
      assert f.chunks[1..] == [] && ChunkBytes([]) == [0];
    }
  }

  /** The reply to a unary request has the endpoint's response type; that to a streaming one is its marker alone. */
  lemma RepliesByKind(p: Protocol, ep: nat, body: Option<Value>)
    requires 1 <= ep <= |p.table|
    ensures FrameTyped(p, ReplyType(p, ep, Unary), Reply(body)) <==> BodyOk(p.server, p.table[ep - 1].resp, body)
    ensures forall op :: op != Unary ==>
      (FrameTyped(p, ReplyType(p, ep, op), Reply(body)) <==> body == None)
      && (body == None ==> FrameBytes(p, ReplyType(p, ep, op), Reply(body)) == [0xF0])
  {
  }

  // ---- the hello ----

  function IntField(tag: Byte, n: int): seq<Byte> {
    if n == 0 then [] else [tag] + Varint(if n < 0 then -2 * n - 1 else 2 * n)
  }

  /** A service in the hello: its UUID, versions and number of endpoints, in fields 1 to 4. */
  function ServiceBytes(s: Endpoints.Service): seq<Byte> {
    ([10, 16] + s.uuid) + (IntField(16, s.major) + (IntField(24, s.minor) + (IntField(32, |s.methods|) + [4])))
  }

  function ServicesBytes(services: seq<Endpoints.Service>): seq<Byte> {
    if services == [] then [] else [19] + (ServiceBytes(services[0]) + ServicesBytes(services[1..]))
  }

  lemma OneValue(s: Schema, num: int, k: Kind, v: Value)
    requires Known(s, k) && Typed(s, k, v) && num > 0
    ensures AllTyped(s, k, [v]) && ListBytes(s, num, k, [v]) == ValueBytes(s, num, k, v)
  {
    assert [v][1..] == [];
    assert ListBytes(s, num, k, []) == [];
    assert ValueBytes(s, num, k, v) + [] == ValueBytes(s, num, k, v);
  }

  lemma ServiceSpelledOut(s: Endpoints.Service)
    requires Hello.ServiceOk(s)
    ensures Typed(Hello.HelloSchema(), Message(0), Hello.Def(s))
    ensures Encode(Hello.HelloSchema(), 0, Hello.Def(s)) == ServiceBytes(s)
  {
    hide ValueBytes, ListBytes, ServiceBytes;
    Hello.DefTyped(s);
    var (schema, cols) := (Hello.HelloSchema(), Hello.Def(s).cols);
    EncodingSpelledOut(schema, 0, Hello.Def(s));
    OneValue(schema, 1, Bytes(16), Blob(s.uuid));
    OneValue(schema, 2, Int32, Num(s.major));
    OneValue(schema, 3, Int32, Num(s.minor));
    OneValue(schema, 4, Int32, Num(|s.methods|));
    assert FieldsBytes(schema, 0, cols, 4) == [];
    assert FieldsBytes(schema, 0, cols, 3) == ListBytes(schema, 4, Int32, cols[3]) + [];
    assert FieldsBytes(schema, 0, cols, 2) == ListBytes(schema, 3, Int32, cols[2]) + FieldsBytes(schema, 0, cols, 3);
    assert FieldsBytes(schema, 0, cols, 1) == ListBytes(schema, 2, Int32, cols[1]) + FieldsBytes(schema, 0, cols, 2);
    ServiceFields(schema, s);
  }

  lemma ServiceFields(schema: Schema, s: Endpoints.Service)
    requires Hello.ServiceOk(s)
    ensures var (a, b, d, e) := (ValueBytes(schema, 1, Bytes(16), Blob(s.uuid)), ValueBytes(schema, 2, Int32, Num(s.major)),
                                 ValueBytes(schema, 3, Int32, Num(s.minor)), ValueBytes(schema, 4, Int32, Num(|s.methods|)));
      a + (b + (d + (e + []))) + [4] == ServiceBytes(s)
  {
    var (b, d, e) := (IntField(16, s.major), IntField(24, s.minor), IntField(32, |s.methods|));
    assert ValueBytes(schema, 1, Bytes(16), Blob(s.uuid)) == [10, 16] + s.uuid by {
      assert Varint(10) == [10] && Varint(16) == [16];
    }
    IntSpelledOut(schema, 2, s.major);
    IntSpelledOut(schema, 3, s.minor);
    IntSpelledOut(schema, 4, |s.methods|);
    hide ValueBytes, IntField;
    assert e + [] == e;
    Regroup([10, 16] + s.uuid, b + (d + e), [4]);
    Regroup(b, d + e, [4]);
    Regroup(d, e, [4]);
  }

  lemma IntSpelledOut(schema: Schema, num: nat, n: int)
    requires 0 < num < 16 && -0x8000_0000 <= n < 0x8000_0000
    ensures ValueBytes(schema, num, Int32, Num(n)) == IntField((8 * num) as Byte, n)
  {
  }

  /** The hello behind its first byte: the protocol version in field 1, each service in field 2, and an end tag. */
  lemma HelloSpelledOut(services: seq<Endpoints.Service>)
    requires Hello.AllOk(services)
    ensures Hello.HelloBytes(services) == [8] + ([1] + (ServicesBytes(services) + [4]))
  {
    DefsSpelledOut(services);
  }

  lemma {:induction false} DefsSpelledOut(services: seq<Endpoints.Service>)
    requires Hello.AllOk(services)
    ensures Hello.DefsBytes(services) == ServicesBytes(services)
  {
    hide ServiceBytes, Encode, Hello.ServiceOk;
    if services != [] {
      ServiceSpelledOut(services[0]);
      DefsSpelledOut(services[1..]);
    }
  }
}
