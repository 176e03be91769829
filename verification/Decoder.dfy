/** What decoding computes, as functions of the bytes received so far. */
module Decoder {
  import opened Wire
  import opened Schemas

  // ---- skipping a field the reader does not know ----

  function SkipField(bs: seq<Byte>, wire: WireType, nesting: int): (p: Parse<()>)
    ensures p.Done? ==> IsSuffix(p.rest, bs)
    decreases |bs|, 1
  {
    match wire
    case VarIntType =>
      var (_, r) :- ReadVar(bs, 10);
      Done((), r)
    case I64Type =>
      var (_, r) :- Take(bs, 8);
      Done((), r)
    case LenType =>
      var (n, r) :- ReadUint32(bs);
      var (_, r2) :- Take(r, n);
      Done((), r2)
    case StartType => if nesting < 0 then Bad else SkipGroup(bs, nesting)
    case EndType => Done((), bs)
    case I32Type =>
      var (_, r) :- Take(bs, 4);
      Done((), r)
    case Reserved(_) => Bad
  }

  function SkipGroup(bs: seq<Byte>, nesting: int): (p: Parse<()>)
    ensures p.Done? ==> IsSuffix(p.rest, bs) && |p.rest| < |bs|
    decreases |bs|, 0
  {
    var (tag, r) :- ReadTag(bs);
    if tag.wire.EndType? then Done((), r)
    else
      var (_, r2) :- SkipField(r, tag.wire, nesting - 1);
      SkipGroup(r2, nesting)
  }

  // ---- decoding ----

  function DecodeScalar(k: Kind, bs: seq<Byte>): (p: Parse<Value>)
    requires !k.Message?
    ensures p.Done? ==> IsSuffix(p.rest, bs)
  {
    match k
    case Int32 =>
      var (u, r) :- ReadUint32(bs);
      Done(Num(UnZigZag(u)), r)
    case Int64 =>
      var (u, r) :- ReadUint64(bs);
      Done(Num(UnZigZag(u)), r)
    case Uint32 =>
      var (u, r) :- ReadUint32(bs);
      Done(Num(u), r)
    case Uint64 =>
      var (u, r) :- ReadUint64(bs);
      Done(Num(u), r)
    case Bool =>
      var (b, r) :- ReadByte(bs);
      if b > 1 then Bad else Done(Num(b as int), r)
    case Float32 =>
      var (u, r) :- ReadFixed(bs, 4);
      Done(Num(u), r)
    case Float64 =>
      var (u, r) :- ReadFixed(bs, 8);
      Done(Num(u), r)
    case Bytes(cap) =>
      var (n, r) :- ReadUint64(bs);
      if n > cap then Bad
      else
        var (data, r2) :- Take(r, n);
        Done(Blob(data), r2)
    case Text =>
      var (n, r) :- ReadUint64(bs);
      var (data, r2) :- Take(r, n);
      Done(Blob(data), r2)
  }

  /** A repeated field grows; any other field is overwritten. */
  function Store(f: Field, col: seq<Value>, v: Value): seq<Value> {
    if f.repeated then col + [v] else [v]
  }

  function DecodeValue(s: Schema, k: Kind, bs: seq<Byte>, nesting: int): (p: Parse<Value>)
    requires Known(s, k)
    ensures p.Done? ==> IsSuffix(p.rest, bs)
    decreases |bs|, 1
  {
    if !k.Message? then DecodeScalar(k, bs)
    else if nesting < 0 then Bad
    else DecodeFields(s, k.ty, bs, DefaultColumns(s, k.ty), nesting)
  }

  /** The body of a generated `unmarshal`: fields are told apart by number alone, until an end tag. */
  function DecodeFields(s: Schema, t: nat, bs: seq<Byte>, cols: seq<seq<Value>>, nesting: int): (p: Parse<Value>)
    requires t < |s| && |cols| == |s[t]|
    ensures p.Done? ==> IsSuffix(p.rest, bs) && |p.rest| < |bs|
    decreases |bs|, 0
  {
    var (tag, r) :- ReadTag(bs);
    if tag.wire.EndType? then Done(Struct(cols), r)
    else match Find(s[t], tag.num)
         case None =>
           var (_, r2) :- SkipField(r, tag.wire, nesting - 1);
           DecodeFields(s, t, r2, cols, nesting)
         case Some(i) =>
           var (v, r2) :- DecodeValue(s, FieldAt(s, t, i).kind, r, nesting - 1);
           DecodeFields(s, t, r2, cols[i := Store(FieldAt(s, t, i), cols[i], v)], nesting)
  }

  /** `unmarshal` of a top-level message. */
  function Decode(s: Schema, t: nat, bs: seq<Byte>): Parse<Value>
    requires t < |s|
  {
    DecodeValue(s, Message(t), bs, MAX_NESTING)
  }

  // ---- more bytes never change an answer already reached ----

  lemma {:induction false} SkipFieldSettled(bs: seq<Byte>, wire: WireType, nesting: int, more: seq<Byte>)
    ensures Settled(SkipField(bs, wire, nesting), SkipField(bs + more, wire, nesting), more)
    decreases |bs|, 1
  {
    match wire
    case VarIntType => ReadVarSettled(bs, 10, more);
    case I64Type => TakeSettled(bs, 8, more);
    case LenType =>
      ReadUint32Settled(bs, more);
      var p := ReadUint32(bs);
      if p.Done? {
        TakeSettled(p.rest, p.value, more);
      }
    case StartType =>
      if nesting >= 0 {
        SkipGroupSettled(bs, nesting, more);
      }
    case EndType =>
    case I32Type => TakeSettled(bs, 4, more);
    case Reserved(_) =>
  }

  lemma {:induction false} SkipGroupSettled(bs: seq<Byte>, nesting: int, more: seq<Byte>)
    ensures Settled(SkipGroup(bs, nesting), SkipGroup(bs + more, nesting), more)
    decreases |bs|, 0
  {
    ReadTagSettled(bs, more);
    var p := ReadTag(bs);
    if p.Done? && !p.value.wire.EndType? {
      SkipFieldSettled(p.rest, p.value.wire, nesting - 1, more);
      var q := SkipField(p.rest, p.value.wire, nesting - 1);
      if q.Done? {
        SkipGroupSettled(q.rest, nesting, more);
      }
    }
  }

  lemma DecodeScalarSettled(k: Kind, bs: seq<Byte>, more: seq<Byte>)
    requires !k.Message?
    ensures Settled(DecodeScalar(k, bs), DecodeScalar(k, bs + more), more)
  {
    if k.Int32? || k.Uint32? {
      ReadUint32Settled(bs, more);
    } else if k.Bool? {
      if bs != [] {
        assert (bs + more)[1..] == bs[1..] + more;
      }
    } else if k.Float32? {
      ReadFixedSettled(bs, 4, more);
    } else if k.Float64? {
      ReadFixedSettled(bs, 8, more);
    } else {
      ReadUint64Settled(bs, more);
      var p := ReadUint64(bs);
      if p.Done? {
        TakeSettled(p.rest, p.value, more);
      }
    }
  }

  lemma {:induction false} DecodeValueSettled(s: Schema, k: Kind, bs: seq<Byte>, nesting: int, more: seq<Byte>)
    requires Known(s, k)
    ensures Settled(DecodeValue(s, k, bs, nesting), DecodeValue(s, k, bs + more, nesting), more)
    decreases |bs|, 1
  {
    if !k.Message? {
      DecodeScalarSettled(k, bs, more);
    } else if nesting >= 0 {
      DecodeFieldsSettled(s, k.ty, bs, DefaultColumns(s, k.ty), nesting, more);
    }
  }

  lemma {:induction false} DecodeFieldsSettled(
      s: Schema, t: nat, bs: seq<Byte>, cols: seq<seq<Value>>, nesting: int, more: seq<Byte>)
    requires t < |s| && |cols| == |s[t]|
    ensures Settled(DecodeFields(s, t, bs, cols, nesting), DecodeFields(s, t, bs + more, cols, nesting), more)
    decreases |bs|, 0
  {
    ReadTagSettled(bs, more);
    var p := ReadTag(bs);
    if p.Done? && !p.value.wire.EndType? {
      match Find(s[t], p.value.num)
      case None =>
        SkipFieldSettled(p.rest, p.value.wire, nesting - 1, more);
        var q := SkipField(p.rest, p.value.wire, nesting - 1);
        if q.Done? {
          DecodeFieldsSettled(s, t, q.rest, cols, nesting, more);
        }
      case Some(i) =>
        var f := FieldAt(s, t, i);
        DecodeValueSettled(s, f.kind, p.rest, nesting - 1, more);
        var q := DecodeValue(s, f.kind, p.rest, nesting - 1);
        if q.Done? {
          DecodeFieldsSettled(s, t, q.rest, cols[i := Store(f, cols[i], q.value)], nesting, more);
        }
    }
  }

  /** Decoding a stream as its bytes arrive: an answer reached on a prefix, good or bad, is the answer. */
  lemma DecodeSettled(s: Schema, t: nat, bs: seq<Byte>, more: seq<Byte>)
    requires t < |s|
    ensures Settled(Decode(s, t, bs), Decode(s, t, bs + more), more)
  {
    DecodeValueSettled(s, Message(t), bs, MAX_NESTING, more);
  }
}
