/** The decoder as it runs: consuming an input stream step by step. */
module Reader {
  import opened Wire
  import opened Schemas
  import opened Decoder

  /** The unread bytes of a connection. Reading past their end is an I/O error. */
  class Input {
    var bytes: seq<Byte>

    constructor (bs: seq<Byte>)
      ensures bytes == bs
    {
      bytes := bs;
    }

    method ReadTag() returns (ok: bool, tag: Tag)
      modifies this
      ensures var p := Wire.ReadTag(old(bytes));
              ok == p.Done? && (ok ==> tag == p.value && bytes == p.rest)
    {
      var p := ReadUint32(bytes);
      if !p.Done? {
        return false, Tag(EndType, 0);
      }
      bytes := p.rest;
      return true, SplitTag(p.value);
    }

    method Discard(n: nat) returns (ok: bool)
      modifies this
      ensures ok == (n <= |old(bytes)|)
      ensures ok ==> bytes == old(bytes)[n..]
    {
      ok := n <= |bytes|;
      if ok {
        bytes := bytes[n..];
      }
    }

    /** `skip`: passes over one field's payload, recursively through nested groups. */
    method Skip(wire: WireType, nesting: int) returns (ok: bool)
      modifies this
      ensures var p := SkipField(old(bytes), wire, nesting);
              ok == p.Done? && (ok ==> bytes == p.rest)
      decreases |bytes|
    {
      match wire
      case VarIntType =>
        var p := ReadVar(bytes, 10);
        if p.Done? {
          bytes := p.rest;
        }
        return p.Done?;
      case I64Type =>
        ok := Discard(8);
      case LenType =>
        var p := ReadUint32(bytes);
        if !p.Done? {
          return false;
        }
        bytes := p.rest;
        ok := Discard(p.value);
      case StartType =>
        if nesting < 0 {
          return false;
        }
        ghost var start := bytes;
        while true
          invariant |bytes| <= |start| && SkipGroup(bytes, nesting) == SkipGroup(start, nesting)
          decreases |bytes|
        {
          var more, tag := ReadTag();
          if !more {
            return false;
          }
          if tag.wire == EndType {
            return true;
          }
          more := Skip(tag.wire, nesting - 1);
          if !more {
            return false;
          }
        }
      case EndType =>
        return true;
      case I32Type =>
        ok := Discard(4);
      case Reserved(_) =>
        return false;
    }

    /** `unmarshal<T>` of one field value: the nesting check guards submessages. */
    method UnmarshalValue(s: Schema, k: Kind, nesting: int) returns (ok: bool, v: Value)
      requires Known(s, k)
      modifies this
      ensures var p := DecodeValue(s, k, old(bytes), nesting);
              ok == p.Done? && (ok ==> v == p.value && bytes == p.rest)
      decreases |bytes|, 1
    {
      if !k.Message? {
        var p := DecodeScalar(k, bytes);
        if !p.Done? {
          return false, Num(0);
        }
        bytes := p.rest;
        return true, p.value;
      }
      if nesting < 0 {
        return false, Num(0);
      }
      ok, v := UnmarshalFields(s, k.ty, nesting);
    }

    /** A generated `unmarshal`: start from defaults and store fields as they come until an end tag. */
    method UnmarshalFields(s: Schema, t: nat, nesting: int) returns (ok: bool, v: Value)
      requires t < |s|
      modifies this
      ensures var p := DecodeFields(s, t, old(bytes), DefaultColumns(s, t), nesting);
              ok == p.Done? && (ok ==> v == p.value && bytes == p.rest)
      decreases |bytes|, 0
    {
      ghost var start := bytes;
      var cols := DefaultColumns(s, t);
      while true
        invariant |bytes| <= |start| && |cols| == |s[t]|
        invariant DecodeFields(s, t, bytes, cols, nesting) ==
                  DecodeFields(s, t, start, DefaultColumns(s, t), nesting)
        decreases |bytes|
      {
        var more, tag := ReadTag();
        if !more {
          return false, Num(0);
        }
        if tag.wire == EndType {
          return true, Struct(cols);
        }
        match Find(s[t], tag.num)
        case None =>
          more := Skip(tag.wire, nesting - 1);
          if !more {
            return false, Num(0);
          }
        case Some(i) =>
          var field: Value;
          more, field := UnmarshalValue(s, FieldAt(s, t, i).kind, nesting - 1);
          if !more {
            return false, Num(0);
          }
          cols := cols[i := Store(FieldAt(s, t, i), cols[i], field)];
      }
    }

    /** `unmarshal` of a top-level message. */
    method Unmarshal(s: Schema, t: nat) returns (ok: bool, v: Value)
      requires t < |s|
      modifies this
      ensures var p := Decode(s, t, old(bytes));
              ok == p.Done? && (ok ==> v == p.value && bytes == p.rest)
    {
      ok, v := UnmarshalValue(s, Message(t), MAX_NESTING);
    }
  }
}
