/** Bytes, incremental parsing, varints, fixed-width integers and field tags. */
module Wire {

  newtype Byte = b: int | 0 <= b < 256

  const UINT32: int := 0x1_0000_0000
  const UINT64: int := 0x1_0000_0000_0000_0000
  const INT32: int := 0x8000_0000
  const INT64: int := 0x8000_0000_0000_0000

  /** The outcome of reading from the bytes received so far: a value and the unread bytes, a
      need for more bytes, or an error that no further byte can repair. */
  datatype Parse<+T> = Done(value: T, rest: seq<Byte>) | Short | Bad {
    predicate IsFailure() {
      !Done?
    }

    function PropagateFailure<U>(): Parse<U>
      requires IsFailure()
    {
      if Short? then Short else Bad
    }

    function Extract(): (T, seq<Byte>)
      requires Done?
    {
      (value, rest)
    }
  }

  ghost predicate IsSuffix(rest: seq<Byte>, bs: seq<Byte>) {
    |rest| <= |bs| && rest == bs[|bs| - |rest|..]
  }

  /** What `before`, computed on some bytes, says about `after`, computed on those bytes followed by `more`. */
  ghost predicate Settled<T(!new)>(before: Parse<T>, after: Parse<T>, more: seq<Byte>) {
    match before
    case Done(v, rest) => after == Done(v, rest + more)
    case Bad => after == Bad
    case Short => true
  }

  lemma Regroup<T>(a: seq<T>, b: seq<T>, c: seq<T>)
    ensures (a + b) + c == a + (b + c)
  {
  }

  // ---- single bytes and byte runs ----

  function ReadByte(bs: seq<Byte>): Parse<Byte> {
    if bs == [] then Short else Done(bs[0], bs[1..])
  }

  function Take(bs: seq<Byte>, n: nat): Parse<seq<Byte>> {
    if |bs| < n then Short else Done(bs[..n], bs[n..])
  }

  lemma TakeSettled(bs: seq<Byte>, n: nat, more: seq<Byte>)
    ensures Settled(Take(bs, n), Take(bs + more, n), more)
  {
    if n <= |bs| {
      assert (bs + more)[..n] == bs[..n];
      assert (bs + more)[n..] == bs[n..] + more;
    }
  }

  lemma TakeAppend(s: seq<Byte>, rest: seq<Byte>)
    ensures Take(s + rest, |s|) == Done(s, rest)
  {
    assert (s + rest)[..|s|] == s;
    assert (s + rest)[|s|..] == rest;
  }

  // ---- varints ----

  function Varint(n: nat): (r: seq<Byte>)
    ensures |r| >= 1
  {
    if n < 128 then [n as Byte] else [(n % 128 + 128) as Byte] + Varint(n / 128)
  }

  function ReadVar(bs: seq<Byte>, max: nat): (p: Parse<nat>)
    ensures p.Done? ==> IsSuffix(p.rest, bs) && |p.rest| < |bs|
  {
    if max == 0 then Bad
    else if bs == [] then Short
    else if bs[0] < 128 then Done(bs[0] as nat, bs[1..])
    else
      var (v, r) :- ReadVar(bs[1..], max - 1);
      Done(bs[0] as nat - 128 + 128 * v, r)
  }

  function ReadUint32(bs: seq<Byte>): (p: Parse<nat>)
    ensures p.Done? ==> IsSuffix(p.rest, bs) && |p.rest| < |bs| && p.value < UINT32
  {
    var (v, r) :- ReadVar(bs, 5);
    if v < UINT32 then Done(v, r) else Bad
  }

  function ReadUint64(bs: seq<Byte>): (p: Parse<nat>)
    ensures p.Done? ==> IsSuffix(p.rest, bs) && |p.rest| < |bs| && p.value < UINT64
  {
    var (v, r) :- ReadVar(bs, 10);
    if v < UINT64 then Done(v, r) else Bad
  }

  lemma {:induction false} ReadVarSettled(bs: seq<Byte>, max: nat, more: seq<Byte>)
    ensures Settled(ReadVar(bs, max), ReadVar(bs + more, max), more)
  {
    if max != 0 && bs != [] {
      assert (bs + more)[1..] == bs[1..] + more;
      ReadVarSettled(bs[1..], max - 1, more);
    }
  }

  lemma ReadUint32Settled(bs: seq<Byte>, more: seq<Byte>)
    ensures Settled(ReadUint32(bs), ReadUint32(bs + more), more)
  {
    ReadVarSettled(bs, 5, more);
  }

  lemma ReadUint64Settled(bs: seq<Byte>, more: seq<Byte>)
    ensures Settled(ReadUint64(bs), ReadUint64(bs + more), more)
  {
    ReadVarSettled(bs, 10, more);
  }

  lemma {:induction false} ReadVarRoundTrip(n: nat, max: nat, rest: seq<Byte>)
    requires |Varint(n)| <= max
    ensures ReadVar(Varint(n) + rest, max) == Done(n, rest)
  {
    if n >= 128 {
      assert (Varint(n) + rest)[1..] == Varint(n / 128) + rest;
      ReadVarRoundTrip(n / 128, max - 1, rest);
    } else {
      assert (Varint(n) + rest)[1..] == rest;
    }
  }

  function Pow128(k: nat): (p: nat)
    ensures p >= 1
  {
    if k == 0 then 1 else 128 * Pow128(k - 1)
  }

  lemma {:induction false} VarintLength(n: nat, k: nat)
    requires k >= 1
    ensures |Varint(n)| <= k <==> n < Pow128(k)
  {
    if n >= 128 && k > 1 {
      VarintLength(n / 128, k - 1);
    } else if n < 128 {
      assert Pow128(k) == 128 * Pow128(k - 1);
    } else {
      assert Pow128(1) == 128 * Pow128(0);
    }
  }

  lemma Varint32Length(n: nat)
    requires n < UINT32
    ensures |Varint(n)| <= 5
  {
    assert Pow128(5) == 128 * (128 * (128 * Pow128(2)));
    assert Pow128(2) == 128 * (128 * Pow128(0));
    VarintLength(n, 5);
  }

  lemma Varint64Length(n: nat)
    requires n < UINT64
    ensures |Varint(n)| <= 10
  {
    assert Pow128(2) == 128 * (128 * Pow128(0));
    assert Pow128(4) == 128 * (128 * Pow128(2));
    assert Pow128(6) == 128 * (128 * Pow128(4));
    assert Pow128(8) == 128 * (128 * Pow128(6));
    assert Pow128(10) == 128 * (128 * Pow128(8));
    VarintLength(n, 10);
  }

  lemma ReadUint32RoundTrip(n: nat, rest: seq<Byte>)
    requires n < UINT32
    ensures ReadUint32(Varint(n) + rest) == Done(n, rest)
  {
    Varint32Length(n);
    ReadVarRoundTrip(n, 5, rest);
  }

  lemma ReadUint64RoundTrip(n: nat, rest: seq<Byte>)
    requires n < UINT64
    ensures ReadUint64(Varint(n) + rest) == Done(n, rest)
  {
    Varint64Length(n);
    ReadVarRoundTrip(n, 10, rest);
  }

  // ---- signed varints ----

  function ZigZag(n: int): nat {
    if n >= 0 then 2 * n else -2 * n - 1
  }

  function UnZigZag(u: nat): int {
    if u % 2 == 0 then u / 2 else -(u / 2) - 1
  }

  // ---- fixed-width little-endian integers ----

  function Fixed(n: nat, width: nat): (r: seq<Byte>)
    ensures |r| == width
  {
    if width == 0 then [] else [(n % 256) as Byte] + Fixed(n / 256, width - 1)
  }

  function ReadFixed(bs: seq<Byte>, width: nat): (p: Parse<nat>)
    ensures p.Done? ==> |p.rest| + width == |bs| && p.rest == bs[width..]
    ensures p.Short? <==> |bs| < width
    ensures !p.Bad?
  {
    if width == 0 then Done(0, bs)
    else if bs == [] then Short
    else
      var (v, r) :- ReadFixed(bs[1..], width - 1);
      Done(bs[0] as nat + 256 * v, r)
  }

  lemma {:induction false} ReadFixedSettled(bs: seq<Byte>, width: nat, more: seq<Byte>)
    ensures Settled(ReadFixed(bs, width), ReadFixed(bs + more, width), more)
  {
    if width != 0 && bs != [] {
      assert (bs + more)[1..] == bs[1..] + more;
      ReadFixedSettled(bs[1..], width - 1, more);
    }
  }

  function Pow256(k: nat): (p: nat)
    ensures p >= 1
  {
    if k == 0 then 1 else 256 * Pow256(k - 1)
  }

  lemma {:induction false} ReadFixedRoundTrip(n: nat, width: nat, rest: seq<Byte>)
    requires n < Pow256(width)
    ensures ReadFixed(Fixed(n, width) + rest, width) == Done(n, rest)
  {
    if width != 0 {
      assert Pow256(width) == 256 * Pow256(width - 1) && n / 256 < Pow256(width - 1);
      assert (Fixed(n, width) + rest)[1..] == Fixed(n / 256, width - 1) + rest;
      ReadFixedRoundTrip(n / 256, width - 1, rest);
      assert n == n % 256 + 256 * (n / 256);
    } else {
      assert Fixed(n, 0) + rest == rest;
    }
  }

  lemma Pow256Values()
    ensures Pow256(4) == UINT32 && Pow256(8) == UINT64
  {
    assert Pow256(2) == 256 * (256 * Pow256(0));
    assert Pow256(4) == 256 * (256 * Pow256(2));
    assert Pow256(6) == 256 * (256 * Pow256(4));
    assert Pow256(8) == 256 * (256 * Pow256(6));
  }

  // ---- field tags ----

  /** `Reserved` stands for the two values of the low three bits that name no wire type. */
  datatype WireType = VarIntType | I64Type | LenType | StartType | EndType | I32Type | Reserved(code: nat)

  datatype Tag = Tag(wire: WireType, num: int)

  function Code(w: WireType): nat {
    match w
    case VarIntType => 0
    case I64Type => 1
    case LenType => 2
    case StartType => 3
    case EndType => 4
    case I32Type => 5
    case Reserved(c) => c
  }

  function Uncode(c: nat): WireType {
    match c
    case 0 => VarIntType
    case 1 => I64Type
    case 2 => LenType
    case 3 => StartType
    case 4 => EndType
    case 5 => I32Type
    case _ => Reserved(c)
  }

  /** `(field_number << 3) | type`, converted to an unsigned 32-bit integer. */
  function TagValue(num: int, w: WireType): nat
    requires Code(w) < 8
  {
    (num * 8) % UINT32 + Code(w)
  }

  function TagBytes(num: int, w: WireType): seq<Byte>
    requires Code(w) < 8
  {
    Varint(TagValue(num, w))
  }

  /** The unsigned value read back is stored in a signed 32-bit integer and split with `& 7` and `>> 3`. */
  function SplitTag(n: nat): Tag
    requires n < UINT32
  {
    var signed: int := if n < INT32 then n else n - UINT32;
    Tag(Uncode(signed % 8), signed / 8)
  }

  function ReadTag(bs: seq<Byte>): (p: Parse<Tag>)
    ensures p.Done? ==> IsSuffix(p.rest, bs) && |p.rest| < |bs|
  {
    var (n, r) :- ReadUint32(bs);
    Done(SplitTag(n), r)
  }

  const END_BYTE: Byte := 4

  const MAX_NESTING: int := 128

  lemma ReadTagSettled(bs: seq<Byte>, more: seq<Byte>)
    ensures Settled(ReadTag(bs), ReadTag(bs + more), more)
  {
    ReadUint32Settled(bs, more);
  }

  const FIELD_LIMIT: int := 0x1000_0000

  /** Shifting out the top three bits leaves a field number modulo 2^29, read back as signed. */
  lemma SplitTagValue(num: int, w: WireType)
    requires !w.Reserved?
    ensures TagValue(num, w) < UINT32
    ensures SplitTag(TagValue(num, w)) == Tag(w, num) <==> -FIELD_LIMIT <= num < FIELD_LIMIT
  {
    var q := num % 0x2000_0000;
    assert num == 0x2000_0000 * (num / 0x2000_0000) + q;
    assert num * 8 == UINT32 * (num / 0x2000_0000) + 8 * q;
    assert (num * 8) % UINT32 == 8 * q;
    var v := 8 * q + Code(w);
    var signed: int := if v < INT32 then v else v - UINT32;
    assert signed == 8 * (if q < FIELD_LIMIT then q else q - 0x2000_0000) + Code(w);
    assert signed % 8 == Code(w);
  }

  /** A tag survives the wire exactly for field numbers that fit 29 signed bits. */
  lemma TagRoundTrip(num: int, w: WireType, rest: seq<Byte>)
    requires !w.Reserved?
    ensures ReadTag(TagBytes(num, w) + rest) == Done(Tag(w, num), rest) <==> -FIELD_LIMIT <= num < FIELD_LIMIT
  {
    SplitTagValue(num, w);
    ReadUint32RoundTrip(TagValue(num, w), rest);
  }

  /** The largest protobuf field number is read back as -1. */
  lemma TagLosesLargeFieldNumbers(rest: seq<Byte>)
    ensures ReadTag(TagBytes(0x1FFF_FFFF, StartType) + rest) == Done(Tag(StartType, -1), rest)
  {
    assert (0x1FFF_FFFF * 8) % UINT32 == 0xFFFF_FFF8;
    ReadUint32RoundTrip(TagValue(0x1FFF_FFFF, StartType), rest);
  }

  lemma ReadEndByte(rest: seq<Byte>)
    ensures ReadTag([END_BYTE] + rest) == Done(Tag(EndType, 0), rest)
  {
    assert ([END_BYTE] + rest)[1..] == rest;
  }
}
