/** Error texts travel as length-prefixed chunks closed by a zero length. */
module Chunks {
  import opened Wire
  import opened Encoder
  import opened Reader

  const MAX_STRING_SIZE: int := 16 * 1024

  function Flatten(chunks: seq<seq<Byte>>): seq<Byte> {
    if chunks == [] then [] else chunks[0] + Flatten(chunks[1..])
  }

  function ChunkBytes(chunks: seq<seq<Byte>>): seq<Byte> {
    if chunks == [] then [0] else Varint(|chunks[0]|) + chunks[0] + ChunkBytes(chunks[1..])
  }

  function ReadChunks(bs: seq<Byte>, text: seq<Byte>): (p: Parse<seq<Byte>>)
    ensures p.Done? ==> IsSuffix(p.rest, bs) && |p.rest| < |bs|
    decreases |bs|
  {
    var (n, r) :- ReadUint32(bs);
    if n == 0 then Done(text, r)
    else if |text| + n > MAX_STRING_SIZE then Bad
    else
      var (data, r2) :- Take(r, n);
      ReadChunks(r2, text + data)
  }

  lemma {:induction false} ReadChunksSettled(bs: seq<Byte>, text: seq<Byte>, more: seq<Byte>)
    ensures Settled(ReadChunks(bs, text), ReadChunks(bs + more, text), more)
    decreases |bs|
  {
    ReadUint32Settled(bs, more);
    var p := ReadUint32(bs);
    if p.Done? && p.value != 0 && |text| + p.value <= MAX_STRING_SIZE {
      TakeSettled(p.rest, p.value, more);
      var q := Take(p.rest, p.value);
      if q.Done? {
        ReadChunksSettled(q.rest, text + q.value, more);
      }
    }
  }

  lemma ReadOneChunk(chunk: seq<Byte>, later: seq<Byte>, text: seq<Byte>)
    requires |chunk| < UINT32
    ensures ReadChunks(Varint(|chunk|) + chunk + later, text) ==
            if chunk == [] then Done(text, later)
            else if |text| + |chunk| > 16384 then Bad
            else ReadChunks(later, text + chunk)
  {
    Regroup(Varint(|chunk|), chunk, later);
    ReadUint32RoundTrip(|chunk|, chunk + later);
    TakeAppend(chunk, later);
  }

  /** Reading back non-empty chunks gives their concatenation, or an error when it is longer than 16384 bytes. An empty
      chunk reads as the end of the text and leaves the rest of the encoding behind as if it were the next message. */
  lemma {:induction false} ReadChunkBytes(chunks: seq<seq<Byte>>, text: seq<Byte>, rest: seq<Byte>)
    requires forall i :: 0 <= i < |chunks| ==> |chunks[i]| < UINT32
    ensures var p := ReadChunks(ChunkBytes(chunks) + rest, text);
            if [] in chunks then p.Bad? || (p.Done? && |p.rest| > |rest|)
            else if chunks == [] || |text| + |Flatten(chunks)| <= 16384 then
              p == Done(text + Flatten(chunks), rest)
            else p.Bad?
  {
    if chunks == [] {
      assert ([0 as Byte] + rest)[1..] == rest;
      assert text + [] == text;
    } else {
      var chunk := chunks[0];
      var later := ChunkBytes(chunks[1..]) + rest;
      Regroup(Varint(|chunk|) + chunk, ChunkBytes(chunks[1..]), rest);
      ReadOneChunk(chunk, later, text);
      if chunk == [] {
        ChunkBytesNonEmpty(chunks[1..]);
      } else {
        assert [] in chunks <==> [] in chunks[1..];
        ReadChunkBytes(chunks[1..], text + chunk, rest);
        Regroup(text, chunk, Flatten(chunks[1..]));
      }
    }
  }

  lemma {:induction false} ChunkBytesNonEmpty(chunks: seq<seq<Byte>>)
    ensures |ChunkBytes(chunks)| >= 1
  {
  }

  /** An error text survives the wire exactly when no chunk is empty and the total fits the limit. */
  lemma ChunksRoundTrip(chunks: seq<seq<Byte>>, rest: seq<Byte>)
    requires forall i :: 0 <= i < |chunks| ==> |chunks[i]| < UINT32
    ensures ReadChunks(ChunkBytes(chunks) + rest, []) == Done(Flatten(chunks), rest) <==>
            [] !in chunks && |Flatten(chunks)| <= 16384
  {
    ReadChunkBytes(chunks, [], rest);
    assert [] + Flatten(chunks) == Flatten(chunks);
  }

  /** An empty piece ends the text early, and the rest of it stays behind. */
  lemma EmptyPieceEndsTheText(a: seq<Byte>, b: seq<Byte>, rest: seq<Byte>)
    requires 0 < |a| <= 16384 && |b| < UINT32
    ensures ReadChunks(ChunkBytes([a, [], b]) + rest, []) == Done(a, Varint(|b|) + b + [0] + rest)
  {
    var tail := ChunkBytes([b]) + rest;
    assert [a, [], b][1..] == [[], b] && [[], b][1..] == [b] && [b][1..] == [];
    assert ChunkBytes([a, [], b]) + rest == Varint(|a|) + a + (ChunkBytes([[], b]) + rest);
    assert ChunkBytes([[], b]) + rest == Varint(0) + [] + tail;
    ReadOneChunk(a, ChunkBytes([[], b]) + rest, []);
    ReadOneChunk([], tail, [] + a);
    assert [] + a == a;
    assert ChunkBytes([b]) == Varint(|b|) + b + [0];
  }

  /** `write_chunked`: every piece the message writes becomes one chunk. */
  method WriteChunked(out: Output, pieces: seq<seq<Byte>>)
    requires forall i :: 0 <= i < |pieces| ==> |pieces[i]| < UINT32
    modifies out
    ensures out.bytes == old(out.bytes) + ChunkBytes(pieces)
  {
    var left := pieces;
    while left != []
      invariant out.bytes + ChunkBytes(left) == old(out.bytes) + ChunkBytes(pieces)
    {
      Regroup(out.bytes, Varint(|left[0]|), left[0]);
      Regroup(out.bytes, Varint(|left[0]|) + left[0], ChunkBytes(left[1..]));
      out.Write(Varint(|left[0]|));
      out.Write(left[0]);
      left := left[1..];
    }
    out.Write([0]);
  }

  /** `read_chunked`. */
  method ReadChunked(input: Input) returns (ok: bool, text: seq<Byte>)
    modifies input
    ensures var p := ReadChunks(old(input.bytes), []);
            ok == p.Done? && (ok ==> text == p.value && input.bytes == p.rest)
  {
    ghost var start := input.bytes;
    text := [];
    while true
      invariant ReadChunks(input.bytes, text) == ReadChunks(start, [])
      decreases |input.bytes|
    {
      var p := ReadUint32(input.bytes);
      if !p.Done? {
        return false, text;
      }
      input.bytes := p.rest;
      if p.value == 0 {
        return true, text;
      }
      if |text| + p.value > MAX_STRING_SIZE {
        return false, text;
      }
      ok := p.value <= |input.bytes|;
      if !ok {
        return;
      }
      text := text + input.bytes[..p.value];
      input.bytes := input.bytes[p.value..];
    }
  }
}
