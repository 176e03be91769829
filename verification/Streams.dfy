/** The bytes in flight in each direction are exactly the encodings of the messages in flight. */
module Streams {
  import opened Wire
  import opened Schemas
  import opened Frames
  import opened Channels
  import opened Session

  // ---- client to server ----

  predicate CallsOk(p: Protocol, calls: seq<Call>) {
    calls == [] || (RequestOk(p, calls[0].q) && CallsOk(p, calls[1..]))
  }

  function EncodeCalls(p: Protocol, calls: seq<Call>): seq<Byte>
    requires CallsOk(p, calls)
  {
    if calls == [] then [] else RequestBytes(p, calls[0].q) + EncodeCalls(p, calls[1..])
  }

  lemma {:induction false} CallsSnoc(p: Protocol, calls: seq<Call>, call: Call)
    requires CallsOk(p, calls) && RequestOk(p, call.q)
    ensures CallsOk(p, calls + [call])
    ensures EncodeCalls(p, calls + [call]) == EncodeCalls(p, calls) + RequestBytes(p, call.q)
  {
    if calls == [] {
      assert [] + [call] == [call] && [call][1..] == [];
      assert RequestBytes(p, call.q) + [] == [] + RequestBytes(p, call.q);
    } else {
      assert (calls + [call])[1..] == calls[1..] + [call];
      CallsSnoc(p, calls[1..], call);
      Regroup(RequestBytes(p, calls[0].q), EncodeCalls(p, calls[1..]), RequestBytes(p, call.q));
    }
  }

  /** What the server reads from the bytes that have arrived, when `call` is the first request still in flight: it waits
      or gets that request whole, and it never fails. */
  lemma HeadRequest(p: Protocol, q: Request, tail: seq<Byte>, wire: seq<Byte>, unseen: seq<Byte>)
    requires p.Valid() && RequestOk(p, q) && wire + unseen == RequestBytes(p, q) + tail
    ensures var r := ReadRequest(p, wire);
            r.Short? || (r.Done? && r.value == RequestSeen(p, q) && r.rest + unseen == tail)
    ensures ReadRequest(p, wire).Short? ==> unseen != []
  {
    ReadRequestBytes(p, q, tail);
    ReadRequestSettled(p, wire, unseen);
    assert wire + [] == wire;
  }

  lemma HeadClose(p: Protocol, wire: seq<Byte>, unseen: seq<Byte>)
    requires p.TableOk() && wire + unseen == [0]
    ensures var r := ReadRequest(p, wire);
            r.Short? || (r == Done(CloseRequest, []) && unseen == [])
    ensures ReadRequest(p, wire).Short? ==> unseen != []
  {
    assert |wire| + |unseen| == |wire + unseen| == 1;
    if wire != [] {
      assert wire == [0] && wire[1..] == [];
    }
  }

  // ---- server to client ----

  predicate FramesOk(p: Protocol, frames: seq<Sent>) {
    frames == [] || (FrameOk(p, frames[0].t, frames[0].f) && FramesOk(p, frames[1..]))
  }

  function EncodeFrames(p: Protocol, frames: seq<Sent>): seq<Byte>
    requires FramesOk(p, frames)
  {
    if frames == [] then [] else FrameBytes(p, frames[0].t, frames[0].f) + EncodeFrames(p, frames[1..])
  }

  lemma {:induction false} FramesSnoc(p: Protocol, frames: seq<Sent>, x: Sent)
    requires FramesOk(p, frames) && FrameOk(p, x.t, x.f)
    ensures FramesOk(p, frames + [x])
    ensures EncodeFrames(p, frames + [x]) == EncodeFrames(p, frames) + FrameBytes(p, x.t, x.f)
  {
    if frames == [] {
      assert [] + [x] == [x] && [x][1..] == [];
      assert FrameBytes(p, x.t, x.f) + [] == [] + FrameBytes(p, x.t, x.f);
    } else {
      assert (frames + [x])[1..] == frames[1..] + [x];
      FramesSnoc(p, frames[1..], x);
      Regroup(FrameBytes(p, frames[0].t, frames[0].f), EncodeFrames(p, frames[1..]), FrameBytes(p, x.t, x.f));
    }
  }

  /** What the worker reads when it expects the first message still in flight: it waits or gets that message whole. */
  lemma HeadFrame(
      p: Protocol, x: Sent, tail: seq<Byte>, wire: seq<Byte>, unseen: seq<Byte>,
      head: Option<Option<nat>>, events: map<nat, Option<nat>>)
    requires p.Valid() && FrameOk(p, x.t, x.f) && wire + unseen == FrameBytes(p, x.t, x.f) + tail
    requires TypesKnown(p.client, head, events) && Expected(p, x.t, x.f, head, events)
    ensures var r := ReadFrame(p.client, wire, head, events);
            r.Short? || (r.Done? && r.value == FrameSeen(p, x.t, x.f) && r.rest + unseen == tail)
    ensures ReadFrame(p.client, wire, head, events).Short? ==> unseen != []
  {
    ReadFrameBytes(p, x.t, x.f, tail, head, events);
    ReadFrameSettled(p.client, wire, head, events, unseen);
    assert wire + [] == wire;
  }
}
