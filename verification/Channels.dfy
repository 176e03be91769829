/** One direction of a connection: bytes still to be written by the lock holder, bytes buffered, bytes at the peer. */
module Channels {
  import opened Wire

  datatype Channel = Channel(wire: seq<Byte>, buf: seq<Byte>, todo: seq<Byte>) {
    function Bytes(): seq<Byte> {
      wire + (buf + todo)
    }

    predicate Idle() {
      buf == [] && todo == []
    }

    /** The lock holder takes the lock with a whole message to write. */
    function Start(bs: seq<Byte>): Channel {
      this.(todo := todo + bs)
    }

    function Write(k: nat): Channel
      requires k <= |todo|
    {
      this.(buf := buf + todo[..k], todo := todo[k..])
    }

    function Flush(k: nat): Channel
      requires k <= |buf|
    {
      this.(wire := wire + buf[..k], buf := buf[k..])
    }

    /** The peer has read the wire down to `rest`. */
    function Consume(rest: seq<Byte>): Channel {
      this.(wire := rest)
    }
  }

  lemma WriteKeepsBytes(ch: Channel, k: nat)
    requires k <= |ch.todo|
    ensures ch.Write(k).Bytes() == ch.Bytes()
    ensures ch.Write(k).buf + ch.Write(k).todo == ch.buf + ch.todo
  {
    assert ch.todo[..k] + ch.todo[k..] == ch.todo;
    Regroup(ch.buf, ch.todo[..k], ch.todo[k..]);
  }

  lemma FlushKeepsBytes(ch: Channel, k: nat)
    requires k <= |ch.buf|
    ensures ch.Flush(k).Bytes() == ch.Bytes()
  {
    assert ch.buf[..k] + ch.buf[k..] == ch.buf;
    Regroup(ch.wire, ch.buf[..k], ch.buf[k..] + ch.todo);
    Regroup(ch.buf[..k], ch.buf[k..], ch.todo);
  }

  lemma StartAddsBytes(ch: Channel, bs: seq<Byte>)
    ensures ch.Start(bs).Bytes() == ch.Bytes() + bs
    ensures ch.Start(bs).buf + ch.Start(bs).todo == (ch.buf + ch.todo) + bs
  {
    Regroup(ch.buf, ch.todo, bs);
    Regroup(ch.wire, ch.buf + ch.todo, bs);
  }
}
