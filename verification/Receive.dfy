/** Cutting a stream of bytes, received in chunks, into frames: facts about byte sequences only. */
module ByteStream {
  import opened Packets

  /** The concatenation of `parts`. */
  function Flat(parts: seq<seq<byte>>): seq<byte>
  {
    if parts == [] then [] else parts[0] + Flat(parts[1..])
  }

  lemma {:induction false} FlatOfTwo(a: seq<seq<byte>>, b: seq<seq<byte>>)
    ensures Flat(a + b) == Flat(a) + Flat(b)
    decreases |a|
  {
    if a == [] {
      assert a + b == b;
    } else {
      assert (a + b)[1..] == a[1..] + b;
      FlatOfTwo(a[1..], b);
    }
  }

  lemma FlatNext(parts: seq<seq<byte>>, d: nat)
    requires d < |parts|
    ensures Flat(parts[..d + 1]) == Flat(parts[..d]) + parts[d]
    ensures Flat(parts[d..]) == parts[d] + Flat(parts[d + 1..])
  {
    assert parts[..d + 1] == parts[..d] + [parts[d]];
    FlatOfTwo(parts[..d], [parts[d]]);
    assert Flat([parts[d]]) == parts[d] + Flat([]);
    assert parts[d..][1..] == parts[d + 1..];
  }

  lemma FlatSplit(parts: seq<seq<byte>>, d: nat)
    requires d <= |parts|
    ensures Flat(parts) == Flat(parts[..d]) + Flat(parts[d..])
  {
    assert parts == parts[..d] + parts[d..];
    FlatOfTwo(parts[..d], parts[d..]);
  }

  /** `d` frames are out and `buff` is what remains of the bytes received. */
  ghost predicate Synced(frames: seq<seq<byte>>, received: seq<byte>, d: nat, buff: seq<byte>)
  {
    d <= |frames| && received == Flat(frames[..d]) + buff && buff <= Flat(frames[d..])
  }

  /** No further frame is complete. */
  ghost predicate Drained(frames: seq<seq<byte>>, d: nat, buff: seq<byte>)
  {
    buff == [] || (d < |frames| && |buff| < |frames[d]|)
  }

  lemma SyncedStep(frames: seq<seq<byte>>, received: seq<byte>, d: nat, buff: seq<byte>)
    requires Synced(frames, received, d, buff) && buff != []
    ensures d < |frames| && buff <= frames[d] + Flat(frames[d + 1..])
    ensures |buff| >= |frames[d]| ==> Synced(frames, received, d + 1, buff[|frames[d]|..])
  {
    assert d < |frames|;
    FlatNext(frames, d);
    var n := |frames[d]|;
    if |buff| >= n {
      assert buff == buff[..n] + buff[n..];
      assert buff[..n] == frames[d];
      assert received == (Flat(frames[..d]) + frames[d]) + buff[n..];
    }
  }

  lemma DropCommon(head: seq<byte>, x: seq<byte>, y: seq<byte>)
    requires head + x <= head + y
    ensures x <= y
  {
    assert x == (head + x)[|head|..] && y == (head + y)[|head|..];
    assert x == y[..|x|];
  }

  lemma SyncedArrival(frames: seq<seq<byte>>, received: seq<byte>, d: nat, buff: seq<byte>, chunk: seq<byte>)
    requires Synced(frames, received, d, buff) && received + chunk <= Flat(frames)
    ensures Synced(frames, received + chunk, d, buff + chunk)
  {
    var head, tail := Flat(frames[..d]), Flat(frames[d..]);
    assert Flat(frames) == head + tail by { FlatSplit(frames, d); }
    assert received + chunk == head + (buff + chunk) by { assert received == head + buff; }
    DropCommon(head, buff + chunk, tail);
  }

  lemma FlatGrows(parts: seq<seq<byte>>, j: nat, k: nat)
    requires j < k <= |parts|
    ensures |Flat(parts[..k])| >= |Flat(parts[..j])| + |parts[j]|
  {
    FlatSplit(parts[..k], j + 1);
    assert parts[..k][..j + 1] == parts[..j + 1];
    FlatNext(parts, j);
  }

  /** The bytes alone decide how many frames are out and what is left: however the same bytes were
      chunked, two drained receivers of the same stream agree. */
  lemma ChunkIndependence(frames: seq<seq<byte>>, received: seq<byte>,
                          d1: nat, buff1: seq<byte>, d2: nat, buff2: seq<byte>)
    requires forall i | 0 <= i < |frames| :: frames[i] != []
    requires Synced(frames, received, d1, buff1) && Drained(frames, d1, buff1)
    requires Synced(frames, received, d2, buff2) && Drained(frames, d2, buff2)
    ensures d1 == d2 && buff1 == buff2
  {
    if d1 < d2 { FlatGrows(frames, d1, d2); }
    if d2 < d1 { FlatGrows(frames, d2, d1); }
    var n := |Flat(frames[..d1])|;
    assert buff1 == received[n..] && buff2 == received[n..];
  }
}

/** The receiving side of a transport: frames parsed out of a byte stream that arrives in chunks. */
module Receive {
  import opened Packets
  import opened ByteMemory
  import opened ByteStream
  import opened Unpack
  import opened Wire

  predicate AllWellFormed(ps: seq<Packet>)
  {
    forall i | 0 <= i < |ps| :: WellFormed(ps[i])
  }

  /** What a client sends for these packets. */
  function Frames(ps: seq<Packet>): (fs: seq<seq<byte>>)
    requires AllWellFormed(ps)
    ensures |fs| == |ps|
    ensures forall i | 0 <= i < |fs| :: fs[i] == Frame(ps[i])
  {
    seq(|ps|, i requires 0 <= i < |ps| => Frame(ps[i]))
  }

  /** The received bytes followed by whatever memory holds after them. */
  function Buffer(bytes: seq<byte>, junk: Memory): Memory
  {
    (i: nat) => if i < |bytes| then bytes[i] else junk(i)
  }

  lemma NextFrameParses(p: Packet, after: seq<byte>, buff: seq<byte>, junk: Memory)
    requires WellFormed(p) && buff != [] && buff <= Frame(p) + after
    ensures FrameAt(Buffer(buff, junk), |buff|) == if |buff| >= |Frame(p)| then Ok(p) else Partial
  {
    var mem, f := Buffer(buff, junk), Frame(p);
    if |buff| >= |f| {
      assert At(mem, 0, f) by {
        forall i: nat | i < |f| ensures mem(0 + i) == f[i] { assert buff[i] == (f + after)[i]; }
      }
      FrameRoundTrip(p, mem, |buff|);
    } else {
      assert At(mem, 0, f[..|buff|]) by {
        forall i: nat | i < |buff| ensures mem(0 + i) == f[i] { assert buff[i] == (f + after)[i]; }
      }
      ProperPrefixIsPartial(p, mem, |buff|);
    }
  }

  /** Where a stream stands decides what the next pass comes to. */
  lemma NextOutcome(ps: seq<Packet>, received: seq<byte>, d: nat, buff: seq<byte>, junk: Memory, r: Result)
    requires AllWellFormed(ps) && Synced(Frames(ps), received, d, buff) && buff != []
    requires r == FrameAt(Buffer(buff, junk), |buff|)
    ensures d < |ps| && (r.Ok? ==> r.packet == ps[d])
    ensures if r.Ok? then ps[d].pktLen <= |buff| && Synced(Frames(ps), received, d + 1, buff[ps[d].pktLen..])
            else Drained(Frames(ps), d, buff)
  {
    SyncedStep(Frames(ps), received, d, buff);
    NextFrameParses(ps[d], Flat(Frames(ps)[d + 1..]), buff, junk);
  }

  /** A pass keeps the receiver in sync with the stream, and when it stops nothing more is complete. */
  lemma Advance(ps: seq<Packet>, received: seq<byte>, done: seq<Packet>, buff: seq<byte>, junk: Memory, r: Result,
                done': seq<Packet>, buff': seq<byte>)
    requires AllWellFormed(ps) && done <= ps && Synced(Frames(ps), received, |done|, buff) && buff != []
    requires r == FrameAt(Buffer(buff, junk), |buff|)
    requires if r.Ok? then 0 < r.packet.pktLen <= |buff| && buff' == buff[r.packet.pktLen..] && done' == done + [r.packet]
             else buff' == buff && done' == done
    ensures done' <= ps && Synced(Frames(ps), received, |done'|, buff')
    ensures !r.Ok? ==> Drained(Frames(ps), |done'|, buff')
  {
    NextOutcome(ps, received, |done|, buff, junk, r);
    if r.Ok? { OneMoreDispatched(ps, done, r.packet); }
  }

  lemma OneMoreDispatched(ps: seq<Packet>, done: seq<Packet>, p: Packet)
    requires done <= ps && |done| < |ps| && p == ps[|done|]
    ensures done + [p] <= ps
  {
  }

  class Receiver {
    var recvBuff: seq<byte>
    var dispatched: seq<Packet>   // packets handed to the handlers, oldest first
    ghost var received: seq<byte> // every byte that has arrived

    constructor ()
      ensures recvBuff == [] && dispatched == [] && received == []
    {
      recvBuff, dispatched, received := [], [], [];
    }

    /** Some of the packets of `ps` have arrived and have been dispatched in order; what is left in
        the buffer is a beginning of the rest of the stream. */
    ghost predicate InSync(ps: seq<Packet>)
      requires AllWellFormed(ps)
      reads this
    {
      dispatched <= ps && Synced(Frames(ps), received, |dispatched|, recvBuff)
    }

    /** `parseData`: decode one frame, erase exactly its bytes, dispatch it. `junk` is what memory
        holds outside the buffer. */
    method ParseData(junk: Memory) returns (r: Result)
      modifies this
      ensures r == FrameAt(Buffer(old(recvBuff), junk), |old(recvBuff)|)
      ensures received == old(received)
      ensures !r.Ok? ==> recvBuff == old(recvBuff) && dispatched == old(dispatched)
      ensures r.Ok? ==> 0 < r.packet.pktLen <= |old(recvBuff)|
                        && recvBuff == old(recvBuff)[r.packet.pktLen..]
                        && dispatched == old(dispatched) + [r.packet]
    {
      var c := new Cursor(Buffer(recvBuff, junk));
      r := UnpackPacket(c, |recvBuff|);
      if r.Ok? {
        recvBuff := recvBuff[r.packet.pktLen..];
        dispatched := dispatched + [r.packet];
      }
    }

    /** One parsing pass over a nonempty buffer in sync with a well-formed stream. */
    method ParseNext(junk: Memory, ghost ps: seq<Packet>) returns (more: bool)
      requires AllWellFormed(ps) && InSync(ps) && recvBuff != []
      modifies this
      ensures InSync(ps) && received == old(received)
      ensures more ==> |recvBuff| < |old(recvBuff)|
      ensures !more ==> Drained(Frames(ps), |dispatched|, recvBuff)
    {
      var r := ParseData(junk);
      more := r.Ok?;
      Advance(ps, received, old(dispatched), old(recvBuff), junk, r, dispatched, recvBuff);
    }

    /** One chunk arrives and is parsed until the parser reports a partial packet. */
    method Deliver(chunk: seq<byte>, junks: nat -> Memory, ghost ps: seq<Packet>)
      requires AllWellFormed(ps) && InSync(ps)
      requires received + chunk <= Flat(Frames(ps))
      modifies this
      ensures InSync(ps) && Drained(Frames(ps), |dispatched|, recvBuff)
      ensures received == old(received) + chunk
    {
      SyncedArrival(Frames(ps), received, |dispatched|, recvBuff, chunk);
      received := received + chunk;
      recvBuff := recvBuff + chunk;
      var k: nat := 0;
      while recvBuff != []
        invariant InSync(ps) && received == old(received) + chunk
        decreases |recvBuff|
      {
        var more := ParseNext(junks(k), ps);
        if !more { return; }
        k := k + 1;
      }
    }
  }

  /** A whole well-formed stream, in any chunks (empty ones included), is dispatched as exactly
      those packets in order, and no byte is left over. */
  method DeliverAll(chunks: seq<seq<byte>>, junks: nat -> Memory, ghost ps: seq<Packet>)
    returns (dispatched: seq<Packet>, left: seq<byte>)
    requires AllWellFormed(ps) && Flat(chunks) == Flat(Frames(ps))
    ensures dispatched == ps && left == []
  {
    var r := new Receiver();
    ghost var frames := Frames(ps);
    var i := 0;
    while i < |chunks|
      invariant i <= |chunks| && fresh(r)
      invariant r.InSync(ps) && Drained(frames, |r.dispatched|, r.recvBuff)
      invariant r.received == Flat(chunks[..i])
    {
      ChunkFits(chunks, i);
      r.Deliver(chunks[i], junks, ps);
      i := i + 1;
    }
    assert chunks[..i] == chunks;
    EverythingOut(frames, |r.dispatched|, r.recvBuff);
    dispatched, left := r.dispatched, r.recvBuff;
  }

  lemma ChunkFits(chunks: seq<seq<byte>>, i: nat)
    requires i < |chunks|
    ensures Flat(chunks[..i]) + chunks[i] == Flat(chunks[..i + 1]) <= Flat(chunks)
  {
    FlatNext(chunks, i);
    FlatSplit(chunks, i + 1);
  }

  lemma EverythingOut(frames: seq<seq<byte>>, d: nat, buff: seq<byte>)
    requires forall i | 0 <= i < |frames| :: frames[i] != []
    requires Synced(frames, Flat(frames), d, buff) && Drained(frames, d, buff)
    ensures d == |frames| && buff == []
  {
    assert frames[..|frames|] == frames;
    ChunkIndependence(frames, Flat(frames), d, buff, |frames|, []);
  }
}
