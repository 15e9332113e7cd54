/** The client as an object over three pools: each of its operations on them is one step of `ClientPools`. */
module PooledClient {
  import opened Basics
  import opened ConnPool
  import opened ClientPools

  lemma TakeTouches(s: Client, purpose: Purpose)
    ensures var t := TakeFor(s, purpose);
            && t.stream == s.stream && t.packet == s.packet
            && t.idle == (if s.idle == [] then [] else s.idle[..|s.idle| - 1])
            && t.created == (if s.idle == [] then s.created + 1 else s.created)
  {
  }

  class TunnelClient {
    const idle: Pool
    const stream: Pool
    const packet: Pool
    /** How many websocket connections were dialed; the next one gets this number. */
    var created: nat
    /** Who holds which connection outside of the pools. */
    ghost var book: Client

    ghost predicate Valid()
      reads this
    {
      idle != stream && idle != packet && stream != packet && book.created == created
    }

    ghost function View(): Client
      reads this, idle, stream, packet
    {
      book.(idle := idle.data, stream := stream.data, packet := packet.data)
    }

    constructor ()
      ensures Valid() && View() == NEW_CLIENT
      ensures fresh(idle) && fresh(stream) && fresh(packet)
    {
      idle := new Pool();
      stream := new Pool();
      packet := new Pool();
      created, book := 0, NEW_CLIENT;
    }

    /** `getIdleConn` without its refill; `None` is the error return, which changes nothing. */
    method GetIdleConn(purpose: Purpose, reachable: bool) returns (c: Option<ConnRef>)
      requires Valid() && Enabled(View(), Take(purpose))
      modifies this, idle
      ensures Valid()
      ensures c.None? <==> old(idle.data) == [] && !reachable
      ensures View() == if c.None? then old(View()) else Next(old(View()), Take(purpose))
      ensures c.Some? ==> c.value == if old(idle.data) == [] then old(created) else old(idle.data)[|old(idle.data)| - 1]
    {
      ghost var before := View();
      var size := idle.Len();
      c := idle.TakeOr(if reachable then Some(created) else None);
      if c.None? { return; }
      if size == 0 {
        created := created + 1;
      } else {
        assert idle.data == before.idle[..|before.idle| - 1];
      }
      book := TakeFor(before, purpose);
      TakeTouches(before, purpose);
    }

    /** The second half of `addIdleConn`. */
    method PutIdleConn(c: ConnRef)
      requires Valid() && Enabled(View(), PutIdle(c))
      modifies this, idle
      ensures Valid() && View() == Next(old(View()), PutIdle(c))
    {
      ghost var before := View();
      idle.Put(c);
      book := Next(before, PutIdle(c));
    }

    /** The end of `DialContext`, up to the spawn of the watcher. */
    method DialReturned(c: ConnRef, ok: bool)
      requires Valid() && Enabled(View(), DialReturns(c, ok))
      modifies this, idle, stream
      ensures Valid() && View() == Next(old(View()), DialReturns(c, ok))
    {
      ghost var before := View();
      if ok { stream.Put(c); } else { idle.Put(c); }
      book := Next(before, DialReturns(c, ok));
    }

    /** The end of `ListenPacketContext`, up to the spawn of the watcher. */
    method ListenReturned(c: ConnRef, ok: bool)
      requires Valid() && Enabled(View(), ListenReturns(c, ok))
      modifies this, idle, packet
      ensures Valid() && View() == Next(old(View()), ListenReturns(c, ok))
    {
      ghost var before := View();
      if ok { packet.Put(c); } else { idle.Put(c); }
      book := Next(before, ListenReturns(c, ok));
    }

    /** A stream watcher whose pipe was closed. */
    method StreamPipeClosed(c: ConnRef) returns (panicked: bool)
      requires Valid() && Enabled(View(), StreamClosed(c))
      modifies this, idle, stream
      ensures Valid() && View() == Next(old(View()), StreamClosed(c))
      ensures panicked == View().panicked
    {
      ghost var before := View();
      panicked := idle.PutFrom(c, stream);
      book := StreamDone(before, c);
    }

    method PacketPipeClosed(c: ConnRef) returns (panicked: bool)
      requires Valid() && Enabled(View(), PacketClosed(c))
      modifies this, idle, packet
      ensures Valid() && View() == Next(old(View()), PacketClosed(c))
      ensures panicked == View().panicked
    {
      ghost var before := View();
      panicked := idle.PutFrom(c, packet);
      book := PacketDone(before, c);
    }

    /** `checkConns`: everything idle is let go; Shutdown is done when nothing is busy. */
    method CheckConns() returns (ok: bool, gone: seq<ConnRef>)
      requires Valid() && Enabled(View(), ClearIdle)
      modifies this, idle
      ensures Valid() && View() == Next(old(View()), ClearIdle)
      ensures ok <==> stream.data == [] && packet.data == []
      ensures gone == old(idle.data)
    {
      ghost var before := View();
      gone := idle.Clear();
      book := Next(before, ClearIdle);
      var s := stream.Len();
      var p := packet.Len();
      ok := s == 0 && p == 0;
    }

    /** The busy half of a Shutdown whose own context ended. */
    method ClearBusy() returns (gone: seq<ConnRef>)
      requires Valid() && Enabled(View(), ClearStream)
      modifies this, stream, packet
      ensures Valid() && View() == Next(Next(old(View()), ClearStream), ClearPacket)
      ensures gone == old(stream.data) + old(packet.data)
    {
      ghost var before := View();
      var s := stream.Clear();
      var p := packet.Clear();
      book := Next(Next(before, ClearStream), ClearPacket);
      gone := s + p;
    }
  }
}
