/** The service's connection table and the connection callbacks run in place
    (src/xv_service.c), for a service without a worker pool.

    Each callback is the code's sequence of statements on the fields of one connection and on
    the table.  It is proved against the functions of module `Connection`, and between
    callbacks the table holds exactly the connections that were not reclaimed.
 */
module Service {
  import opened ByteBuffer
  import opened LinkedQueue
  import C = Connection

  class Connection {
    const fd: int
    var status: C.Status
    var refCount: int
    var readOn: bool
    var writeOn: bool
    var readBuffer: View
    var writeBuffer: View
    ghost var userRefs: int
    ghost var live: nat
    ghost var wire: seq<byte>
    ghost var encoded: seq<byte>
    ghost var disconnects: nat
    ghost var reclaims: nat
    ghost var frees: nat

    ghost function Abs(): C.Conn
      reads this
    {
      C.Conn(status, refCount, readOn, writeOn, readBuffer, writeBuffer,
             userRefs, live, 0, wire, encoded, disconnects, reclaims, frees)
    }

    // xv_connection_init, before the read watcher is started
    constructor (fd: int)
      ensures this.fd == fd && Abs() == C.NEW.(readOn := false)
    {
      this.fd := fd;
      status, refCount, readOn, writeOn := C.Open, 1, false, false;
      readBuffer, writeBuffer := Fresh(C.BUFFER_SIZE), Fresh(C.BUFFER_SIZE);
      userRefs, live, wire, encoded, disconnects, reclaims, frees := 0, 0, [], [], 0, 0, 0;
    }
  }

  // The number of slots in use.
  function Occupied(table: seq<Connection?>): nat {
    if table == [] then 0
    else Occupied(table[..|table| - 1]) + (if table[|table| - 1] != null then 1 else 0)
  }

  lemma {:induction false} OccupiedUpdate(table: seq<Connection?>, i: nat, x: Connection?)
    requires i < |table|
    ensures Occupied(table[i := x]) == Occupied(table) - (if table[i] != null then 1 else 0)
                                       + (if x != null then 1 else 0)
    decreases |table|
  {
    var last := |table| - 1;
    if i == last {
      assert table[i := x][..last] == table[..last];
    } else {
      assert table[i := x][..last] == table[..last][i := x];
      OccupiedUpdate(table[..last], i, x);
    }
  }

  lemma {:induction false} OccupiedNone(table: seq<Connection?>)
    requires forall i :: 0 <= i < |table| ==> table[i] == null
    ensures Occupied(table) == 0
    decreases |table|
  {
    if table != [] {
      OccupiedNone(table[..|table| - 1]);
    }
  }

  class Service {
    const cfg: C.Config
    const connections: array<Connection?>
    var connCount: int
    ghost var all: set<Connection>   // every connection ever accepted

    ghost predicate ConnOk(c: Connection)
      reads this, connections, c
    {
      && C.Inv(cfg, c.Abs()) && C.SyncInv(c.Abs())
      && 0 <= c.fd < connections.Length
      && (c.frees == 0 <==> connections[c.fd] == c)
    }

    // Between callbacks: a slot holds a connection exactly when it was accepted on that
    // descriptor and not reclaimed, and the count is the number of slots in use.
    ghost predicate Valid()
      reads this, connections, all
    {
      && !cfg.pooled
      && (forall c :: c in all ==> ConnOk(c))
      && (forall fd :: 0 <= fd < connections.Length && connections[fd] != null ==>
            connections[fd] in all && connections[fd].fd == fd)
      && connCount == Occupied(connections[..])
    }

    constructor (cfg: C.Config, setsize: nat)
      requires !cfg.pooled
      ensures Valid() && all == {} && connCount == 0 && this.cfg == cfg
      ensures fresh(connections) && connections.Length == setsize
    {
      this.cfg := cfg;
      connections := new Connection?[setsize](_ => null);
      connCount := 0;
      all := {};
      new;
      OccupiedNone(connections[..]);
    }

    // xv_service_del_connection
    method DelConnection(conn: Connection) returns (ok: bool)
      modifies this`connCount, connections
      ensures ok <==> 0 <= conn.fd < connections.Length
      ensures ok ==> connections[..] == old(connections[..])[conn.fd := null] && connCount == old(connCount) - 1
      ensures !ok ==> connections[..] == old(connections[..]) && connCount == old(connCount)
    {
      if conn.fd < 0 || conn.fd >= connections.Length {
        return false;
      }
      connections[conn.fd] := null;
      connCount := connCount - 1;
      ok := true;
    }

    // The table after a callback on `conn`: its slot is given up exactly when it was reclaimed.
    twostate predicate TableUpdated(conn: Connection)
      reads this, connections, conn
      requires 0 <= conn.fd < connections.Length
    {
      && connections[..] == (if conn.reclaims > old(conn.reclaims) then old(connections[..])[conn.fd := null]
                             else old(connections[..]))
      && connCount == old(connCount) - (if conn.reclaims > old(conn.reclaims) then 1 else 0)
    }

    // The first half of xv_connection_close
    method Shut(conn: Connection, dropped: int)
      modifies conn
      ensures conn.Abs() == C.Shut(cfg, old(conn.Abs()), dropped)
    {
      if conn.status != C.Closed {
        conn.status := C.Closed;
        if cfg.hasOnDisconnect {
          conn.disconnects := conn.disconnects + 1;
          conn.userRefs := conn.userRefs + dropped;
          conn.refCount := conn.refCount + dropped;
        }
        conn.readOn := false;
        conn.writeOn := false;
      }
    }

    // xv_connection_close
    method Close(conn: Connection, dropped: int)
      requires 0 <= conn.fd < connections.Length
      modifies conn, connections, this`connCount
      ensures conn.Abs() == C.Close(cfg, old(conn.Abs()), dropped)
      ensures TableUpdated(conn)
    {
      Shut(conn, dropped);
      if conn.refCount > 1 {
        return;
      }
      var ok := DelConnection(conn);
      conn.reclaims := conn.reclaims + 1;
      conn.frees := conn.frees + 1;
    }

    // process_message
    method ProcessMessage(conn: Connection, reply: Option<seq<Op>>, w: C.WriteResult, dropped: int)
      requires 0 <= conn.fd < connections.Length
      requires C.EncodeOk(conn.Abs(), reply) && C.WriteOk(w, C.Pending(cfg, conn.Abs(), reply))
      modifies conn, connections, this`connCount
      ensures conn.Abs() == C.ProcessMessage(cfg, old(conn.Abs()), reply, w, dropped)
      ensures TableUpdated(conn)
    {
      if reply.None? || !cfg.hasEncode {
        return;
      }
      RefinesByteQueue(conn.writeBuffer, reply.value);
      conn.writeBuffer := Exec(conn.writeBuffer, reply.value);
      conn.encoded := conn.encoded + Written(reply.value);
      var want := |conn.writeBuffer.unread|;
      if want == 0 {
        return;
      }
      if w == C.WriteFailed {
        Close(conn, dropped);
      } else {
        var nwritten := if w.Wrote? then w.n else -1;
        if nwritten > 0 {
          conn.wire := conn.wire + conn.writeBuffer.unread[..nwritten];
          conn.writeBuffer := Step(conn.writeBuffer, Skip(nwritten));
        }
        if nwritten < want && conn.status == C.Open {
          conn.writeOn := true;
        }
      }
    }

    // xv_message_init
    method MessageInit(conn: Connection)
      modifies conn
      ensures conn.Abs() == C.Referenced(old(conn.Abs()))
    {
      conn.refCount := conn.refCount + 1;
      conn.live := conn.live + 1;
    }

    // xv_message_destroy
    method MessageDestroy(conn: Connection)
      requires conn.live > 0
      modifies conn
      ensures conn.Abs() == C.Released(old(conn.Abs()))
    {
      conn.refCount := conn.refCount - 1;
      conn.live := conn.live - 1;
    }

    // What the user does to the reference count while it decodes and processes
    method UserCallbacks(conn: Connection, taken: int)
      modifies conn
      ensures conn.Abs() == C.UserRefs(old(conn.Abs()), taken)
    {
      conn.userRefs := conn.userRefs + taken;
      conn.refCount := conn.refCount + taken;
    }

    // The part of process_read_buffer from xv_message_init to xv_message_destroy
    method ProcessRequest(conn: Connection, e: C.Event)
      requires 0 <= conn.fd < connections.Length && e.Readable?
      requires C.EncodeOk(conn.Abs(), e.reply) && C.WriteOk(e.write, C.Pending(cfg, conn.Abs(), e.reply))
      modifies conn, connections, this`connCount
      ensures var c := C.Referenced(C.UserRefs(old(conn.Abs()), e.taken));
              conn.Abs() == C.Released(C.ProcessMessage(cfg, c, e.reply, e.write, e.dropped))
      ensures TableUpdated(conn)
    {
      UserCallbacks(conn, e.taken);
      MessageInit(conn);
      C.ProcessMessageFrame(cfg, conn.Abs(), e.reply, e.write, e.dropped);
      ProcessMessage(conn, e.reply, e.write, e.dropped);
      MessageDestroy(conn);
    }

    // process_read_buffer: decode, then the message's life in this callback
    method ProcessReadBuffer(conn: Connection, e: C.Event)
      requires 0 <= conn.fd < connections.Length && !cfg.pooled && e.Readable?
      requires conn.readBuffer.Valid() && C.Consumes(e.consume) && Legal(conn.readBuffer, e.consume)
      requires C.EncodeOk(conn.Abs(), e.reply) && C.WriteOk(e.write, C.Pending(cfg, conn.Abs(), e.reply))
      modifies conn, connections, this`connCount
      ensures conn.Abs() == C.ProcessReadBuffer(cfg, old(conn.Abs()), e)
      ensures TableUpdated(conn)
    {
      if !cfg.hasDecode || !cfg.hasProcess {
        conn.readBuffer := Step(conn.readBuffer, Clear);
        return;
      }
      conn.readBuffer := Exec(conn.readBuffer, e.consume);
      if e.decode == C.Decoded {
        ProcessRequest(conn, e);
      } else if e.decode == C.Malformed {
        Close(conn, e.dropped);
      }
    }

    // A callback that follows the model keeps the table right.
    twostate lemma CallbackKeepsValid(conn: Connection, new e: C.Event)
      requires old(Valid()) && conn in old(all) && all == old(all)
      requires !e.Returned? && !e.TestSend? && C.Enabled(cfg, old(conn.Abs()), e)
      requires conn.Abs() == C.Apply(cfg, old(conn.Abs()), e)
      requires 0 <= conn.fd < connections.Length && TableUpdated(conn)
      requires forall c :: c in all && c != conn ==> unchanged(c)
      ensures Valid()
    {
      assert old(ConnOk(conn));
      C.EventKeepsInv(cfg, old(conn.Abs()), e);
      C.SyncEventKeeps(cfg, old(conn.Abs()), e);
      OccupiedUpdate(old(connections[..]), conn.fd, null);
      forall c | c in all ensures ConnOk(c) {
        assert old(ConnOk(c));
      }
    }

    // on_connection_read
    method ReadInput(conn: Connection, e: C.Event)
      requires 0 <= conn.fd < connections.Length && !cfg.pooled
      requires e.Readable? && C.Enabled(cfg, conn.Abs(), e)
      modifies conn, connections, this`connCount
      ensures conn.Abs() == C.OnRead(cfg, old(conn.Abs()), e)
      ensures TableUpdated(conn)
    {
      if conn.status == C.Closed {
        return;
      }
      conn.readBuffer := Step(conn.readBuffer, Reserve(C.READ_SIZE));
      if e.read == C.ReadFailed {
        Close(conn, e.dropped);
      } else if e.read.Got? {
        conn.readBuffer := Step(conn.readBuffer, Commit(e.read.bytes));
        ProcessReadBuffer(conn, e);
      }
    }

    method OnConnectionRead(conn: Connection, e: C.Event)
      requires Valid() && conn in all && e.Readable? && C.Enabled(cfg, conn.Abs(), e)
      modifies conn, connections, this`connCount
      ensures Valid() && conn.Abs() == C.Apply(cfg, old(conn.Abs()), e)
      ensures TableUpdated(conn)
    {
      assert ConnOk(conn);
      ReadInput(conn, e);
      CallbackKeepsValid(conn, e);
    }

    // on_connection_write
    method OnConnectionWrite(conn: Connection, w: C.WriteResult, dropped: int)
      requires Valid() && conn in all && C.Enabled(cfg, conn.Abs(), C.Writable(w, dropped))
      modifies conn, connections, this`connCount
      ensures Valid() && conn.Abs() == C.Apply(cfg, old(conn.Abs()), C.Writable(w, dropped))
      ensures TableUpdated(conn)
    {
      assert ConnOk(conn);
      var size := |conn.writeBuffer.unread|;
      if size > 0 {
        if w == C.Wrote(0) || w == C.WriteFailed {
          Close(conn, dropped);
        } else {
          var nwritten := if w.Wrote? then w.n else -1;
          if nwritten > 0 {
            conn.wire := conn.wire + conn.writeBuffer.unread[..nwritten];
            conn.writeBuffer := Step(conn.writeBuffer, Skip(nwritten));
          }
          if nwritten == size {
            conn.writeOn := false;
          }
        }
      } else {
        conn.writeOn := false;
      }
      CallbackKeepsValid(conn, C.Writable(w, dropped));
    }

    // xv_connection_incr_ref and xv_connection_decr_ref by the user
    method ChangeRef(conn: Connection, change: int)
      requires Valid() && conn in all && C.Enabled(cfg, conn.Abs(), C.UserRef(change))
      modifies conn
      ensures Valid() && conn.Abs() == C.Apply(cfg, old(conn.Abs()), C.UserRef(change))
    {
      assert ConnOk(conn);
      conn.refCount := conn.refCount + change;
      conn.userRefs := conn.userRefs + change;
      CallbackKeepsValid(conn, C.UserRef(change));
    }

    // xv_service_add_connection, for a descriptor below the table's size
    method AddConnection(conn: Connection)
      requires 0 <= conn.fd < connections.Length
      modifies this`connCount, connections
      ensures connections[..] == old(connections[..])[conn.fd := conn] && connCount == old(connCount) + 1
    {
      connections[conn.fd] := conn;
      connCount := connCount + 1;
    }

    twostate lemma AcceptKeepsValid(new conn: Connection)
      requires old(Valid()) && fresh(conn) && all == old(all) + {conn} && conn.Abs() == C.NEW
      requires 0 <= conn.fd < connections.Length && old(connections[..])[conn.fd] == null
      requires connections[..] == old(connections[..])[conn.fd := conn] && connCount == old(connCount) + 1
      requires forall c :: c in old(all) ==> unchanged(c)
      ensures Valid()
    {
      OccupiedUpdate(old(connections[..]), conn.fd, conn);
      assert forall i :: 0 <= i < connections.Length ==> connections[i] == connections[..][i];
      assert forall i :: 0 <= i < connections.Length ==> old(connections[i]) == old(connections[..])[i];
      forall c | c in all ensures ConnOk(c) {
        assert c != conn ==> old(ConnOk(c));
      }
    }

    // on_new_connection with one io thread: the kernel hands out a descriptor that no
    // unreclaimed connection uses, so its slot is free.  `usable` is whether the socket options
    // could be set; otherwise the descriptor is closed again.
    method OnNewConnection(fd: int, usable: bool) returns (conn: Connection?)
      requires Valid() && fd < connections.Length
      requires forall c :: c in all && c.frees == 0 ==> c.fd != fd
      modifies this, connections
      ensures Valid()
      ensures conn != null <==> fd > 0 && usable
      ensures conn != null ==> fresh(conn) && conn.fd == fd && conn.Abs() == C.NEW && all == old(all) + {conn}
      ensures conn != null ==> old(connections[fd]) == null && connCount == old(connCount) + 1
      ensures conn != null ==> connections[..] == old(connections[..])[fd := conn]
      ensures conn == null ==> unchanged(this) && unchanged(connections)
    {
      if fd <= 0 || !usable {
        return null;
      }
      assert connections[fd] == null;
      conn := new Connection(fd);
      AddConnection(conn);
      all := all + {conn};
      // xv_io_start on the read watcher
      conn.readOn := true;
      AcceptKeepsValid(conn);
    }
  }
}
