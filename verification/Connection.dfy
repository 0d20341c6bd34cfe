/** One connection and its messages (src/xv_service.c).

    The callbacks of a connection as functions of its state and of everything the code does
    not control: results of read(2) and write(2), what the user's decode, process, encode and
    on_disconnect callbacks do, and reference counts the user takes and drops.  decode may
    only consume from the read buffer and encode may only append to the write buffer, through
    any sequence of buffer operations.  Class `Service` runs these callbacks in place.
 */
module Connection {
  import opened ByteBuffer
  import opened LinkedQueue

  // XV_DEFAULT_BUFFRT_SIZE and XV_DEFAULT_READ_SIZE
  const BUFFER_SIZE: nat := 8192
  const READ_SIZE: nat := 4096

  datatype Status = Open | Closed

  // Which user callbacks a listener has, and whether the service has a worker pool.
  datatype Config = Config(hasDecode: bool, hasProcess: bool, hasEncode: bool,
                           hasOnDisconnect: bool, pooled: bool)

  datatype Conn = Conn(
    status: Status,
    refs: int,               // ref_count
    readOn: bool,            // read_io started
    writeOn: bool,           // write_io started
    readBuf: View,
    writeBuf: View,
    userRefs: int,           // references the user holds
    live: nat,               // messages that refer to the connection
    senders: nat,            // calls of xv_service_send_message past their status test
    wire: seq<byte>,         // bytes the socket accepted
    encoded: seq<byte>,      // bytes encode produced
    disconnects: nat,        // calls of on_disconnect
    reclaims: nat,           // table removal, close(2) and destroy at the end of xv_connection_close
    frees: nat)              // calls of xv_connection_destroy

  const NEW := Conn(Open, 1, true, false, Fresh(BUFFER_SIZE), Fresh(BUFFER_SIZE), 0, 0, 0, [], [], 0, 0, 0)

  // EAGAIN and EINTR are WouldBlock; write(2) may also return 0.
  datatype WriteResult = Wrote(n: nat) | WouldBlock | WriteFailed

  // End of stream and errors other than EAGAIN and EINTR are ReadFailed.
  datatype ReadResult = Got(bytes: seq<byte>) | NothingYet | ReadFailed

  datatype Decode = Decoded | NeedMore | Malformed

  datatype Event =
    // read_io fired; `taken` is the net change of user references made by decode and process,
    // `dropped` the one made by on_disconnect if the connection closes
    | Readable(read: ReadResult, consume: seq<Op>, decode: Decode, taken: int,
               reply: Option<seq<Op>>, write: WriteResult, dropped: int)
    // write_io fired
    | Writable(write: WriteResult, dropped: int)
    // a message came back through the io thread's message queue
    | Returned(reply: Option<seq<Op>>, write: WriteResult, dropped: int)
    // xv_service_send_message: the test of the status, and later the message with its reference
    | TestSend
    | TakeSend
    // xv_connection_incr_ref and xv_connection_decr_ref by the user
    | UserRef(change: int)

  predicate Appends(ops: seq<Op>) {
    forall i :: 0 <= i < |ops| ==> ops[i].Reserve? || ops[i].Write? || ops[i].Commit?
  }

  predicate Consumes(ops: seq<Op>) {
    forall i :: 0 <= i < |ops| ==> ops[i].Read? || ops[i].Skip? || ops[i].Clear?
  }

  // ------------------------------------------------------------------------------------
  // The callbacks
  // ------------------------------------------------------------------------------------

  // The first half of xv_connection_close: on_disconnect is called and the watchers stopped, once.
  function Shut(cfg: Config, c: Conn, dropped: int): Conn {
    if c.status == Closed then c
    else
      var c0 := c.(status := Closed, readOn := false, writeOn := false);
      if cfg.hasOnDisconnect
      then c0.(disconnects := c.disconnects + 1, userRefs := c.userRefs + dropped, refs := c.refs + dropped)
      else c0
  }

  // xv_connection_close
  function Close(cfg: Config, c: Conn, dropped: int): Conn {
    var c1 := Shut(cfg, c, dropped);
    if c1.refs > 1 then c1 else c1.(reclaims := c1.reclaims + 1, frees := c1.frees + 1)
  }

  // The bytes waiting after a reply is encoded.
  function Pending(cfg: Config, c: Conn, reply: Option<seq<Op>>): nat
    requires EncodeOk(c, reply)
  {
    if reply.None? || !cfg.hasEncode then 0 else |Exec(c.writeBuf, reply.value).unread|
  }

  predicate EncodeOk(c: Conn, reply: Option<seq<Op>>) {
    c.writeBuf.Valid() && (reply.Some? ==> Appends(reply.value) && Legal(c.writeBuf, reply.value))
  }

  predicate WriteOk(w: WriteResult, want: nat) { w.Wrote? ==> w.n <= want }

  // The socket takes the first `n` unread bytes.
  function Sent(c: Conn, n: nat): Conn
    requires c.writeBuf.Valid() && n <= |c.writeBuf.unread|
  {
    c.(writeBuf := Step(c.writeBuf, Skip(n)), wire := c.wire + c.writeBuf.unread[..n])
  }

  // process_message from the encode call on: what encode appends, then one write(2)
  function Encoded(c: Conn, ops: seq<Op>): Conn
    requires c.writeBuf.Valid() && Legal(c.writeBuf, ops)
  {
    c.(writeBuf := Exec(c.writeBuf, ops), encoded := c.encoded + Written(ops))
  }

  function Transmit(cfg: Config, c: Conn, w: WriteResult, dropped: int): Conn
    requires c.writeBuf.Valid() && WriteOk(w, |c.writeBuf.unread|)
  {
    if c.writeBuf.unread == [] then c
    else
      match w
      case WriteFailed => Close(cfg, c, dropped)
      case WouldBlock => if c.status == Open then c.(writeOn := true) else c
      case Wrote(n) =>
        var c1 := if n > 0 then Sent(c, n) else c;
        if n < |c.writeBuf.unread| && c.status == Open then c1.(writeOn := true) else c1
  }

  // process_message
  function ProcessMessage(cfg: Config, c: Conn, reply: Option<seq<Op>>, w: WriteResult, dropped: int): Conn
    requires EncodeOk(c, reply) && WriteOk(w, Pending(cfg, c, reply))
  {
    if reply.None? || !cfg.hasEncode then c
    else
      RefinesByteQueue(c.writeBuf, reply.value);
      Transmit(cfg, Encoded(c, reply.value), w, dropped)
  }

  // xv_message_init and xv_message_destroy
  function Referenced(c: Conn): Conn { c.(refs := c.refs + 1, live := c.live + 1) }

  function Released(c: Conn): Conn
    requires c.live > 0
  {
    c.(refs := c.refs - 1, live := c.live - 1)
  }

  function UserRefs(c: Conn, change: int): Conn {
    c.(refs := c.refs + change, userRefs := c.userRefs + change)
  }

  // The read buffer after the bytes of a read and after decode.
  function Filled(c: Conn, bytes: seq<byte>): View
    requires c.readBuf.Valid() && |bytes| <= READ_SIZE
  {
    Step(Step(c.readBuf, Reserve(READ_SIZE)), Commit(bytes))
  }

  predicate DecodeOk(c: Conn, bytes: seq<byte>, consume: seq<Op>) {
    c.readBuf.Valid() && 0 < |bytes| <= READ_SIZE && Consumes(consume) && Legal(Filled(c, bytes), consume)
  }

  predicate ReadEnabled(cfg: Config, c: Conn, e: Event)
    requires e.Readable?
  {
    && (e.read.Got? ==> DecodeOk(c, e.read.bytes, e.consume))
    && c.userRefs + e.taken >= 0 && c.userRefs + e.dropped >= 0 && c.userRefs + e.taken + e.dropped >= 0
    && EncodeOk(c, e.reply) && WriteOk(e.write, Pending(cfg, c, e.reply))
  }

  // Which events can happen to a connection: the write watcher fires while it is started (the
  // read callback checks for itself), a message returns while it is alive, the user keeps its
  // own reference count.  A message in flight comes back to a freed connection too, a sender past
  // its test goes on with it, and the code goes by what the freed memory still holds.
  predicate Enabled(cfg: Config, c: Conn, e: Event) {
    && (c.frees == 0 || e.Returned? || e.TakeSend?) && c.readBuf.Valid() && c.writeBuf.Valid()
    && (e.Readable? ==> ReadEnabled(cfg, c, e))
    && (e.Writable? ==> c.writeOn && WriteOk(e.write, |c.writeBuf.unread|) && c.userRefs + e.dropped >= 0)
    && (e.Returned? ==> c.live > 0 && EncodeOk(c, e.reply) && WriteOk(e.write, Pending(cfg, c, e.reply))
                        && c.userRefs + e.dropped >= 0)
    && (e.TakeSend? ==> c.senders > 0)
    && (e.UserRef? ==> c.userRefs + e.change >= 0)
  }

  // process_read_buffer, on what the read buffer `c.readBuf` then holds
  function ProcessReadBuffer(cfg: Config, c: Conn, e: Event): Conn
    requires e.Readable? && c.readBuf.Valid() && Consumes(e.consume) && Legal(c.readBuf, e.consume)
    requires EncodeOk(c, e.reply) && WriteOk(e.write, Pending(cfg, c, e.reply))
  {
    if !cfg.hasDecode || !cfg.hasProcess then c.(readBuf := Step(c.readBuf, Clear))
    else
      var c1 := c.(readBuf := Exec(c.readBuf, e.consume));
      match e.decode
      case Malformed => Close(cfg, c1, e.dropped)
      case NeedMore => c1
      case Decoded =>
        var c2 := Referenced(UserRefs(c1, e.taken));
        if cfg.pooled then c2 else Released(ProcessMessage(cfg, c2, e.reply, e.write, e.dropped))
  }

  // on_connection_read
  function OnRead(cfg: Config, c: Conn, e: Event): Conn
    requires e.Readable? && Enabled(cfg, c, e)
  {
    if c.status == Closed then c
    else
      var c1 := c.(readBuf := Step(c.readBuf, Reserve(READ_SIZE)));
      match e.read
      case NothingYet => c1
      case ReadFailed => Close(cfg, c1, e.dropped)
      case Got(bytes) => ProcessReadBuffer(cfg, c.(readBuf := Filled(c, bytes)), e)
  }

  // on_connection_write
  function OnWrite(cfg: Config, c: Conn, w: WriteResult, dropped: int): Conn
    requires c.writeBuf.Valid() && WriteOk(w, |c.writeBuf.unread|)
  {
    var size := |c.writeBuf.unread|;
    if size == 0 then c.(writeOn := false)
    else
      match w
      case WriteFailed => Close(cfg, c, dropped)
      case WouldBlock => c
      case Wrote(n) =>
        if n == 0 then Close(cfg, c, dropped)
        else if n == size then Sent(c, n).(writeOn := false)
        else Sent(c, n)
  }

  // One iteration of the loop in io_thread_return_message_cb
  function OnReturn(cfg: Config, c: Conn, reply: Option<seq<Op>>, w: WriteResult, dropped: int): Conn
    requires c.live > 0 && EncodeOk(c, reply) && WriteOk(w, Pending(cfg, c, reply))
  {
    if c.status != Closed then Released(ProcessMessage(cfg, c, reply, w, dropped))
    else
      var c1 := Released(c);
      c1.(frees := c1.frees + 1)
  }

  function Apply(cfg: Config, c: Conn, e: Event): Conn
    requires Enabled(cfg, c, e)
  {
    match e
    case Readable(_, _, _, _, _, _, _) => OnRead(cfg, c, e)
    case Writable(w, dropped) => OnWrite(cfg, c, w, dropped)
    case Returned(reply, w, dropped) => OnReturn(cfg, c, reply, w, dropped)
    case TestSend => if c.status == Closed then c else c.(senders := c.senders + 1)
    case TakeSend => Referenced(c.(senders := c.senders - 1))
    case UserRef(change) => UserRefs(c, change)
  }

  predicate LegalRun(cfg: Config, c: Conn, es: seq<Event>)
    decreases |es|
  {
    es == [] || (Enabled(cfg, c, es[0]) && LegalRun(cfg, Apply(cfg, c, es[0]), es[1..]))
  }

  function After(cfg: Config, c: Conn, es: seq<Event>): Conn
    requires LegalRun(cfg, c, es)
    decreases |es|
  {
    if es == [] then c else After(cfg, Apply(cfg, c, es[0]), es[1..])
  }

  // ------------------------------------------------------------------------------------
  // What every callback keeps, with or without a worker pool
  // ------------------------------------------------------------------------------------

  // Nothing is lost, duplicated or reordered on the way out.
  predicate WireOk(c: Conn) {
    c.writeBuf.Valid() && c.wire + c.writeBuf.unread == c.encoded
  }

  // Pending output of an open connection has its watcher started.
  predicate WriteInterest(c: Conn) {
    && (c.status == Open && c.writeBuf.unread != [] ==> c.writeOn)
    && (c.status == Closed ==> !c.readOn && !c.writeOn)
    && (c.status == Open ==> c.readOn)
  }

  predicate Counted(cfg: Config, c: Conn) {
    && c.refs == 1 + c.live + c.userRefs && c.userRefs >= 0
    && c.disconnects == (if c.status == Closed && cfg.hasOnDisconnect then 1 else 0)
    && (c.status == Open ==> c.frees == 0 && c.reclaims == 0)
    && c.reclaims <= c.frees && c.reclaims <= 1
  }

  predicate Inv(cfg: Config, c: Conn) {
    c.readBuf.Valid() && WireOk(c) && WriteInterest(c) && Counted(cfg, c)
  }

  lemma AppendStep(v: View, op: Op)
    requires v.Valid() && Allowed(v, op) && (op.Reserve? || op.Write? || op.Commit?)
    ensures Step(v, op).Valid() && Step(v, op).unread == v.unread + Added(op)
  {}

  lemma {:induction false} AppendsOnly(v: View, ops: seq<Op>)
    requires v.Valid() && Legal(v, ops) && Appends(ops)
    ensures Exec(v, ops).Valid() && Exec(v, ops).unread == v.unread + Written(ops)
    decreases |ops|
  {
    if ops != [] {
      var rest := Written(ops[1..]);
      AppendStep(v, ops[0]);
      AppendsOnly(Step(v, ops[0]), ops[1..]);
      assert (v.unread + Added(ops[0])) + rest == v.unread + (Added(ops[0]) + rest);
    }
  }

  lemma SentKeepsWire(c: Conn, n: nat)
    requires WireOk(c) && n <= |c.writeBuf.unread|
    ensures WireOk(Sent(c, n)) && Sent(c, n).writeBuf.unread == c.writeBuf.unread[n..]
  {
    assert c.writeBuf.unread == c.writeBuf.unread[..n] + c.writeBuf.unread[n..];
  }

  lemma CloseKeepsInv(cfg: Config, c: Conn, dropped: int)
    requires c.readBuf.Valid() && WireOk(c) && Counted(cfg, c) && c.status == Open
    requires c.userRefs + dropped >= 0
    ensures Inv(cfg, Close(cfg, c, dropped))
  {}

  // Write interest may be missing only for what was just encoded.
  lemma TransmitKeepsInv(cfg: Config, c: Conn, w: WriteResult, dropped: int)
    requires c.readBuf.Valid() && WireOk(c) && Counted(cfg, c) && c.status == Open
    requires c.readOn
    requires c.live > 0 && c.userRefs + dropped >= 0 && WriteOk(w, |c.writeBuf.unread|)
    ensures Inv(cfg, Transmit(cfg, c, w, dropped))
    ensures Transmit(cfg, c, w, dropped).frees == 0
  {
    if c.writeBuf.unread != [] {
      match w
      case Wrote(n) => SentKeepsWire(c, n);
      case WriteFailed => CloseKeepsInv(cfg, c, dropped);
      case WouldBlock =>
    }
  }

  lemma EncodedKeepsWire(c: Conn, ops: seq<Op>)
    requires WireOk(c) && Legal(c.writeBuf, ops) && Appends(ops)
    ensures WireOk(Encoded(c, ops))
  {
    AppendsOnly(c.writeBuf, ops);
    assert (c.wire + c.writeBuf.unread) + Written(ops) == c.wire + (c.writeBuf.unread + Written(ops));
  }

  // Inside process_message the message is alive, and whatever happens its connection is not freed.
  lemma ProcessMessageKeepsInv(cfg: Config, c: Conn, reply: Option<seq<Op>>, w: WriteResult, dropped: int)
    requires Inv(cfg, c) && c.status == Open && c.live > 0 && c.userRefs + dropped >= 0
    requires EncodeOk(c, reply) && WriteOk(w, Pending(cfg, c, reply))
    ensures Inv(cfg, ProcessMessage(cfg, c, reply, w, dropped))
    ensures ProcessMessage(cfg, c, reply, w, dropped).live == c.live
    ensures ProcessMessage(cfg, c, reply, w, dropped).frees == 0
  {
    if reply.Some? && cfg.hasEncode {
      EncodedKeepsWire(c, reply.value);
      TransmitKeepsInv(cfg, Encoded(c, reply.value), w, dropped);
    }
  }

  lemma RequestKeepsInv(cfg: Config, c: Conn, e: Event)
    requires Inv(cfg, c) && c.status == Open && e.Readable?
    requires EncodeOk(c, e.reply) && WriteOk(e.write, Pending(cfg, c, e.reply))
    requires c.userRefs + e.taken >= 0 && c.userRefs + e.taken + e.dropped >= 0
    ensures var c1 := Referenced(UserRefs(c, e.taken));
            && Inv(cfg, c1)
            && Inv(cfg, Released(ProcessMessage(cfg, c1, e.reply, e.write, e.dropped)))
            && ProcessMessage(cfg, c1, e.reply, e.write, e.dropped).frees == 0
  {
    ProcessMessageKeepsInv(cfg, Referenced(UserRefs(c, e.taken)), e.reply, e.write, e.dropped);
  }

  lemma ProcessReadBufferKeepsInv(cfg: Config, c: Conn, e: Event)
    requires Inv(cfg, c) && c.status == Open && e.Readable?
    requires Consumes(e.consume) && Legal(c.readBuf, e.consume)
    requires EncodeOk(c, e.reply) && WriteOk(e.write, Pending(cfg, c, e.reply))
    requires c.userRefs + e.taken >= 0 && c.userRefs + e.dropped >= 0 && c.userRefs + e.taken + e.dropped >= 0
    ensures Inv(cfg, ProcessReadBuffer(cfg, c, e))
  {
    if cfg.hasDecode && cfg.hasProcess {
      RefinesByteQueue(c.readBuf, e.consume);
      var c1 := c.(readBuf := Exec(c.readBuf, e.consume));
      match e.decode
      case Malformed => CloseKeepsInv(cfg, c1, e.dropped);
      case NeedMore =>
      case Decoded => RequestKeepsInv(cfg, c1, e);
    }
  }

  lemma ReadKeepsInv(cfg: Config, c: Conn, e: Event)
    requires Inv(cfg, c) && e.Readable? && Enabled(cfg, c, e)
    ensures Inv(cfg, OnRead(cfg, c, e))
  {
    if c.status == Open {
      match e.read
      case Got(bytes) => ProcessReadBufferKeepsInv(cfg, c.(readBuf := Filled(c, bytes)), e);
      case ReadFailed => CloseKeepsInv(cfg, c.(readBuf := Step(c.readBuf, Reserve(READ_SIZE))), e.dropped);
      case NothingYet =>
    }
  }

  lemma WriteKeepsInv(cfg: Config, c: Conn, w: WriteResult, dropped: int)
    requires Inv(cfg, c) && c.writeOn && WriteOk(w, |c.writeBuf.unread|) && c.userRefs + dropped >= 0
    ensures Inv(cfg, OnWrite(cfg, c, w, dropped))
    ensures var r := OnWrite(cfg, c, w, dropped);
            r.status == Open ==> (r.writeOn <==> r.writeBuf.unread != [])
  {
    if c.writeBuf.unread != [] && w.Wrote? {
      SentKeepsWire(c, w.n);
    }
  }

  lemma EventKeepsInv(cfg: Config, c: Conn, e: Event)
    requires Inv(cfg, c) && Enabled(cfg, c, e)
    ensures Inv(cfg, Apply(cfg, c, e))
  {
    match e
    case Readable(_, _, _, _, _, _, _) => ReadKeepsInv(cfg, c, e);
    case Writable(w, dropped) => WriteKeepsInv(cfg, c, w, dropped);
    case Returned(reply, w, dropped) =>
      if c.status == Open { ProcessMessageKeepsInv(cfg, c, reply, w, dropped); }
    case _ =>
  }

  lemma {:induction false} RunKeepsInv(cfg: Config, c: Conn, es: seq<Event>)
    requires Inv(cfg, c) && LegalRun(cfg, c, es)
    ensures Inv(cfg, After(cfg, c, es))
    decreases |es|
  {
    if es != [] {
      EventKeepsInv(cfg, c, es[0]);
      RunKeepsInv(cfg, Apply(cfg, c, es[0]), es[1..]);
    }
  }

  // ------------------------------------------------------------------------------------
  // The byte stream on the wire
  // ------------------------------------------------------------------------------------

  // The event finds a complete request in the read buffer.
  predicate Decodes(cfg: Config, c: Conn, e: Event) {
    e.Readable? && c.status == Open && e.read.Got? && cfg.hasDecode && cfg.hasProcess && e.decode == Decoded
  }

  // The event hands a decoded request's reply to process_message.
  predicate Replies(cfg: Config, c: Conn, e: Event) {
    (Decodes(cfg, c, e) && !cfg.pooled) || (e.Returned? && c.status == Open)
  }

  // The bytes of the response that an event encodes.
  function Response(cfg: Config, c: Conn, e: Event): seq<byte> {
    if Replies(cfg, c, e) && cfg.hasEncode && e.reply.Some? then Written(e.reply.value) else []
  }

  // All responses of a run, in processing order.
  function Responses(cfg: Config, c: Conn, es: seq<Event>): seq<byte>
    requires LegalRun(cfg, c, es)
    decreases |es|
  {
    if es == [] then [] else Response(cfg, c, es[0]) + Responses(cfg, Apply(cfg, c, es[0]), es[1..])
  }

  lemma Joined(a: seq<byte>, b: seq<byte>, c: seq<byte>)
    ensures (a + b) + c == a + (b + c)
  {}

  // What process_message leaves alone, and what it encodes.
  lemma ProcessMessageFrame(cfg: Config, c: Conn, reply: Option<seq<Op>>, w: WriteResult, dropped: int)
    requires EncodeOk(c, reply) && WriteOk(w, Pending(cfg, c, reply))
    ensures var r := ProcessMessage(cfg, c, reply, w, dropped);
            && r.readBuf == c.readBuf && r.live == c.live && r.senders == c.senders
            && r.encoded == c.encoded + (if cfg.hasEncode && reply.Some? then Written(reply.value) else [])
  {}

  // The state in which an event that answers a request comes to process_message.
  function Answering(c: Conn, e: Event): Conn
    requires e.Returned? || (e.Readable? && e.read.Got? && DecodeOk(c, e.read.bytes, e.consume))
  {
    if e.Returned? then c
    else Referenced(UserRefs(c.(readBuf := Exec(Filled(c, e.read.bytes), e.consume)), e.taken))
  }

  lemma EncodedStep(cfg: Config, c: Conn, e: Event)
    requires Enabled(cfg, c, e)
    ensures Apply(cfg, c, e).encoded == c.encoded + Response(cfg, c, e)
  {
    if Replies(cfg, c, e) {
      ProcessMessageFrame(cfg, Answering(c, e), e.reply, e.write, e.dropped);
    } else {
      assert Apply(cfg, c, e).encoded == c.encoded;
    }
  }

  lemma {:induction false} EncodedIsResponses(cfg: Config, c: Conn, es: seq<Event>)
    requires LegalRun(cfg, c, es)
    ensures After(cfg, c, es).encoded == c.encoded + Responses(cfg, c, es)
    decreases |es|
  {
    if es != [] {
      var c1 := Apply(cfg, c, es[0]);
      EncodedStep(cfg, c, es[0]);
      EncodedIsResponses(cfg, c1, es[1..]);
      Joined(c.encoded, Response(cfg, c, es[0]), Responses(cfg, c1, es[1..]));
    }
  }

  // What an event hands to write(2): all that waits, with the response just encoded.
  function Offered(cfg: Config, c: Conn, e: Event): seq<byte> {
    if e.Writable? || (Replies(cfg, c, e) && cfg.hasEncode && e.reply.Some?)
    then c.writeBuf.unread + Response(cfg, c, e) else []
  }

  // What write(2) accepts of it, going by its result alone.
  function Accepted(cfg: Config, c: Conn, e: Event): seq<byte> {
    var offered := Offered(cfg, c, e);
    if offered != [] && e.write.Wrote? && e.write.n <= |offered| then offered[..e.write.n] else []
  }

  // All that the socket accepted over a run.
  function AllAccepted(cfg: Config, c: Conn, es: seq<Event>): seq<byte>
    requires LegalRun(cfg, c, es)
    decreases |es|
  {
    if es == [] then [] else Accepted(cfg, c, es[0]) + AllAccepted(cfg, Apply(cfg, c, es[0]), es[1..])
  }

  lemma TransmitWire(cfg: Config, c: Conn, w: WriteResult, dropped: int)
    requires c.writeBuf.Valid() && WriteOk(w, |c.writeBuf.unread|)
    ensures var n := if w.Wrote? then w.n else 0;
            && Transmit(cfg, c, w, dropped).wire == c.wire + c.writeBuf.unread[..n]
            && Transmit(cfg, c, w, dropped).writeBuf.unread == c.writeBuf.unread[n..]
  {}

  lemma ProcessMessageWire(cfg: Config, c: Conn, reply: Option<seq<Op>>, w: WriteResult, dropped: int)
    requires EncodeOk(c, reply) && WriteOk(w, Pending(cfg, c, reply)) && reply.Some? && cfg.hasEncode
    ensures var offered := c.writeBuf.unread + Written(reply.value);
            var n := if w.Wrote? then w.n else 0;
            var r := ProcessMessage(cfg, c, reply, w, dropped);
            n <= |offered| && r.wire == c.wire + offered[..n] && r.writeBuf.unread == offered[n..]
  {
    AppendsOnly(c.writeBuf, reply.value);
    TransmitWire(cfg, Encoded(c, reply.value), w, dropped);
  }

  lemma WritableWire(cfg: Config, c: Conn, w: WriteResult, dropped: int)
    requires c.writeBuf.Valid() && WriteOk(w, |c.writeBuf.unread|)
    ensures var n := if w.Wrote? then w.n else 0;
            && OnWrite(cfg, c, w, dropped).wire == c.wire + c.writeBuf.unread[..n]
            && OnWrite(cfg, c, w, dropped).writeBuf.unread == c.writeBuf.unread[n..]
  {}

  lemma ReplyWireStep(cfg: Config, c: Conn, e: Event)
    requires Enabled(cfg, c, e) && Replies(cfg, c, e) && cfg.hasEncode && e.reply.Some?
    ensures Apply(cfg, c, e).wire == c.wire + Accepted(cfg, c, e)
  {
    ProcessMessageWire(cfg, Answering(c, e), e.reply, e.write, e.dropped);
  }

  lemma QuietWireStep(cfg: Config, c: Conn, e: Event)
    requires Enabled(cfg, c, e) && !e.Writable? && !(Replies(cfg, c, e) && cfg.hasEncode && e.reply.Some?)
    ensures Apply(cfg, c, e).wire == c.wire
  {}

  // One event: the socket accepts what its write reports.
  lemma WireStep(cfg: Config, c: Conn, e: Event)
    requires Enabled(cfg, c, e)
    ensures Apply(cfg, c, e).wire == c.wire + Accepted(cfg, c, e)
  {
    if e.Writable? {
      WritableWire(cfg, c, e.write, e.dropped);
    } else if Replies(cfg, c, e) && cfg.hasEncode && e.reply.Some? {
      ReplyWireStep(cfg, c, e);
    } else {
      QuietWireStep(cfg, c, e);
    }
  }

  lemma {:induction false} WireIsAccepted(cfg: Config, c: Conn, es: seq<Event>)
    requires LegalRun(cfg, c, es)
    ensures After(cfg, c, es).wire == c.wire + AllAccepted(cfg, c, es)
    decreases |es|
  {
    if es != [] {
      var c1 := Apply(cfg, c, es[0]);
      WireStep(cfg, c, es[0]);
      WireIsAccepted(cfg, c1, es[1..]);
      Joined(c.wire, Accepted(cfg, c, es[0]), AllAccepted(cfg, c1, es[1..]));
    }
  }

  // For every pattern of short writes, EAGAIN, EINTR and errors: what the writes of the run report
  // as accepted, followed by what still waits, is the concatenation of the responses in processing
  // order; an open connection whose write watcher is off has sent all of it.
  lemma WireStream(cfg: Config, es: seq<Event>)
    requires LegalRun(cfg, NEW, es)
    ensures var c := After(cfg, NEW, es);
            && c.wire == AllAccepted(cfg, NEW, es)
            && AllAccepted(cfg, NEW, es) + c.writeBuf.unread == Responses(cfg, NEW, es)
            && (c.status == Open && !c.writeOn ==> AllAccepted(cfg, NEW, es) == Responses(cfg, NEW, es))
  {
    WireIsAccepted(cfg, NEW, es);
    assert NEW.wire + AllAccepted(cfg, NEW, es) == AllAccepted(cfg, NEW, es);
    RunKeepsInv(cfg, NEW, es);
    EncodedIsResponses(cfg, NEW, es);
    var c := After(cfg, NEW, es);
    assert c.wire + [] == c.wire;
  }

  // Between callbacks pending output of an open connection always has its watcher started, and
  // the counts are right: one reference for the service, one per live message, one per user hold.
  // Nothing is freed while open, and nothing is reclaimed twice.
  lemma AtRest(cfg: Config, es: seq<Event>)
    requires LegalRun(cfg, NEW, es)
    ensures var c := After(cfg, NEW, es);
            && (c.status == Open && c.writeBuf.unread != [] ==> c.writeOn)
            && (c.status == Open ==> c.readOn)
            && c.refs == 1 + c.live + c.userRefs
            && c.disconnects <= 1 && c.reclaims <= c.frees && c.reclaims <= 1
            && (c.status == Open ==> c.frees == 0)
  {
    RunKeepsInv(cfg, NEW, es);
  }

  // Closed is final: both watchers stay off, nothing more reaches the wire, on_disconnect is
  // not called again, and messages come only from senders that were past their test.
  lemma {:induction false} ClosedIsFinal(cfg: Config, c: Conn, es: seq<Event>)
    requires Inv(cfg, c) && c.status == Closed && LegalRun(cfg, c, es)
    ensures var r := After(cfg, c, es);
            && r.status == Closed && !r.readOn && !r.writeOn
            && r.wire == c.wire && r.disconnects == c.disconnects && r.reclaims == c.reclaims
            && r.senders <= c.senders && r.live + r.senders <= c.live + c.senders
    decreases |es|
  {
    if es != [] {
      EventKeepsInv(cfg, c, es[0]);
      ClosedIsFinal(cfg, Apply(cfg, c, es[0]), es[1..]);
    }
  }

  // ------------------------------------------------------------------------------------
  // What each event does to status, watchers and counts
  // ------------------------------------------------------------------------------------

  // The results that close an open connection: end of stream or a failed read, malformed input,
  // a failed write, and a write of 0 bytes by the write callback alone.
  predicate Closes(cfg: Config, c: Conn, e: Event) {
    c.status == Open &&
    match e
    case Readable(read, _, decode, _, _, write, _) =>
      || read.ReadFailed?
      || (read.Got? && cfg.hasDecode && cfg.hasProcess && decode.Malformed?)
      || (Offered(cfg, c, e) != [] && write.WriteFailed?)
    case Writable(write, _) => c.writeBuf.unread != [] && (write.WriteFailed? || write == Wrote(0))
    case Returned(_, write, _) => Offered(cfg, c, e) != [] && write.WriteFailed?
    case _ => false
  }

  lemma ProcessMessageCloses(cfg: Config, c: Conn, reply: Option<seq<Op>>, w: WriteResult, dropped: int)
    requires EncodeOk(c, reply) && WriteOk(w, Pending(cfg, c, reply)) && c.status == Open && c.refs > 1
    ensures var r := ProcessMessage(cfg, c, reply, w, dropped);
            var offers := reply.Some? && cfg.hasEncode && c.writeBuf.unread + Written(reply.value) != [];
            && (r.status == Closed <==> offers && w.WriteFailed?)
            && r.userRefs == c.userRefs + (if r.status == Closed && cfg.hasOnDisconnect then dropped else 0)
            && (r.status == Open ==> r.readOn == c.readOn
                                     && r.writeOn == (c.writeOn || (offers && r.writeBuf.unread != [])))
  {
    if reply.Some? && cfg.hasEncode {
      AppendsOnly(c.writeBuf, reply.value);
    }
  }

  // ... and exactly these do.
  lemma ClosesExactly(cfg: Config, c: Conn, e: Event)
    requires Inv(cfg, c) && Enabled(cfg, c, e)
    ensures Apply(cfg, c, e).status == Closed <==> c.status == Closed || Closes(cfg, c, e)
  {
    if Replies(cfg, c, e) {
      ProcessMessageCloses(cfg, Answering(c, e), e.reply, e.write, e.dropped);
    }
  }

  // While open the read watcher stays on; the write watcher is on after a write callback exactly
  // when output is left, is turned on by a reply that leaves output, and stays as it was otherwise.
  lemma WatchersExactly(cfg: Config, c: Conn, e: Event)
    requires Inv(cfg, c) && Enabled(cfg, c, e) && Apply(cfg, c, e).status == Open
    ensures var r := Apply(cfg, c, e);
            && r.readOn
            && r.writeOn == if e.Writable? then r.writeBuf.unread != []
                            else c.writeOn || (Offered(cfg, c, e) != [] && r.writeBuf.unread != [])
  {
    EventKeepsInv(cfg, c, e);
    if e.Writable? {
      WriteKeepsInv(cfg, c, e.write, e.dropped);
    } else if Replies(cfg, c, e) {
      ProcessMessageCloses(cfg, Answering(c, e), e.reply, e.write, e.dropped);
    }
  }

  // A request for the pool or a send makes a message, a return ends one; senders come by a test
  // that finds the connection open and go by taking their reference.
  lemma MessagesExactly(cfg: Config, c: Conn, e: Event)
    requires Enabled(cfg, c, e)
    ensures var r := Apply(cfg, c, e);
            && r.live == c.live + (if (Decodes(cfg, c, e) && cfg.pooled) || e.TakeSend? then 1 else 0)
                                - (if e.Returned? then 1 else 0)
            && r.senders == c.senders + (if e.TestSend? && c.status == Open then 1 else 0)
                                      - (if e.TakeSend? then 1 else 0)
  {
    if Replies(cfg, c, e) {
      ProcessMessageFrame(cfg, Answering(c, e), e.reply, e.write, e.dropped);
    }
  }

  // The user's references change by what the user does in decode and process when a request is
  // there, in on_disconnect when the event closes, and by itself.
  lemma UserRefsExactly(cfg: Config, c: Conn, e: Event)
    requires Inv(cfg, c) && Enabled(cfg, c, e)
    ensures Apply(cfg, c, e).userRefs
         == c.userRefs + (if Decodes(cfg, c, e) then e.taken else 0)
                       + (if Closes(cfg, c, e) && cfg.hasOnDisconnect then e.dropped else 0)
                       + (if e.UserRef? then e.change else 0)
  {
    if Replies(cfg, c, e) {
      ProcessMessageCloses(cfg, Answering(c, e), e.reply, e.write, e.dropped);
    }
  }

  // ------------------------------------------------------------------------------------
  // The byte stream from the wire
  // ------------------------------------------------------------------------------------

  // What an event reads from the socket.
  function Received(c: Conn, e: Event): seq<byte> {
    if e.Readable? && c.status == Open && e.read.Got? then e.read.bytes else []
  }

  // What an event takes out of the read buffer: what decode consumes, or everything when there
  // is no one to decode it.
  ghost function HandedOn(cfg: Config, c: Conn, e: Event): seq<byte>
    requires Enabled(cfg, c, e)
  {
    if Received(c, e) == [] then []
    else if cfg.hasDecode && cfg.hasProcess then Removed(Filled(c, e.read.bytes), e.consume)
    else Filled(c, e.read.bytes).unread
  }

  ghost function AllReceived(cfg: Config, c: Conn, es: seq<Event>): seq<byte>
    requires LegalRun(cfg, c, es)
    decreases |es|
  {
    if es == [] then [] else Received(c, es[0]) + AllReceived(cfg, Apply(cfg, c, es[0]), es[1..])
  }

  ghost function AllTaken(cfg: Config, c: Conn, es: seq<Event>): seq<byte>
    requires LegalRun(cfg, c, es)
    decreases |es|
  {
    if es == [] then [] else HandedOn(cfg, c, es[0]) + AllTaken(cfg, Apply(cfg, c, es[0]), es[1..])
  }

  lemma {:induction false} ConsumesWritesNothing(ops: seq<Op>)
    requires Consumes(ops)
    ensures Written(ops) == []
    decreases |ops|
  {
    if ops != [] {
      ConsumesWritesNothing(ops[1..]);
    }
  }

  lemma DecodeTakes(cfg: Config, c: Conn, e: Event)
    requires e.Readable? && c.readBuf.Valid() && Consumes(e.consume) && Legal(c.readBuf, e.consume)
    requires EncodeOk(c, e.reply) && WriteOk(e.write, Pending(cfg, c, e.reply))
    ensures c.readBuf.unread == (if cfg.hasDecode && cfg.hasProcess then Removed(c.readBuf, e.consume)
                                 else c.readBuf.unread)
                                + ProcessReadBuffer(cfg, c, e).readBuf.unread
  {
    BytesConserved(c.readBuf, e.consume);
    ConsumesWritesNothing(e.consume);
    assert c.readBuf.unread + [] == c.readBuf.unread;
    var c1 := Referenced(UserRefs(c.(readBuf := Exec(c.readBuf, e.consume)), e.taken));
    ProcessMessageFrame(cfg, c1, e.reply, e.write, e.dropped);
  }

  lemma InputStep(cfg: Config, c: Conn, e: Event)
    requires Enabled(cfg, c, e)
    ensures c.readBuf.unread + Received(c, e) == HandedOn(cfg, c, e) + Apply(cfg, c, e).readBuf.unread
  {
    if Received(c, e) != [] {
      var c1 := c.(readBuf := Filled(c, e.read.bytes));
      assert c1.readBuf.unread == c.readBuf.unread + e.read.bytes;
      DecodeTakes(cfg, c1, e);
    } else if e.Readable? {
      assert Apply(cfg, c, e).readBuf.unread == c.readBuf.unread;
    } else {
      OnlyReadsGrow(cfg, c, e);
    }
  }

  // Every byte read from the socket is handed on exactly once and in order: what was unread at
  // first followed by all that was read is all that was taken followed by what is unread.
  lemma {:induction false} InputStream(cfg: Config, c: Conn, es: seq<Event>)
    requires LegalRun(cfg, c, es)
    ensures c.readBuf.unread + AllReceived(cfg, c, es)
         == AllTaken(cfg, c, es) + After(cfg, c, es).readBuf.unread
    decreases |es|
  {
    if es != [] {
      var c1 := Apply(cfg, c, es[0]);
      InputStep(cfg, c, es[0]);
      InputStream(cfg, c1, es[1..]);
      Chained(c.readBuf.unread, Received(c, es[0]), HandedOn(cfg, c, es[0]), c1.readBuf.unread,
              AllReceived(cfg, c1, es[1..]), AllTaken(cfg, c1, es[1..]), After(cfg, c1, es[1..]).readBuf.unread);
    }
  }

  lemma Chained(first: seq<byte>, received: seq<byte>, taken: seq<byte>, middle: seq<byte>,
                moreReceived: seq<byte>, moreTaken: seq<byte>, last: seq<byte>)
    requires first + received == taken + middle && middle + moreReceived == moreTaken + last
    ensures first + (received + moreReceived) == (taken + moreTaken) + last
  {
    calc {
      first + (received + moreReceived);
      (first + received) + moreReceived;
      taken + (middle + moreReceived);
      (taken + moreTaken) + last;
    }
  }

  // Requests decoded in a run, and reads that got bytes.
  ghost function Requests(cfg: Config, c: Conn, es: seq<Event>): nat
    requires LegalRun(cfg, c, es)
    decreases |es|
  {
    if es == [] then 0
    else (if Decodes(cfg, c, es[0]) then 1 else 0) + Requests(cfg, Apply(cfg, c, es[0]), es[1..])
  }

  ghost function Reads(cfg: Config, c: Conn, es: seq<Event>): nat
    requires LegalRun(cfg, c, es)
    decreases |es|
  {
    if es == [] then 0
    else (if Received(c, es[0]) != [] then 1 else 0) + Reads(cfg, Apply(cfg, c, es[0]), es[1..])
  }

  lemma ReadsBring(cfg: Config, c: Conn, e: Event)
    requires Enabled(cfg, c, e)
    ensures Decodes(cfg, c, e) ==> Received(c, e) != []
    ensures Received(c, e) == [] ==> Apply(cfg, c, e).readBuf.unread == c.readBuf.unread
  {
    InputStep(cfg, c, e);
  }

  // decode is called once per read, however many complete requests the read brought: there are
  // never more requests than reads, and bytes left over stay where they are until a read brings
  // more.
  lemma {:induction false} LeftoverWaits(cfg: Config, c: Conn, es: seq<Event>)
    requires LegalRun(cfg, c, es)
    ensures Requests(cfg, c, es) <= Reads(cfg, c, es)
    ensures Reads(cfg, c, es) == 0 ==> After(cfg, c, es).readBuf.unread == c.readBuf.unread
    decreases |es|
  {
    if es != [] {
      ReadsBring(cfg, c, es[0]);
      LeftoverWaits(cfg, Apply(cfg, c, es[0]), es[1..]);
    }
  }

  // Two one-byte requests in one read: one is answered, the other waits for bytes that may never
  // come.
  lemma SecondRequestWaits(cfg: Config, a: byte, b: byte, es: seq<Event>)
    requires cfg.hasDecode && cfg.hasProcess
    ensures var e := Readable(Got([a, b]), [Read(1)], Decoded, 0, None, WouldBlock, 0);
            && Enabled(cfg, NEW, e) && Decodes(cfg, NEW, e)
            && var c := Apply(cfg, NEW, e);
               LegalRun(cfg, c, es) && Reads(cfg, c, es) == 0 ==>
                 Requests(cfg, c, es) == 0 && After(cfg, c, es).readBuf.unread == [b]
  {
    var consume := [Read(1)];
    var e := Readable(Got([a, b]), consume, Decoded, 0, None, WouldBlock, 0);
    var v := Filled(NEW, [a, b]);
    assert v.unread == [a, b];
    assert consume[1..] == [];
    assert Legal(v, consume) && Exec(v, consume) == Step(v, Read(1)) by {
      assert Legal(Step(v, consume[0]), []) && Exec(Step(v, consume[0]), []) == Step(v, Read(1));
    }
    var c := Apply(cfg, NEW, e);
    assert c.readBuf.unread == [b];
    if LegalRun(cfg, c, es) {
      LeftoverWaits(cfg, c, es);
    }
  }

  // ------------------------------------------------------------------------------------
  // Reclamation without a worker pool
  // ------------------------------------------------------------------------------------

  predicate Synchronous(cfg: Config, es: seq<Event>) {
    !cfg.pooled && forall i :: 0 <= i < |es| ==> !es[i].Returned? && !es[i].TestSend?
  }

  predicate SyncInv(c: Conn) {
    && c.live == 0 && c.senders == 0 && c.frees == c.reclaims <= 1
    && (c.frees == 1 ==> c.status == Closed && c.userRefs == 0)
  }

  lemma SyncReadKeeps(cfg: Config, c: Conn, e: Event)
    requires Inv(cfg, c) && SyncInv(c) && e.Readable? && Enabled(cfg, c, e) && !cfg.pooled
    ensures SyncInv(OnRead(cfg, c, e))
  {
    ReadKeepsInv(cfg, c, e);
    if Decodes(cfg, c, e) {
      ReplyKeepsLive(cfg, c, e);
    }
  }

  lemma SyncEventKeeps(cfg: Config, c: Conn, e: Event)
    requires Inv(cfg, c) && SyncInv(c) && Enabled(cfg, c, e)
    requires !cfg.pooled && !e.Returned? && !e.TestSend?
    ensures SyncInv(Apply(cfg, c, e))
  {
    if e.Readable? {
      SyncReadKeeps(cfg, c, e);
    }
  }

  // No message is alive between callbacks, and a connection is freed only by its own close:
  // at most once, with its table entry and descriptor, and with no reference left.
  lemma {:induction false} SyncReclamation(cfg: Config, c: Conn, es: seq<Event>)
    requires Inv(cfg, c) && SyncInv(c) && LegalRun(cfg, c, es) && Synchronous(cfg, es)
    ensures SyncInv(After(cfg, c, es))
    decreases |es|
  {
    if es != [] {
      EventKeepsInv(cfg, c, es[0]);
      SyncEventKeeps(cfg, c, es[0]);
      assert forall i :: 0 <= i < |es[1..]| ==> es[1..][i] == es[i + 1];
      SyncReclamation(cfg, Apply(cfg, c, es[0]), es[1..]);
    }
  }

  // The user's references once an event that closes has run its callbacks: decode and process
  // may take some if a request was decoded, on_disconnect may drop some.
  function HeldAtClose(cfg: Config, c: Conn, e: Event): int
    requires e.Readable? || e.Writable?
  {
    c.userRefs
    + (if Decodes(cfg, c, e) then e.taken else 0)
    + (if cfg.hasOnDisconnect then e.dropped else 0)
  }

  // A closing event finds nobody else referring to the connection: no message is out, it leaves
  // the user no reference, and it is not the writing of a reply, inside which the message's own
  // reference defers the close.
  predicate ClosesLast(cfg: Config, c: Conn, e: Event) {
    (e.Readable? || e.Writable?) && c.live == 0 && HeldAtClose(cfg, c, e) == 0 && !Replies(cfg, c, e)
  }

  // ... and exactly then it reclaims it.
  lemma CloseReclaims(cfg: Config, c: Conn, e: Event)
    requires Inv(cfg, c) && Enabled(cfg, c, e) && c.status == Open && Apply(cfg, c, e).status == Closed
    ensures Apply(cfg, c, e).reclaims == (if ClosesLast(cfg, c, e) then 1 else 0)
    ensures Apply(cfg, c, e).frees == Apply(cfg, c, e).reclaims
  {
    EventKeepsInv(cfg, c, e);
    if e.Returned? {
      ProcessMessageKeepsInv(cfg, c, e.reply, e.write, e.dropped);
    } else if Replies(cfg, c, e) {
      ReplyKeepsLive(cfg, c, e);
    }
  }

  lemma ReplyKeepsLive(cfg: Config, c: Conn, e: Event)
    requires Inv(cfg, c) && Enabled(cfg, c, e) && Decodes(cfg, c, e) && !cfg.pooled
    ensures var r := Apply(cfg, c, e);
            r.live == c.live && r.senders == c.senders && r.frees == 0 && r.reclaims == 0
  {
    var c1 := c.(readBuf := Exec(Filled(c, e.read.bytes), e.consume));
    RefinesByteQueue(Filled(c, e.read.bytes), e.consume);
    RequestKeepsInv(cfg, c1, e);
    ProcessMessageFrame(cfg, Referenced(UserRefs(c1, e.taken)), e.reply, e.write, e.dropped);
  }

  // Without a pool: reclaimed exactly when the user is left no reference and no reply is written.
  lemma SyncCloseReclaims(cfg: Config, c: Conn, e: Event)
    requires Inv(cfg, c) && SyncInv(c) && Enabled(cfg, c, e) && c.status == Open
    requires !cfg.pooled && (e.Readable? || e.Writable?)
    requires Apply(cfg, c, e).status == Closed
    ensures Apply(cfg, c, e).reclaims == 1 <==> HeldAtClose(cfg, c, e) == 0 && !Replies(cfg, c, e)
  {
    CloseReclaims(cfg, c, e);
  }

  // A failed write of a reply: closed, nobody refers to the connection, and not reclaimed.
  lemma SyncLeakRun(b: byte)
    ensures var cfg := Config(true, true, true, true, false);
            var e := Readable(Got([b]), [], Decoded, 0, Some([Write([b])]), WriteFailed, 0);
            && LegalRun(cfg, NEW, [e])
            && var c := After(cfg, NEW, [e]);
               c.status == Closed && c.live == 0 && c.userRefs == 0 && c.reclaims == 0 && c.frees == 0
  {
    var cfg := Config(true, true, true, true, false);
    var ops := [Write([b])];
    var e := Readable(Got([b]), [], Decoded, 0, Some(ops), WriteFailed, 0);
    assert ops[1..] == [] && [e][1..] == [];
    assert Legal(NEW.writeBuf, ops) by {
      assert Legal(Step(NEW.writeBuf, ops[0]), []);
    }
    var c := Apply(cfg, NEW, e);
    assert LegalRun(cfg, c, []) && After(cfg, c, []) == c;
  }

  // A deferred close is never taken up again: no event that can still happen reclaims the
  // connection, so its descriptor and table entry stay taken.  With no message out it is not even
  // freed, but for senders that were past their test.
  lemma DeferredCloseLeaks(cfg: Config, c: Conn, es: seq<Event>)
    requires Inv(cfg, c) && c.status == Closed && c.frees == 0 && c.live == 0 && LegalRun(cfg, c, es)
    ensures After(cfg, c, es).reclaims == 0 && After(cfg, c, es).frees <= c.senders
  {
    PooledOutcome(cfg, c, es);
  }

  // The whole life of a connection without a pool: whatever happened before the event that
  // closes it and whatever happens after, it is reclaimed if and only if that event leaves the
  // user no reference and is not the writing of a reply.
  lemma SyncLifetime(cfg: Config, before: seq<Event>, e: Event, after: seq<Event>)
    requires LegalRun(cfg, NEW, before) && Synchronous(cfg, before + [e] + after)
    requires var c := After(cfg, NEW, before);
             c.status == Open && Enabled(cfg, c, e) && Apply(cfg, c, e).status == Closed
             && LegalRun(cfg, Apply(cfg, c, e), after)
    ensures e.Readable? || e.Writable?
    ensures var c := After(cfg, NEW, before);
            After(cfg, Apply(cfg, c, e), after).reclaims == 1
            <==> HeldAtClose(cfg, c, e) == 0 && !Replies(cfg, c, e)
  {
    var all := before + [e] + after;
    assert forall i :: 0 <= i < |before| ==> before[i] == all[i];
    assert all[|before|] == e;
    var c := After(cfg, NEW, before);
    RunKeepsInv(cfg, NEW, before);
    SyncReclamation(cfg, NEW, before);
    EventKeepsInv(cfg, c, e);
    SyncCloseReclaims(cfg, c, e);
    ClosedIsFinal(cfg, Apply(cfg, c, e), after);
  }

  // ------------------------------------------------------------------------------------
  // Reclamation with a worker pool
  // ------------------------------------------------------------------------------------

  // A message or sender refers to a connection that has been freed.
  predicate Dangling(c: Conn) { c.frees > 0 && c.live + c.senders > 0 }

  // A message that comes back to a closed connection frees it, without giving back its table
  // entry or descriptor; another message or sender is left dangling exactly when there were two,
  // a user hold exactly when there was one.
  lemma PooledReturn(cfg: Config, c: Conn, e: Event)
    requires Inv(cfg, c) && c.status == Closed && e.Returned? && Enabled(cfg, c, e)
    ensures var r := Apply(cfg, c, e);
            && r.frees == c.frees + 1 && r.reclaims == c.reclaims
            && (Dangling(r) <==> c.live + c.senders >= 2)
            && (r.refs > 1 <==> c.refs > 2)
  {
    EventKeepsInv(cfg, c, e);
  }

  // After a close, in every legal continuation: one free for each message that has come back,
  // whether it was out at the close or made by a sender past its test, and no reclamation.
  lemma {:induction false} PooledOutcome(cfg: Config, c: Conn, es: seq<Event>)
    requires Inv(cfg, c) && c.status == Closed && LegalRun(cfg, c, es)
    ensures var r := After(cfg, c, es);
            r.reclaims == c.reclaims && r.frees - c.frees == (c.live + c.senders) - (r.live + r.senders) >= 0
    decreases |es|
  {
    if es != [] {
      EventKeepsInv(cfg, c, es[0]);
      PooledOutcome(cfg, Apply(cfg, c, es[0]), es[1..]);
    }
  }

  // Some legal continuation of `c` ends in `r`.
  ghost predicate Reaches(cfg: Config, c: Conn, r: Conn) {
    exists es :: LegalRun(cfg, c, es) && After(cfg, c, es) == r
  }

  // All messages can come back one after the other, also those of senders.
  lemma {:induction false} AllCanReturn(cfg: Config, c: Conn, k: nat) returns (es: seq<Event>)
    requires Inv(cfg, c) && c.status == Closed && k <= c.live + c.senders
    ensures LegalRun(cfg, c, es) && After(cfg, c, es).frees == c.frees + k
    decreases k, c.senders
  {
    es := [];
    if k > 0 {
      var next := if c.live > 0 then Returned(None, WouldBlock, 0) else TakeSend;
      EventKeepsInv(cfg, c, next);
      var rest := AllCanReturn(cfg, Apply(cfg, c, next), if c.live > 0 then k - 1 else k);
      es := [next] + rest;
      assert es[1..] == rest;
    }
  }

  // After a close, the connection can come to be freed `k` more times exactly when messages out
  // and senders past their test are at least `k`.  Where the close did not free it, one of them is
  // left referring to a freed connection exactly when they are at least two.
  lemma PooledExactly(cfg: Config, c: Conn, k: nat)
    requires Inv(cfg, c) && c.status == Closed
    ensures (exists r :: Reaches(cfg, c, r) && r.frees == c.frees + k) <==> c.live + c.senders >= k
    ensures c.frees == 0 ==> ((exists r :: Reaches(cfg, c, r) && Dangling(r)) <==> c.live + c.senders >= 2)
  {
    forall r | Reaches(cfg, c, r)
      ensures r.frees - c.frees == (c.live + c.senders) - (r.live + r.senders) >= 0
    {
      var es :| LegalRun(cfg, c, es) && After(cfg, c, es) == r;
      PooledOutcome(cfg, c, es);
    }
    if c.live + c.senders >= k {
      var es := AllCanReturn(cfg, c, k);
      assert Reaches(cfg, c, After(cfg, c, es));
    }
    if c.live + c.senders >= 2 {
      var es := AllCanReturn(cfg, c, 1);
      assert Reaches(cfg, c, After(cfg, c, es));
    }
  }

  // Messages still out and senders past their test when event `e` has closed the connection.
  function LeftBehind(c: Conn, e: Event): int { c.live + c.senders - if e.Returned? then 1 else 0 }

  lemma CloseLeaves(cfg: Config, c: Conn, e: Event)
    requires Inv(cfg, c) && c.status == Open && Enabled(cfg, c, e) && Apply(cfg, c, e).status == Closed
    ensures Apply(cfg, c, e).live + Apply(cfg, c, e).senders == LeftBehind(c, e)
  {
    if e.Returned? {
      ProcessMessageFrame(cfg, c, e.reply, e.write, e.dropped);
    } else if Replies(cfg, c, e) {
      ReplyKeepsLive(cfg, c, e);
    }
  }

  // The whole life of a connection: it is freed at most once whatever happens after the event
  // that closes it, if and only if that event leaves behind at most one of messages and senders
  // past their test, and none where it reclaims the connection itself.
  lemma FreedAtMostOnce(cfg: Config, before: seq<Event>, e: Event)
    requires LegalRun(cfg, NEW, before)
    requires var c := After(cfg, NEW, before);
             c.status == Open && Enabled(cfg, c, e) && Apply(cfg, c, e).status == Closed
    ensures var c := After(cfg, NEW, before);
            (forall r :: Reaches(cfg, Apply(cfg, c, e), r) ==> r.frees <= 1)
            <==> LeftBehind(c, e) <= if ClosesLast(cfg, c, e) then 0 else 1
  {
    var c := After(cfg, NEW, before);
    var c1 := Apply(cfg, c, e);
    RunKeepsInv(cfg, NEW, before);
    EventKeepsInv(cfg, c, e);
    CloseLeaves(cfg, c, e);
    CloseReclaims(cfg, c, e);
    forall r | Reaches(cfg, c1, r)
      ensures r.frees <= c1.frees + LeftBehind(c, e)
    {
      var es :| LegalRun(cfg, c1, es) && After(cfg, c1, es) == r;
      PooledOutcome(cfg, c1, es);
    }
    if c1.frees + LeftBehind(c, e) >= 2 {
      PooledExactly(cfg, c1, 2 - c1.frees);
    }
  }

  // A sender past its test makes two frees of a close that left one message: a request is out, a
  // sender is past its test, the client hangs up.
  lemma SenderFreesAgain(b: byte) returns (c: Conn, es: seq<Event>)
    ensures var cfg := Config(true, true, true, false, true);
            && LegalRun(cfg, NEW, es) && After(cfg, NEW, es) == c && Inv(cfg, c)
            && c.status == Closed && c.live == 1 && c.frees == 0
            && (exists r :: Reaches(cfg, c, r) && r.frees == 2)
  {
    var cfg := Config(true, true, true, false, true);
    var request := Readable(Got([b]), [], Decoded, 0, None, WouldBlock, 0);
    var hangup := Readable(ReadFailed, [], NeedMore, 0, None, WouldBlock, 0);
    es := [request, TestSend, hangup];
    c := ThreeEvents(cfg, request, TestSend, hangup);
    PooledExactly(cfg, c, 2);
  }

  lemma ThreeEvents(cfg: Config, x: Event, y: Event, z: Event) returns (c: Conn)
    requires Enabled(cfg, NEW, x) && Enabled(cfg, Apply(cfg, NEW, x), y)
    requires Enabled(cfg, Apply(cfg, Apply(cfg, NEW, x), y), z)
    ensures LegalRun(cfg, NEW, [x, y, z]) && After(cfg, NEW, [x, y, z]) == c && Inv(cfg, c)
    ensures c == Apply(cfg, Apply(cfg, Apply(cfg, NEW, x), y), z)
  {
    var es := [x, y, z];
    var c1 := Apply(cfg, NEW, x);
    var c2 := Apply(cfg, c1, y);
    c := Apply(cfg, c2, z);
    assert es[1..] == [y, z] && es[1..][1..] == [z] && es[1..][1..][1..] == [];
    assert LegalRun(cfg, c2, [z]) && After(cfg, c2, [z]) == c by {
      assert LegalRun(cfg, c, []) && After(cfg, c, []) == c;
    }
    assert LegalRun(cfg, c1, es[1..]) && After(cfg, c1, es[1..]) == c;
    RunKeepsInv(cfg, NEW, es);
  }

  // Two requests in flight when the peer hangs up: the first one back leaves the other dangling,
  // the second frees the connection again.
  lemma PooledDanglingRun(b: byte) returns (c: Conn, es: seq<Event>)
    ensures var cfg := Config(true, true, true, false, true);
            && LegalRun(cfg, NEW, es) && After(cfg, NEW, es) == c && Inv(cfg, c)
            && (exists r :: Reaches(cfg, c, r) && Dangling(r))
            && (exists r :: Reaches(cfg, c, r) && r.frees == 2)
  {
    var cfg := Config(true, true, true, false, true);
    var request := Readable(Got([b]), [], Decoded, 0, None, WouldBlock, 0);
    var hangup := Readable(ReadFailed, [], NeedMore, 0, None, WouldBlock, 0);
    es := [request, request, hangup];
    c := ThreeEvents(cfg, request, request, hangup);
    PooledExactly(cfg, c, 2);
  }

  // ------------------------------------------------------------------------------------
  // The read buffer's size
  // ------------------------------------------------------------------------------------

  // At most `backlog` undecoded bytes are there whenever a read begins.
  predicate Backlog(cfg: Config, c: Conn, es: seq<Event>, backlog: nat)
    requires LegalRun(cfg, c, es)
    decreases |es|
  {
    es == [] || ((es[0].Readable? ==> |c.readBuf.unread| <= backlog)
                 && Backlog(cfg, Apply(cfg, c, es[0]), es[1..], backlog))
  }

  lemma {:induction false} ConsumeKeepsSize(v: View, ops: seq<Op>)
    requires v.Valid() && v.Compact() && Legal(v, ops) && Consumes(ops)
    ensures Exec(v, ops).Valid() && Exec(v, ops).Compact() && Exec(v, ops).size == v.size
    decreases |ops|
  {
    if ops != [] {
      StepKeepsShape(v, ops[0]);
      ConsumeKeepsSize(Step(v, ops[0]), ops[1..]);
    }
  }

  lemma ProcessReadBufferGrowth(cfg: Config, c: Conn, e: Event)
    requires e.Readable? && c.readBuf.Valid() && c.readBuf.Compact()
    requires Consumes(e.consume) && Legal(c.readBuf, e.consume)
    requires EncodeOk(c, e.reply) && WriteOk(e.write, Pending(cfg, c, e.reply))
    ensures var v := ProcessReadBuffer(cfg, c, e).readBuf;
            v.Valid() && v.Compact() && v.size == c.readBuf.size
  {
    ConsumeKeepsSize(c.readBuf, e.consume);
    var c1 := Referenced(UserRefs(c.(readBuf := Exec(c.readBuf, e.consume)), e.taken));
    ProcessMessageFrame(cfg, c1, e.reply, e.write, e.dropped);
  }

  lemma FilledShape(c: Conn, bytes: seq<byte>, backlog: nat)
    requires c.readBuf.Valid() && c.readBuf.Compact() && |bytes| <= READ_SIZE && |c.readBuf.unread| <= backlog
    ensures var v := Step(c.readBuf, Reserve(READ_SIZE));
            && v.Valid() && v.Compact() && v.size <= Max(c.readBuf.size, Ceiling(backlog, READ_SIZE))
            && Filled(c, bytes).Valid() && Filled(c, bytes).Compact() && Filled(c, bytes).size == v.size
  {
    GrowthStaysUnderCeiling(c.readBuf, Reserve(READ_SIZE), backlog, READ_SIZE);
    StepKeepsShape(c.readBuf, Reserve(READ_SIZE));
  }

  lemma OnReadGrowth(cfg: Config, c: Conn, e: Event, backlog: nat)
    requires e.Readable? && Enabled(cfg, c, e) && c.readBuf.Compact() && |c.readBuf.unread| <= backlog
    ensures var v := OnRead(cfg, c, e).readBuf;
            v.Valid() && v.Compact() && v.size <= Max(c.readBuf.size, Ceiling(backlog, READ_SIZE))
  {
    if c.status == Open {
      match e.read
      case Got(bytes) =>
        FilledShape(c, bytes, backlog);
        ProcessReadBufferGrowth(cfg, c.(readBuf := Filled(c, bytes)), e);
      case ReadFailed => FilledShape(c, [], backlog);
      case NothingYet => FilledShape(c, [], backlog);
    }
  }

  lemma OnlyReadsGrow(cfg: Config, c: Conn, e: Event)
    requires !e.Readable? && Enabled(cfg, c, e)
    ensures Apply(cfg, c, e).readBuf == c.readBuf
  {
    if e.Returned? {
      ProcessMessageFrame(cfg, c, e.reply, e.write, e.dropped);
    }
  }

  lemma {:induction false} ReadGrowthRun(cfg: Config, c: Conn, es: seq<Event>, backlog: nat)
    requires LegalRun(cfg, c, es) && c.readBuf.Compact() && Backlog(cfg, c, es, backlog)
    ensures After(cfg, c, es).readBuf.size <= Max(c.readBuf.size, Ceiling(backlog, READ_SIZE))
    decreases |es|
  {
    if es != [] {
      if es[0].Readable? {
        OnReadGrowth(cfg, c, es[0], backlog);
      } else {
        OnlyReadsGrow(cfg, c, es[0]);
      }
      ReadGrowthRun(cfg, Apply(cfg, c, es[0]), es[1..], backlog);
    }
  }

  // A connection whose decoder never leaves more than `backlog` bytes behind keeps its read
  // buffer within 2 * backlog + 12286 bytes over its whole life.
  lemma ReadBufferBound(cfg: Config, es: seq<Event>, backlog: nat)
    requires LegalRun(cfg, NEW, es) && Backlog(cfg, NEW, es, backlog)
    ensures After(cfg, NEW, es).readBuf.size <= 2 * backlog + 12286
  {
    ReadGrowthRun(cfg, NEW, es, backlog);
  }
}
