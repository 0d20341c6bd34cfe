/** The growable, compacting byte buffer (src/xv_buffer.c).

    A `View` is what a client can observe of a buffer: its capacity, how far the read
    index has moved, and the unread bytes.  Each operation is a function on views;
    class `Buffer` is the in-place implementation over an array and is proved against
    those functions.  Two independent references stand beside them: a plain byte queue,
    and an exact bound on the capacity that any run can reach.
 */
module ByteBuffer {

  newtype byte = x: int | 0 <= x < 256

  // XV_BUFFER_MOVE_CHECK_SIZE
  const MOVE_CHECK_SIZE: nat := 2048

  function Max(a: int, b: int): int { if a >= b then a else b }

  // ------------------------------------------------------------------------------------
  // Operations on views
  // ------------------------------------------------------------------------------------

  datatype View = View(size: nat, readIdx: nat, unread: seq<byte>) {
    function WriteIdx(): nat { readIdx + |unread| }

    // 0 <= read_idx <= write_idx <= size
    predicate Valid() { WriteIdx() <= size }

    // What every compaction check leaves behind: the dead prefix is at most half of the
    // buffer, or small.
    predicate Compact() { readIdx <= Max(size / 2, MOVE_CHECK_SIZE) }
  }

  function Compacted(v: View): View {
    var v1 := if |v.unread| == 0 then v.(readIdx := 0) else v;
    if v1.readIdx > v1.size / 2 && v1.readIdx > MOVE_CHECK_SIZE then v1.(readIdx := 0) else v1
  }

  function Reserved(v: View, n: int): View
    requires v.Valid()
  {
    if v.size - v.WriteIdx() < n then v.(size := v.size + n) else v
  }

  function Min(a: int, b: int): int { if a <= b then a else b }

  datatype Op =
    | Reserve(room: int)       // xv_buffer_ensure_writeable_size
    | Write(src: seq<byte>)    // xv_buffer_write_data
    | Commit(src: seq<byte>)   // bytes stored at write_begin, then xv_buffer_incr_write_index
    | Read(len: nat)           // xv_buffer_read_data
    | Skip(count: nat)           // xv_buffer_incr_read_index
    | Clear                    // xv_buffer_clear

  // The bounds the callers of the two index increments must respect.
  predicate Allowed(v: View, op: Op) {
    match op
    case Commit(src) => v.WriteIdx() + |src| <= v.size
    case Skip(n) => n <= |v.unread|
    case _ => true
  }

  function Drop(v: View, n: nat): View
    requires n <= |v.unread|
  {
    Compacted(View(v.size, v.readIdx + n, v.unread[n..]))
  }

  function Step(v: View, op: Op): View
    requires v.Valid() && Allowed(v, op)
  {
    match op
    case Reserve(n) => Reserved(v, n)
    case Write(src) => var v1 := Reserved(v, |src|); v1.(unread := v1.unread + src)
    case Commit(src) => v.(unread := v.unread + src)
    case Read(len) => Drop(v, Min(len, |v.unread|))
    case Skip(n) => Drop(v, n)
    case Clear => View(v.size, 0, [])
  }

  lemma StepKeepsShape(v: View, op: Op)
    requires v.Valid() && Allowed(v, op)
    ensures Step(v, op).Valid()
    ensures v.Compact() ==> Step(v, op).Compact()
    ensures v.size <= Step(v, op).size
  {}

  predicate Legal(v: View, ops: seq<Op>)
    requires v.Valid()
    decreases |ops|
  {
    ops == [] || (Allowed(v, ops[0]) && Step(v, ops[0]).Valid() && Legal(Step(v, ops[0]), ops[1..]))
  }

  function Exec(v: View, ops: seq<Op>): View
    requires v.Valid() && Legal(v, ops)
    decreases |ops|
  {
    if ops == [] then v else Exec(Step(v, ops[0]), ops[1..])
  }

  function Fresh(size: nat): View { View(size, 0, []) }

  // ------------------------------------------------------------------------------------
  // Refinement of a plain byte queue
  // ------------------------------------------------------------------------------------

  // What an operation appends to the stream.
  function Added(op: Op): seq<byte> {
    match op
    case Write(src) => src
    case Commit(src) => src
    case _ => []
  }

  // How many bytes an operation takes from the front of a queue of length `len`: a read takes as
  // many as it asks for, or all there are.
  function Taken(len: nat, op: Op): (n: nat)
    ensures n <= len
    ensures op.Read? ==> n <= op.len && (n == op.len || n == len)
    ensures op.Skip? ==> n <= op.count && (n == op.count || n == len)
    ensures op.Clear? ==> n == len
    ensures op.Reserve? || op.Write? || op.Commit? ==> n == 0
  {
    match op
    case Read(n) => if n < len then n else len
    case Skip(n) => if n < len then n else len
    case Clear => len
    case _ => 0
  }

  // The reference: a byte queue without capacity, indices, growth or compaction.
  ghost function QueueExec(q: seq<byte>, ops: seq<Op>): seq<byte>
    decreases |ops|
  {
    if ops == [] then q else QueueExec(q[Taken(|q|, ops[0])..] + Added(ops[0]), ops[1..])
  }

  // The bytes that leave the queue, in order.
  ghost function QueueTaken(q: seq<byte>, ops: seq<Op>): seq<byte>
    decreases |ops|
  {
    if ops == [] then []
    else
      var n := Taken(|q|, ops[0]);
      q[..n] + QueueTaken(q[n..] + Added(ops[0]), ops[1..])
  }

  function Written(ops: seq<Op>): seq<byte> {
    if ops == [] then [] else Added(ops[0]) + Written(ops[1..])
  }

  // The bytes that leave the buffer, in order, as its own operations report them.
  ghost function Removed(v: View, ops: seq<Op>): seq<byte>
    requires v.Valid() && Legal(v, ops)
    decreases |ops|
  {
    if ops == [] then []
    else v.unread[..Taken(|v.unread|, ops[0])] + Removed(Step(v, ops[0]), ops[1..])
  }

  lemma StepUnread(v: View, op: Op)
    requires v.Valid() && Allowed(v, op)
    ensures Step(v, op).unread == v.unread[Taken(|v.unread|, op)..] + Added(op)
  {}

  // Growth, reset and compaction are invisible: every run of the buffer is a run of the
  // plain queue, with the same bytes left and the same bytes handed out.
  lemma {:induction false} RefinesByteQueue(v: View, ops: seq<Op>)
    requires v.Valid() && Legal(v, ops)
    ensures Exec(v, ops).Valid()
    ensures Exec(v, ops).unread == QueueExec(v.unread, ops)
    ensures Removed(v, ops) == QueueTaken(v.unread, ops)
    decreases |ops|
  {
    if ops != [] {
      var v1 := Step(v, ops[0]);
      StepUnread(v, ops[0]);
      RefinesByteQueue(v1, ops[1..]);
    }
  }

  // Conservation: what was there plus what was written is what left plus what is unread.
  lemma {:induction false} BytesConserved(v: View, ops: seq<Op>)
    requires v.Valid() && Legal(v, ops)
    ensures v.unread + Written(ops) == Removed(v, ops) + Exec(v, ops).unread
    decreases |ops|
  {
    if ops != [] {
      var n := Taken(|v.unread|, ops[0]);
      var v1 := Step(v, ops[0]);
      BytesConserved(v1, ops[1..]);
      StepUnread(v, ops[0]);
      assert v.unread == v.unread[..n] + v.unread[n..];
      Regroup(v.unread[..n], v.unread[n..], Added(ops[0]), Written(ops[1..]),
              Removed(v1, ops[1..]), Exec(v1, ops[1..]).unread);
    }
  }

  lemma Regroup(front: seq<byte>, back: seq<byte>, added: seq<byte>, more: seq<byte>,
                out: seq<byte>, left: seq<byte>)
    requires (back + added) + more == out + left
    ensures (front + back) + (added + more) == (front + out) + left
  {
    assert (front + back) + (added + more) == front + ((back + added) + more);
    assert front + (out + left) == (front + out) + left;
  }

  lemma {:induction false} ExecAppend(v: View, ops: seq<Op>, op: Op)
    requires v.Valid() && Legal(v, ops) && Exec(v, ops).Valid() && Allowed(Exec(v, ops), op)
    ensures Legal(v, ops + [op]) && Exec(v, ops + [op]) == Step(Exec(v, ops), op)
    decreases |ops|
  {
    if ops == [] {
      assert ops + [op] == [op];
      StepKeepsShape(v, op);
      assert Legal(Step(v, op), []);
    } else {
      assert (ops + [op])[1..] == ops[1..] + [op];
      ExecAppend(Step(v, ops[0]), ops[1..], op);
    }
  }

  // ------------------------------------------------------------------------------------
  // Capacity over every run
  // ------------------------------------------------------------------------------------

  // The room an operation asks for before it stores anything.
  function Request(op: Op): int {
    match op
    case Reserve(n) => n
    case Write(src) => |src|
    case _ => 0
  }

  predicate Checks(op: Op) { op.Reserve? || op.Write? }

  // At each growth check at most `pending` bytes are unread and at most `request` are asked for.
  ghost predicate Within(v: View, ops: seq<Op>, pending: nat, request: nat)
    requires v.Valid() && Legal(v, ops)
    decreases |ops|
  {
    ops == []
    || ((Checks(ops[0]) ==> |v.unread| <= pending && Request(ops[0]) <= request)
        && Within(Step(v, ops[0]), ops[1..], pending, request))
  }

  // The largest capacity growth can produce.
  function Ceiling(pending: nat, request: nat): int {
    Max(2047 + pending + 2 * request, 2 * pending + 3 * request - 2)
  }

  lemma GrowthStaysUnderCeiling(v: View, op: Op, pending: nat, request: nat)
    requires v.Valid() && v.Compact() && Allowed(v, op)
    requires Checks(op) ==> |v.unread| <= pending && Request(op) <= request
    ensures Step(v, op).size == v.size || Step(v, op).size <= Ceiling(pending, request)
  {}

  lemma {:induction false} CapacityBound(v: View, ops: seq<Op>, pending: nat, request: nat)
    requires v.Valid() && v.Compact() && Legal(v, ops) && Within(v, ops, pending, request)
    ensures Exec(v, ops).Compact()
    ensures Exec(v, ops).size <= Max(v.size, Ceiling(pending, request))
    decreases |ops|
  {
    if ops != [] {
      StepKeepsShape(v, ops[0]);
      GrowthStaysUnderCeiling(v, ops[0], pending, request);
      CapacityBound(Step(v, ops[0]), ops[1..], pending, request);
    }
  }

  // No size computation exceeds an `int` limit that the bound respects.
  lemma GrowthFits(v: View, ops: seq<Op>, op: Op, pending: nat, request: nat, limit: int)
    requires v.Valid() && v.Compact() && Legal(v, ops) && Within(v, ops, pending, request)
    requires Exec(v, ops).Valid() && Checks(op) && Request(op) <= request
    requires |Exec(v, ops).unread| <= pending && Max(v.size, Ceiling(pending, request)) <= limit
    ensures var w := Exec(v, ops);
            w.size <= limit && (w.size - w.WriteIdx() < Request(op) ==> w.size + Request(op) <= limit)
  {
    CapacityBound(v, ops, pending, request);
    GrowthStaysUnderCeiling(Exec(v, ops), op, pending, request);
  }

  // The bound cannot be improved: for every `pending` and `request` some three-step run
  // from a smaller buffer ends exactly at it.
  lemma CapacityBoundAttained(pending: nat, request: nat) returns (size: nat, ops: seq<Op>)
    requires pending >= 1 && request >= 1
    ensures size < Ceiling(pending, request)
    ensures Legal(Fresh(size), ops) && Within(Fresh(size), ops, pending, request)
    ensures Exec(Fresh(size), ops).size == Ceiling(pending, request)
  {
    var dead: nat := if pending + request >= 2049 then pending + request - 1 else MOVE_CHECK_SIZE;
    size := dead + pending + request - 1;
    var src := seq(dead + pending, i => 0 as byte);
    ops := [Commit(src), Skip(dead), Reserve(request)];
    var v1 := Step(Fresh(size), ops[0]);
    var v2 := Step(v1, ops[1]);
    assert v2 == View(size, dead, src[dead..]);
    var v3 := Step(v2, ops[2]);
    assert v3.size == Ceiling(pending, request);
    assert ops[1..] == [Skip(dead), Reserve(request)];
    assert ops[1..][1..] == [Reserve(request)];
    assert ops[1..][1..][1..] == [];
    assert Legal(v3, []) && Exec(v3, []) == v3;
    assert Legal(v2, [Reserve(request)]) && Exec(v2, [Reserve(request)]) == v3;
    assert Legal(v1, ops[1..]) && Exec(v1, ops[1..]) == v3;
    assert Within(v3, [], pending, request);
    assert Within(v2, [Reserve(request)], pending, request);
    assert Within(v1, ops[1..], pending, request);
  }

  // ------------------------------------------------------------------------------------
  // The in-place implementation
  // ------------------------------------------------------------------------------------

  class Buffer {
    var buf: array<byte>
    var size: int
    var readIdx: int
    var writeIdx: int

    ghost predicate Valid()
      reads this
    {
      0 <= readIdx <= writeIdx <= size == buf.Length
    }

    ghost function Abs(): View
      reads this, buf
      requires Valid()
    {
      View(size, readIdx, buf[readIdx..writeIdx])
    }

    constructor (size: nat)
      ensures Valid() && fresh(buf) && Abs() == Fresh(size)
    {
      buf := new byte[size](_ => 0);
      this.size := size;
      readIdx, writeIdx := 0, 0;
    }

    method Clear()
      requires Valid()
      modifies this
      ensures Valid() && buf == old(buf)
      ensures readIdx == writeIdx == 0 && size == old(size)
      ensures Abs() == Step(old(Abs()), Op.Clear)
    {
      readIdx, writeIdx := 0, 0;
    }

    method TryMove()
      requires Valid()
      modifies this, buf
      ensures Valid() && buf == old(buf)
      ensures size == old(size) && buf[readIdx..writeIdx] == old(buf[readIdx..writeIdx])
      ensures var moves := old(readIdx == writeIdx || (readIdx > size / 2 && readIdx > 2048));
              readIdx == if moves then 0 else old(readIdx)
      ensures Abs() == Compacted(old(Abs()))
    {
      ghost var unread := buf[readIdx..writeIdx];
      var nread := ReadableSize();
      if nread == 0 {
        readIdx, writeIdx := 0, 0;
      }
      if readIdx > size / 2 && readIdx > MOVE_CHECK_SIZE {
        forall i | 0 <= i < nread {
          buf[i] := buf[readIdx + i];
        }
        readIdx, writeIdx := 0, nread;
        assert forall i :: 0 <= i < nread ==> buf[i] == unread[i];
        assert buf[0..nread] == unread;
      }
    }

    method ReadableSize() returns (n: int)
      requires Valid()
      ensures n == |Abs().unread|
    {
      n := writeIdx - readIdx;
    }

    method WriteableSize() returns (n: int)
      requires Valid()
      ensures n == Abs().size - Abs().WriteIdx()
    {
      n := size - writeIdx;
    }

    method EnsureWriteableSize(validSize: int)
      requires Valid()
      modifies this
      ensures Valid() && (buf == old(buf) || fresh(buf))
      ensures Abs() == Step(old(Abs()), Reserve(validSize))
      ensures size - writeIdx >= validSize
      ensures size == if old(size - writeIdx) < validSize then old(size) + validSize else old(size)
      ensures readIdx == old(readIdx) && buf[readIdx..writeIdx] == old(buf[readIdx..writeIdx])
    {
      var room := WriteableSize();
      if room < validSize {
        var newSize := size + validSize;
        var newBuf := new byte[newSize](_ => 0);
        forall i | 0 <= i < size {
          newBuf[i] := buf[i];
        }
        assert newBuf[readIdx..writeIdx] == buf[readIdx..writeIdx];
        buf := newBuf;
        size := newSize;
      }
    }

    // A store through xv_buffer_write_begin, as read(2) does: nothing observable changes
    // until the write index is moved.
    method Store(src: seq<byte>)
      requires Valid() && |src| <= size - writeIdx
      modifies buf
      ensures Valid() && Abs() == old(Abs())
      ensures buf[writeIdx..writeIdx + |src|] == src
    {
      ghost var unread := buf[readIdx..writeIdx];
      forall i | 0 <= i < |src| {
        buf[writeIdx + i] := src[i];
      }
      assert buf[readIdx..writeIdx] == unread;
    }

    method IncrReadIndex(n: nat)
      requires Valid() && n <= |Abs().unread|
      modifies this, buf
      ensures Valid() && buf == old(buf)
      ensures Abs() == Step(old(Abs()), Skip(n))
      ensures size == old(size) && Abs().unread == old(Abs()).unread[n..]
    {
      readIdx := readIdx + n;
      TryMove();
    }

    method IncrWriteIndex(n: nat)
      requires Valid() && n <= size - writeIdx
      modifies this
      ensures Valid() && buf == old(buf)
      ensures Abs() == Step(old(Abs()), Commit(old(buf[writeIdx..writeIdx + n])))
      ensures size == old(size) && Abs().unread == old(Abs().unread + buf[writeIdx..writeIdx + n])
    {
      assert buf[readIdx..writeIdx + n] == buf[readIdx..writeIdx] + buf[writeIdx..writeIdx + n];
      writeIdx := writeIdx + n;
    }

    method ReadData(len: nat) returns (dst: seq<byte>)
      requires Valid()
      modifies this, buf
      ensures Valid() && buf == old(buf)
      ensures dst + Abs().unread == old(Abs()).unread && size == old(size)
      ensures |dst| <= len && (|dst| == len || Abs().unread == [])
      ensures Abs() == Step(old(Abs()), Read(len))
    {
      var nread := ReadableSize();
      var n := if len > nread then nread else len;
      dst := buf[readIdx..readIdx + n];
      readIdx := readIdx + n;
      TryMove();
    }

    method WriteData(src: seq<byte>) returns (n: int)
      requires Valid()
      modifies this, buf
      ensures Valid() && (buf == old(buf) || fresh(buf))
      ensures n == |src|
      ensures Abs() == Step(old(Abs()), Write(src))
      ensures Abs().unread == old(Abs()).unread + src
    {
      EnsureWriteableSize(|src|);
      Store(src);
      IncrWriteIndex(|src|);
      n := |src|;
    }
  }
}
