/** The event loop's table and the kernel's interest set (src/xv.c, src/xv_epoll.c).

    The loop caches, per file descriptor, the event mask it last asked the kernel for and one
    watcher pointer per direction.  From the cached mask alone it chooses ADD, MOD or DEL.
    The kernel is a map from descriptor to registered events that refuses an ADD of a
    registered descriptor and a MOD or DEL of an unregistered one.
 */
module EventLoop {

  type Mask = bv8

  // xv event bits
  const NONE: Mask := 0
  const READ: Mask := 1
  const WRITE: Mask := 2
  const ALL: Mask := 3

  // epoll event bits
  const EPOLLIN: Mask := 0x01
  const EPOLLOUT: Mask := 0x04
  const EPOLLERR: Mask := 0x08
  const EPOLLHUP: Mask := 0x10

  predicate ValidEvent(e: Mask) { e == READ || e == WRITE }

  // The mask translation of xv_poller_modify_event.
  function ToEpoll(mask: Mask): (events: Mask)
    ensures events & EPOLLIN != 0 <==> mask & READ != 0
    ensures events & EPOLLOUT != 0 <==> mask & WRITE != 0
    ensures events & !(EPOLLIN | EPOLLOUT) == 0
  {
    (if mask & READ != 0 then EPOLLIN else 0) | (if mask & WRITE != 0 then EPOLLOUT else 0)
  }

  // The translation back in xv_poller_poll: hang-up and error count as writable.
  function FromEpoll(events: Mask): (event: Mask)
    ensures event & READ != 0 <==> events & EPOLLIN != 0
    ensures event & WRITE != 0 <==> events & EPOLLOUT != 0 || events & EPOLLHUP != 0 || events & EPOLLERR != 0
    ensures event <= ALL
  {
    (if events & EPOLLIN != 0 then READ else NONE)
    | (if events & (EPOLLOUT | EPOLLHUP | EPOLLERR) != 0 then WRITE else NONE)
  }

  // What the loop registers is what it is told back, whatever error bits the kernel adds.
  lemma MaskRoundTrip(mask: Mask, errors: Mask)
    requires mask <= ALL && errors & !(EPOLLERR | EPOLLHUP) == 0
    ensures FromEpoll(ToEpoll(mask)) == mask
    ensures FromEpoll(ToEpoll(mask) | errors) == if errors == 0 then mask else mask | WRITE
  {}

  // The kernel reports what was registered, and errors and hang-ups unasked.
  predicate Reportable(mask: Mask, events: Mask) {
    events != 0 && events & !(ToEpoll(mask) | EPOLLERR | EPOLLHUP) == 0
  }

  // ------------------------------------------------------------------------------------
  // The kernel
  // ------------------------------------------------------------------------------------

  datatype CtlOp = Add | Mod | Del

  ghost predicate SameExcept(m: map<int, Mask>, m': map<int, Mask>, fd: int) {
    forall other :: other != fd ==>
      (other in m <==> other in m') && (other in m ==> m'[other] == m[other])
  }

  datatype Fired = Fired(fd: int, event: Mask)

  // What epoll_wait reports, and what the loop takes it for.
  predicate Readable(events: Mask) { events & EPOLLIN != 0 }

  predicate Writable(events: Mask) { events & EPOLLOUT != 0 || events & EPOLLHUP != 0 || events & EPOLLERR != 0 }

  class Epoll {
    var interest: map<int, Mask>

    constructor ()
      ensures interest == map[]
    {
      interest := map[];
    }

    method Ctl(op: CtlOp, fd: int, events: Mask) returns (ok: bool)
      modifies this
      ensures ok <==> (op.Add? <==> fd !in old(interest))
      ensures interest == if !ok then old(interest)
                          else if op.Del? then old(interest) - {fd}
                          else old(interest)[fd := events]
    {
      ok := (fd !in interest) == op.Add?;
      if ok {
        interest := if op.Del? then interest - {fd} else interest[fd := events];
      }
    }

    // xv_poller_poll on what epoll_wait reported: one entry each, in order, readable for input
    // and writable for output, hang-up or error.
    method Poll(reported: seq<(int, Mask)>) returns (fired: seq<Fired>)
      ensures |fired| == |reported|
      ensures forall i :: 0 <= i < |fired| ==>
        && fired[i].fd == reported[i].0 && fired[i].event <= ALL
        && (fired[i].event & READ != 0 <==> Readable(reported[i].1))
        && (fired[i].event & WRITE != 0 <==> Writable(reported[i].1))
    {
      fired := [];
      for i := 0 to |reported|
        invariant |fired| == i
        invariant forall k :: 0 <= k < i ==> fired[k] == Fired(reported[k].0, FromEpoll(reported[k].1))
      {
        var events := reported[i].1;
        var event := NONE;
        if events & EPOLLIN != 0 {
          event := event | READ;
        }
        if events & EPOLLOUT != 0 {
          event := event | WRITE;
        }
        if events & EPOLLHUP != 0 {
          event := event | WRITE;
        }
        if events & EPOLLERR != 0 {
          event := event | WRITE;
        }
        fired := fired + [Fired(reported[i].0, event)];
      }
    }

    // The kernel's registration of `fd` is exactly `mask`.
    ghost predicate Mirrors(fd: int, mask: Mask)
      reads this
    {
      if mask == NONE then fd !in interest else fd in interest && interest[fd] == ToEpoll(mask)
    }

    // xv_poller_add_event: legal, and the cached mask stays true.
    method AddEvent(fd: int, oldEvent: Mask, event: Mask) returns (ok: bool)
      requires Mirrors(fd, oldEvent) && ValidEvent(event)
      modifies this
      ensures ok && Mirrors(fd, oldEvent | event)
      ensures SameExcept(old(interest), interest, fd)
    {
      var op, mask := Add, event;
      if oldEvent != NONE {
        op := Mod;
        mask := mask | oldEvent;
      }
      ok := Ctl(op, fd, ToEpoll(mask));
    }

    // xv_poller_del_event: refused exactly when nothing was registered for `fd`.
    method DelEvent(fd: int, oldEvent: Mask, event: Mask) returns (ok: bool)
      requires Mirrors(fd, oldEvent) && oldEvent <= ALL && ValidEvent(event)
      modifies this
      ensures ok <==> oldEvent != NONE
      ensures Mirrors(fd, oldEvent & !event)
      ensures SameExcept(old(interest), interest, fd)
    {
      var op, mask := Del, event;
      if oldEvent & !event != NONE {
        op := Mod;
        mask := oldEvent & !event;
      }
      ok := Ctl(op, fd, ToEpoll(mask));
    }
  }

  // ------------------------------------------------------------------------------------
  // Watchers and the table
  // ------------------------------------------------------------------------------------

  class Io {
    const fd: int
    const event: Mask
    var start: bool
    var freed: bool   // xv_free was called on it

    constructor (fd: int, event: Mask)
      ensures this.fd == fd && this.event == event && !start && !freed
    {
      this.fd := fd;
      this.event := event;
      start := false;
      freed := false;
    }
  }

  datatype Slot = Slot(event: Mask, readIo: Io?, writeIo: Io?) {
    function At(direction: Mask): Io? { if direction == READ then readIo else writeIo }

    // A bit is set exactly when the pointer is non-null.
    predicate Matched() {
      event <= ALL && (event & READ != 0 <==> readIo != null) && (event & WRITE != 0 <==> writeIo != null)
    }

    function With(io: Io): Slot
      requires ValidEvent(io.event)
    {
      if io.event == READ then Slot(event | READ, io, writeIo) else Slot(event | WRITE, readIo, io)
    }

    function Without(direction: Mask): Slot
      requires ValidEvent(direction)
    {
      if direction == READ then Slot(event & !READ, null, writeIo)
      else Slot(event & !WRITE, readIo, null)
    }

    lemma StayMatched(io: Io)
      requires Matched() && ValidEvent(io.event)
      ensures With(io).Matched() && With(io).event == event | io.event
      ensures Without(io.event).Matched() && Without(io.event).event == event & !io.event
      ensures At(io.event) != null ==> event != NONE
    {}
  }

  // A watcher that a dispatch on `fd` and `direction` may safely call.
  ghost predicate Live(io: Io, fd: int, direction: Mask)
    reads io
  {
    io.start && !io.freed && io.fd == fd && io.event == direction
  }

  // What a callback may do with the loop: make a watcher, or use the k-th watcher ever made.
  datatype Act = Create(fd: int, event: Mask) | Start(k: nat) | Stop(k: nat) | Destroy(k: nat)

  // The table and the watchers' flags as a value.
  datatype Image = Image(ios: seq<Io>, start: seq<bool>, freed: seq<bool>, slots: seq<Slot>) {
    predicate Usable(k: nat) {
      k < |ios| && k < |start| && k < |freed| && !freed[k] && 0 <= ios[k].fd < |slots|
    }
  }

  // What one act makes of it; a watcher created is the next one of `made`.
  function Acted(img: Image, act: Act, made: seq<Io>): Image {
    match act
    case Create(_, _) =>
      if |img.ios| < |made|
      then Image(img.ios + [made[|img.ios|]], img.start + [false], img.freed + [false], img.slots)
      else img
    case Start(k) =>
      if !img.Usable(k) || img.start[k] then img
      else
        var io := img.ios[k];
        img.(start := img.start[k := true],
             slots := if ValidEvent(io.event) then img.slots[io.fd := img.slots[io.fd].With(io)]
                      else img.slots)
    case Stop(k) =>
      if !img.Usable(k) || !img.start[k] then img
      else
        var io := img.ios[k];
        img.(start := img.start[k := false],
             slots := if ValidEvent(io.event) then img.slots[io.fd := img.slots[io.fd].Without(io.event)]
                      else img.slots)
    case Destroy(k) =>
      if !img.Usable(k) || img.start[k] then img else img.(freed := img.freed[k := true])
  }

  // ... and a whole callback.
  function Ran(img: Image, acts: seq<Act>, made: seq<Io>): Image
    decreases |acts|
  {
    if acts == [] then img else Ran(Acted(img, acts[0], made), acts[1..], made)
  }

  // Watchers made later do not matter.
  lemma ActedPrefix(img: Image, act: Act, made: seq<Io>, more: seq<Io>)
    requires made <= more && |Acted(img, act, made).ios| == |made| && |img.ios| <= |made|
    requires act.Create? ==> |img.ios| < |made|
    ensures Acted(img, act, more) == Acted(img, act, made)
  {}

  // A dispatch: the watcher found in the slot, and its fields at the moment it is called.
  datatype Call = Call(fd: int, direction: Mask, io: Io?, started: bool, freed: bool) {
    predicate Safe() {
      io != null ==> started && !freed && io.fd == fd && io.event == direction
    }
  }

  // The directions one fired entry asks to dispatch: read before write.
  function EntryDirections(f: Fired): seq<(int, Mask)> {
    (if f.event & READ != 0 then [(f.fd, READ)] else []) + (if f.event & WRITE != 0 then [(f.fd, WRITE)] else [])
  }

  // The watchers of a slot for one fired entry.
  function EntryWatchers(f: Fired, slots: seq<Slot>): seq<Io> {
    if !(0 <= f.fd < |slots|) then []
    else
      var s := slots[f.fd];
      (if f.event & READ != 0 && s.readIo != null then [s.readIo] else [])
      + (if f.event & WRITE != 0 && s.writeIo != null then [s.writeIo] else [])
  }

  function Directions(batch: seq<Fired>): seq<(int, Mask)> {
    if batch == [] then []
    else Directions(batch[..|batch| - 1]) + EntryDirections(batch[|batch| - 1])
  }

  function Watchers(batch: seq<Fired>, slots: seq<Slot>): seq<Io> {
    if batch == [] then []
    else Watchers(batch[..|batch| - 1], slots) + EntryWatchers(batch[|batch| - 1], slots)
  }

  lemma BatchPrefix(batch: seq<Fired>, i: nat, slots: seq<Slot>)
    requires i < |batch|
    ensures Directions(batch[..i + 1]) == Directions(batch[..i]) + EntryDirections(batch[i])
    ensures Watchers(batch[..i + 1], slots) == Watchers(batch[..i], slots) + EntryWatchers(batch[i], slots)
  {
    assert batch[..i + 1][..i] == batch[..i];
  }

  // The same, read off the kernel's reports: for each report in turn its descriptor's read
  // watcher, then its write watcher.
  function Asked(reported: seq<(int, Mask)>): seq<(int, Mask)> {
    if reported == [] then []
    else
      var (fd, events) := reported[|reported| - 1];
      Asked(reported[..|reported| - 1])
      + (if Readable(events) then [(fd, READ)] else []) + (if Writable(events) then [(fd, WRITE)] else [])
  }

  function Reached(reported: seq<(int, Mask)>, slots: seq<Slot>): seq<Io> {
    if reported == [] then []
    else Reached(reported[..|reported| - 1], slots) + ReachedBy(reported[|reported| - 1], slots)
  }

  function ReachedBy(report: (int, Mask), slots: seq<Slot>): seq<Io> {
    var (fd, events) := report;
    if !(0 <= fd < |slots|) then []
    else
      (if Readable(events) && slots[fd].readIo != null then [slots[fd].readIo] else [])
      + (if Writable(events) && slots[fd].writeIo != null then [slots[fd].writeIo] else [])
  }

  lemma {:induction false} ReportsAsFired(reported: seq<(int, Mask)>, batch: seq<Fired>, slots: seq<Slot>)
    requires |batch| == |reported|
    requires forall i :: 0 <= i < |batch| ==>
      && batch[i].fd == reported[i].0
      && (batch[i].event & READ != 0 <==> Readable(reported[i].1))
      && (batch[i].event & WRITE != 0 <==> Writable(reported[i].1))
    ensures Directions(batch) == Asked(reported) && Watchers(batch, slots) == Reached(reported, slots)
    decreases |batch|
  {
    if batch != [] {
      var last := |batch| - 1;
      ReportsAsFired(reported[..last], batch[..last], slots);
      assert batch[last].fd == reported[last].0;
    }
  }

  // A report on a registered descriptor reaches no watcher exactly when it is an error or hang-up
  // alone and the descriptor is watched for reading only: it is taken for WRITE, which nobody
  // there waits for, and under level triggering it comes back with every poll.
  lemma UnheardReports(fd: nat, events: Mask, slots: seq<Slot>)
    requires fd < |slots| && slots[fd].Matched() && slots[fd].event != NONE
    requires Reportable(slots[fd].event, events)
    ensures ReachedBy((fd, events), slots) == []
       <==> slots[fd].readIo != null && slots[fd].writeIo == null && !Readable(events)
  {
    UnaskedBits(slots[fd].event, events);
  }

  lemma UnaskedBits(mask: Mask, events: Mask)
    requires NONE < mask <= ALL && Reportable(mask, events)
    ensures mask & READ == 0 ==> !Readable(events)
    ensures mask & WRITE == 0 ==> mask & READ != 0
    ensures !Readable(events) ==> Writable(events)
  {}

  // The watchers that were called.
  function Called(calls: seq<Call>): seq<Io> {
    if calls == [] then []
    else
      var c := calls[|calls| - 1];
      Called(calls[..|calls| - 1]) + if c.io != null then [c.io] else []
  }

  function Dispatched(calls: seq<Call>): seq<(int, Mask)> {
    if calls == [] then []
    else
      var c := calls[|calls| - 1];
      Dispatched(calls[..|calls| - 1]) + [(c.fd, c.direction)]
  }

  ghost predicate AllSafe(calls: seq<Call>) { forall c :: c in calls ==> c.Safe() }

  // No callback touches the loop.
  ghost predicate Idle(acts: nat -> seq<Act>) { forall k: nat :: acts(k) == [] }

  class Loop {
    const epoll: Epoll
    const events: array<Slot>
    var ios: seq<Io>   // every watcher ever made for this loop

    // One table entry against the kernel: bit set exactly when the pointer is non-null,
    // pointer to a live watcher of that descriptor and direction, same mask on both sides.
    ghost predicate SlotOk(fd: int)
      requires 0 <= fd < events.Length
      reads this, events, epoll, ios
    {
      var s := events[fd];
      && s.Matched()
      && (s.readIo != null ==> s.readIo in ios && Live(s.readIo, fd, READ))
      && (s.writeIo != null ==> s.writeIo in ios && Live(s.writeIo, fd, WRITE))
      && epoll.Mirrors(fd, s.event)
    }

    ghost function Snap(): Image
      reads this, events, ios
    {
      Image(ios, seq(|ios|, i requires 0 <= i < |ios| reads this, ios => ios[i].start),
            seq(|ios|, i requires 0 <= i < |ios| reads this, ios => ios[i].freed), events[..])
    }

    ghost predicate Valid()
      reads this, events, epoll, ios
    {
      && (forall i, j :: 0 <= i < j < |ios| ==> ios[i] != ios[j])
      && (forall fd :: 0 <= fd < events.Length ==> SlotOk(fd))
      && (forall fd :: fd in epoll.interest ==> 0 <= fd < events.Length)
    }

    // One watcher per descriptor and direction: every started watcher is in its slot.
    ghost predicate OneWatcher()
      reads this, events, ios
    {
      forall io :: io in ios && io.start && ValidEvent(io.event) && 0 <= io.fd < events.Length
                   ==> events[io.fd].At(io.event) == io
    }

    constructor (setsize: nat)
      ensures Valid() && OneWatcher() && ios == [] && fresh(epoll) && fresh(events)
      ensures events.Length == setsize
    {
      epoll := new Epoll();
      events := new Slot[setsize](_ => Slot(NONE, null, null));
      ios := [];
    }

    method NewIo(fd: int, event: Mask) returns (io: Io)
      requires Valid()
      modifies this
      ensures Valid() && fresh(io) && ios == old(ios) + [io]
      ensures io.fd == fd && io.event == event && !io.start && !io.freed
      ensures old(OneWatcher()) ==> OneWatcher()
    {
      io := new Io(fd, event);
      ios := ios + [io];
      forall i | 0 <= i < events.Length ensures SlotOk(i) {
        assert old(SlotOk(i));
      }
    }

    // xv_io_start with xv_loop_add_event.  `start` is set before the event is checked.
    method IoStart(io: Io) returns (ok: bool)
      requires Valid() && io in ios && !io.freed && 0 <= io.fd < events.Length
      modifies events, epoll, io`start
      ensures Valid() && io.start
      ensures ok <==> !old(io.start) && ValidEvent(io.event)
      ensures events[..] == if ok then old(events[..])[io.fd := old(events[io.fd]).With(io)]
                            else old(events[..])
      ensures ok && io.event == READ ==>
        events[io.fd].readIo == io && events[io.fd].writeIo == old(events[io.fd].writeIo)
      ensures ok && io.event == WRITE ==>
        events[io.fd].writeIo == io && events[io.fd].readIo == old(events[io.fd].readIo)
      ensures !ok ==> unchanged(epoll)
      ensures old(OneWatcher() && events[io.fd].At(io.event) == null) ==> OneWatcher()
    {
      if io.start {
        return false;
      }
      io.start := true;
      if io.event != READ && io.event != WRITE {
        forall fd | 0 <= fd < events.Length ensures SlotOk(fd) {
          assert old(SlotOk(fd));
        }
        return false;
      }
      assert old(SlotOk(io.fd));
      var oldEvent := events[io.fd].event;
      events[io.fd].StayMatched(io);
      events[io.fd] := events[io.fd].With(io);
      ok := epoll.AddEvent(io.fd, oldEvent, io.event);
      assert SlotOk(io.fd);
      forall fd | 0 <= fd < events.Length && fd != io.fd ensures SlotOk(fd) {
        assert old(SlotOk(fd));
      }
    }

    // xv_io_stop with xv_loop_del_event.
    method IoStop(io: Io) returns (ok: bool)
      requires Valid() && io in ios && !io.freed && 0 <= io.fd
      modifies events, epoll, io`start
      ensures Valid() && !io.start
      ensures ok <==> old(io.start) && ValidEvent(io.event) && io.fd < events.Length
                      && old(events[io.fd].event) != NONE
      ensures events[..] == if old(io.start) && ValidEvent(io.event) && io.fd < events.Length
                            then old(events[..])[io.fd := old(events[io.fd]).Without(io.event)]
                            else old(events[..])
      ensures old(io.start) && io.event == READ && io.fd < events.Length ==>
        events[io.fd].readIo == null && events[io.fd].writeIo == old(events[io.fd].writeIo)
      ensures old(io.start) && io.event == WRITE && io.fd < events.Length ==>
        events[io.fd].writeIo == null && events[io.fd].readIo == old(events[io.fd].readIo)
      ensures old(OneWatcher()) ==> OneWatcher()
      ensures old(OneWatcher() && io.start) && ValidEvent(io.event) && io.fd < events.Length ==> ok
    {
      if !io.start {
        return false;
      }
      io.start := false;
      if io.fd >= events.Length || (io.event != READ && io.event != WRITE) {
        forall fd | 0 <= fd < events.Length ensures SlotOk(fd) {
          assert old(SlotOk(fd));
        }
        return false;
      }
      assert old(SlotOk(io.fd));
      var oldEvent := events[io.fd].event;
      events[io.fd].StayMatched(io);
      events[io.fd] := events[io.fd].Without(io.event);
      ok := epoll.DelEvent(io.fd, oldEvent, io.event);
      assert SlotOk(io.fd);
      forall fd | 0 <= fd < events.Length && fd != io.fd ensures SlotOk(fd) {
        assert old(SlotOk(fd));
      }
    }

    // xv_io_destroy: only a stopped watcher is freed, so no slot can reach a freed one.
    method IoDestroy(io: Io) returns (ok: bool)
      requires Valid() && io in ios && !io.freed
      modifies io`freed
      ensures Valid()
      ensures ok <==> !io.start
      ensures io.freed <==> ok
      ensures old(OneWatcher()) ==> OneWatcher()
    {
      if io.start {
        return false;
      }
      io.freed := true;
      ok := true;
      forall fd | 0 <= fd < events.Length ensures SlotOk(fd) {
        assert old(SlotOk(fd));
      }
    }

    // The watchers made since are new.
    twostate predicate OnlyNew()
      reads this
    {
      && |old(ios)| <= |ios|
      && forall i :: 0 <= i < |ios| ==> if i < |old(ios)| then ios[i] == old(ios)[i] else fresh(ios[i])
    }

    // One thing a callback may do, on a watcher not yet freed.
    method StartOne(k: nat)
      requires Valid()
      modifies events, epoll, ios
      ensures Valid() && ios == old(ios)
      ensures Snap() == Acted(old(Snap()), Start(k), ios)
    {
      if k < |ios| && !ios[k].freed && 0 <= ios[k].fd < events.Length {
        var ok := IoStart(ios[k]);
      }
    }

    method StopOne(k: nat)
      requires Valid()
      modifies events, epoll, ios
      ensures Valid() && ios == old(ios)
      ensures Snap() == Acted(old(Snap()), Stop(k), ios)
    {
      if k < |ios| && !ios[k].freed && 0 <= ios[k].fd < events.Length {
        var ok := IoStop(ios[k]);
      }
    }

    method DestroyOne(k: nat)
      requires Valid()
      modifies ios
      ensures Valid() && ios == old(ios)
      ensures Snap() == Acted(old(Snap()), Destroy(k), ios)
    {
      if k < |ios| && !ios[k].freed && 0 <= ios[k].fd < events.Length {
        var ok := IoDestroy(ios[k]);
      }
    }

    method Perform(act: Act)
      requires Valid()
      modifies this, events, epoll, ios
      ensures Valid() && OnlyNew()
      ensures Snap() == Acted(old(Snap()), act, ios)
      ensures |ios| == |old(ios)| + if act.Create? then 1 else 0
      ensures act.Create? ==> ios[|old(ios)|].fd == act.fd && ios[|old(ios)|].event == act.event
    {
      match act {
        case Create(fd, event) => var io := NewIo(fd, event);
        case Start(k) => StartOne(k);
        case Stop(k) => StopOne(k);
        case Destroy(k) => DestroyOne(k);
      }
    }

    // An arbitrary callback: any sequence of loop calls, on watchers it makes or finds.
    method RunCallback(acts: seq<Act>)
      requires Valid()
      modifies this, events, epoll, ios
      ensures Valid() && OnlyNew()
      ensures Snap() == Ran(old(Snap()), acts, ios)
      decreases |acts|
    {
      if acts != [] {
        Perform(acts[0]);
        ghost var made := ios;
        RunCallback(acts[1..]);
        ActedPrefix(old(Snap()), acts[0], made, ios);
      }
    }

    // One direction of one fired entry: the slot is read again at this moment, so the watcher
    // called is live however stale the batch is; there is none exactly when the cached mask has
    // not the direction.
    method Fire(fd: int, direction: Mask, acts: seq<Act>) returns (call: Call)
      requires Valid() && 0 <= fd < events.Length && ValidEvent(direction)
      modifies this, events, epoll, ios
      ensures Valid() && OnlyNew()
      ensures call.fd == fd && call.direction == direction && call.Safe()
      ensures call.io == old(events[fd].At(direction))
      ensures call.io != null ==> old(Live(call.io, fd, direction))
      ensures call.io == null <==> old(events[fd].event) & direction == NONE
      ensures Snap() == if call.io == null then old(Snap()) else Ran(old(Snap()), acts, ios)
    {
      assert SlotOk(fd);
      var io := events[fd].At(direction);
      if io == null {
        return Call(fd, direction, null, false, false);
      }
      call := Call(fd, direction, io, io.start, io.freed);
      RunCallback(acts);
    }

    // Both directions of one fired entry, read before write.
    method FireEntry(f: Fired, before: seq<Call>, acts: nat -> seq<Act>) returns (calls: seq<Call>)
      requires Valid() && 0 <= f.fd < events.Length && AllSafe(before)
      modifies this, events, epoll, ios
      ensures Valid() && OnlyNew() && before <= calls
      ensures Dispatched(calls) == Dispatched(before) + EntryDirections(f) && AllSafe(calls)
      ensures Idle(acts) ==>
        && events[..] == old(events[..])
        && Called(calls) == Called(before) + EntryWatchers(f, old(events[..]))
    {
      calls := before;
      if f.event & READ != 0 {
        var call := Fire(f.fd, READ, acts(|calls|));
        calls := calls + [call];
      }
      if f.event & WRITE != 0 {
        var call := Fire(f.fd, WRITE, acts(|calls|));
        calls := calls + [call];
      }
    }

    // The loop over the fired entries.
    method FireAll(batch: seq<Fired>, acts: nat -> seq<Act>) returns (calls: seq<Call>)
      requires Valid() && forall f :: f in batch ==> 0 <= f.fd < events.Length
      modifies this, events, epoll, ios
      ensures Valid() && OnlyNew()
      ensures Dispatched(calls) == Directions(batch) && AllSafe(calls)
      ensures Idle(acts) ==> Called(calls) == Watchers(batch, old(events[..]))
    {
      calls := [];
      ghost var slots := events[..];
      for i := 0 to |batch|
        invariant Valid() && OnlyNew()
        invariant Dispatched(calls) == Directions(batch[..i]) && AllSafe(calls)
        invariant Idle(acts) ==> events[..] == slots && Called(calls) == Watchers(batch[..i], slots)
      {
        BatchPrefix(batch, i, slots);
        calls := FireEntry(batch[i], calls, acts);
      }
      assert batch[..|batch|] == batch;
    }

    // xv_loop_poll: `reported` is what epoll_wait returned, for descriptors registered then;
    // `acts(k)` is what the k-th callback does to the loop.
    method Poll(reported: seq<(int, Mask)>, acts: nat -> seq<Act>) returns (calls: seq<Call>)
      requires Valid() && (forall r :: r in reported ==> r.0 in epoll.interest)
      modifies this, events, epoll, ios
      ensures Valid() && OnlyNew()
      ensures Dispatched(calls) == Asked(reported) && AllSafe(calls)
      ensures Idle(acts) ==> Called(calls) == Reached(reported, old(events[..]))
    {
      var batch := epoll.Poll(reported);
      forall f | f in batch ensures 0 <= f.fd < events.Length {
        var i :| 0 <= i < |batch| && batch[i] == f;
        assert reported[i] in reported;
      }
      ReportsAsFired(reported, batch, events[..]);
      calls := FireAll(batch, acts);
    }
  }
}
