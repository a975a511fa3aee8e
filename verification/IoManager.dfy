/**
  The IO event table: which events of which descriptors are registered, what each will run, and how
  many are pending.  epoll's answers are arguments: whether a control call succeeds, and which
  events it reports.

  The ghost `book` follows every registration from its entry to its end: still open, run by one
  task, or deleted.
*/
module IoModule {

  datatype Option<T> = None | Some(value: T)

  type Bits = bv8

  const NONE: Bits := 0
  const READ: Bits := 1
  const WRITE: Bits := 4
  const EPOLLERR: Bits := 8
  const EPOLLHUP: Bits := 16

  /** What a registered event runs: a callback, or the fiber that registered it. */
  datatype Task = Nothing | Callback(id: int) | Resume(fiber: int)

  type Key = (int, Bits)

  /** What became of a registration; `place` is the position of its task. */
  datatype Fate = Open | Triggered(place: nat) | Deleted

  datatype Entry = Entry(fd: int, event: Bits, task: Task, fate: Fate)

  /** A registered event: its number in the ledger, and what it will run. */
  datatype Ticket = Ticket(number: nat, task: Task)

  /**
    Every registration there ever was, those that stand, the tasks handed to the scheduler, oldest
    first, and the number of the registration each task came from.
  */
  datatype Book = Book(ledger: seq<Entry>, slots: map<Key, Ticket>, tasks: seq<Task>, origins: seq<nat>)

  predicate IsEvent(event: Bits) {
    event == READ || event == WRITE
  }

  predicate Has(events: Bits, event: Bits) {
    events & event != 0
  }

  function With(events: Bits, event: Bits): Bits {
    events | event
  }

  function Without(events: Bits, event: Bits): Bits {
    events & !event
  }

  /** The bits of a descriptor that has just these registrations. */
  function EventsOf(slots: map<Key, Ticket>, fd: int): Bits {
    (if (fd, READ) in slots then READ else NONE) | (if (fd, WRITE) in slots then WRITE else NONE)
  }

  function TaskOf(slots: map<Key, Ticket>, k: Key): Task {
    if k in slots then slots[k].task else Nothing
  }

  lemma EventsHas(slots: map<Key, Ticket>, fd: int, event: Bits)
    requires IsEvent(event)
    ensures Has(EventsOf(slots, fd), event) <==> (fd, event) in slots
    ensures EventsOf(slots, fd) == NONE <==> (fd, READ) !in slots && (fd, WRITE) !in slots
  {
  }

  lemma EventsOther(slots: map<Key, Ticket>, fd: int, event: Bits, ticket: Ticket, other: int)
    requires other != fd
    ensures EventsOf(slots[(fd, event) := ticket], other) == EventsOf(slots, other) == EventsOf(slots - {(fd, event)}, other)
  {
  }

  lemma EventsOpened(slots: map<Key, Ticket>, fd: int, event: Bits, ticket: Ticket)
    requires IsEvent(event)
    ensures EventsOf(slots[(fd, event) := ticket], fd) == With(EventsOf(slots, fd), event)
  {
  }

  lemma EventsClosed(slots: map<Key, Ticket>, fd: int, event: Bits)
    requires IsEvent(event)
    ensures EventsOf(slots - {(fd, event)}, fd) == Without(EventsOf(slots, fd), event)
  {
  }

  // ----- the book --------------------------------------------------------------------------

  ghost predicate SlotsEntered(b: Book) {
    forall k | k in b.slots ::
      b.slots[k].number < |b.ledger| && b.ledger[b.slots[k].number] == Entry(k.0, k.1, b.slots[k].task, Open)
  }

  ghost predicate TasksEntered(b: Book) {
    && |b.origins| == |b.tasks|
    && forall p | 0 <= p < |b.origins| ::
         && b.origins[p] < |b.ledger|
         && b.ledger[b.origins[p]].fate == Triggered(p) && b.ledger[b.origins[p]].task == b.tasks[p]
  }

  ghost predicate EntriesKnown(b: Book) {
    forall t | 0 <= t < |b.ledger| ::
      match b.ledger[t].fate
      case Open => (b.ledger[t].fd, b.ledger[t].event) in b.slots && b.slots[(b.ledger[t].fd, b.ledger[t].event)].number == t
      case Triggered(p) => p < |b.origins| && b.origins[p] == t
      case Deleted => true
  }

  /** The ledger, the standing registrations and the tasks point at one another, one to one. */
  ghost predicate Balanced(b: Book) {
    SlotsEntered(b) && TasksEntered(b) && EntriesKnown(b)
  }

  /** A registration is entered. */
  ghost function Opened(b: Book, k: Key, task: Task): (r: Book)
    requires Balanced(b) && k !in b.slots
    ensures Balanced(r) && |r.slots| == |b.slots| + 1
  {
    b.(ledger := b.ledger + [Entry(k.0, k.1, task, Open)], slots := b.slots[k := Ticket(|b.ledger|, task)])
  }

  /** A registration ends by its task. */
  ghost function Ran(b: Book, k: Key): (r: Book)
    requires Balanced(b) && k in b.slots
    ensures Balanced(r) && |r.slots| + 1 == |b.slots|
  {
    MapWithout(b.slots, k);
    var t := b.slots[k];
    var r := Book(b.ledger[t.number := Entry(k.0, k.1, t.task, Triggered(|b.tasks|))],
                  b.slots - {k}, b.tasks + [t.task], b.origins + [t.number]);
    RanSlots(b, k, r);
    RanTasks(b, k, r);
    RanEntries(b, k, r);
    r
  }

  ghost predicate Leaves(b: Book, k: Key, fate: Fate, r: Book) {
    && k in b.slots && b.slots[k].number < |b.ledger|
    && r.ledger == b.ledger[b.slots[k].number := Entry(k.0, k.1, b.slots[k].task, fate)] && r.slots == b.slots - {k}
  }

  lemma RanSlots(b: Book, k: Key, r: Book)
    requires SlotsEntered(b) && EntriesKnown(b) && Leaves(b, k, Triggered(|b.tasks|), r)
    ensures SlotsEntered(r)
  {
  }

  lemma RanTasks(b: Book, k: Key, r: Book)
    requires Balanced(b) && Leaves(b, k, Triggered(|b.tasks|), r)
    requires r.tasks == b.tasks + [b.slots[k].task] && r.origins == b.origins + [b.slots[k].number]
    ensures TasksEntered(r)
  {
  }

  lemma RanEntries(b: Book, k: Key, r: Book)
    requires Balanced(b) && Leaves(b, k, Triggered(|b.tasks|), r)
    requires r.tasks == b.tasks + [b.slots[k].task] && r.origins == b.origins + [b.slots[k].number]
    ensures EntriesKnown(r)
  {
  }

  /** A registration ends by a delete. */
  ghost function Dropped(b: Book, k: Key): (r: Book)
    requires Balanced(b) && k in b.slots
    ensures Balanced(r) && |r.slots| + 1 == |b.slots|
  {
    MapWithout(b.slots, k);
    b.(ledger := b.ledger[b.slots[k].number := Entry(k.0, k.1, b.slots[k].task, Deleted)], slots := b.slots - {k})
  }

  lemma MapWithout<K, V>(m: map<K, V>, k: K)
    requires k in m
    ensures |m - {k}| == |m| - 1
  {
    assert m == (m - {k})[k := m[k]];
  }

  ghost function RanIf(b: Book, k: Key, runs: bool): (r: Book)
    requires Balanced(b) && (runs ==> k in b.slots)
    ensures Balanced(r)
    ensures forall j | j != k :: j in r.slots <==> j in b.slots
    ensures k in r.slots <==> k in b.slots && !runs
  {
    if runs then Ran(b, k) else b
  }

  /** Every event of `which` is registered for fd. */
  predicate Standing(slots: map<Key, Ticket>, fd: int, which: Bits) {
    (Has(which, READ) ==> (fd, READ) in slots) && (Has(which, WRITE) ==> (fd, WRITE) in slots)
  }

  /** The named events of fd end by their tasks, READ first. */
  ghost function RanOf(b: Book, fd: int, which: Bits): (r: Book)
    requires Balanced(b) && Standing(b.slots, fd, which)
    ensures Balanced(r)
  {
    RanIf(RanIf(b, (fd, READ), Has(which, READ)), (fd, WRITE), Has(which, WRITE))
  }

  /** The events of a report; an error or hang-up stands for every registered event. */
  function Happened(reported: Bits, events: Bits): Bits {
    var reported := if reported & (EPOLLERR | EPOLLHUP) != 0 then reported | ((READ | WRITE) & events) else reported;
    reported & (READ | WRITE)
  }

  lemma HappenedFits(reported: Bits, slots: map<Key, Ticket>, fd: int)
    ensures var events := EventsOf(slots, fd);
      var happened := Happened(reported, events);
      && (Without(happened, events) == 0 <==> Standing(slots, fd, happened))
      && (events & happened == 0 <==>
          (Has(happened, READ) ==> (fd, READ) !in slots) && (Has(happened, WRITE) ==> (fd, WRITE) !in slots))
  {
    EventsHas(slots, fd, READ);
    EventsHas(slots, fd, WRITE);
    MaskBits(reported, EventsOf(slots, fd));
    hide Happened, EventsOf;
  }

  lemma MaskBits(reported: Bits, events: Bits)
    requires events & 0xFA == 0
    ensures var happened := Happened(reported, events);
      && (Without(happened, events) == 0 <==> (Has(happened, READ) ==> Has(events, READ)) && (Has(happened, WRITE) ==> Has(events, WRITE)))
      && (events & happened == 0 <==> (Has(happened, READ) ==> !Has(events, READ)) && (Has(happened, WRITE) ==> !Has(events, WRITE)))
  {
  }

  /** What one ready descriptor makes of the book; None where the process panics. */
  ghost function HandledOne(b: Book, fd: int, reported: Bits, ctlOk: bool): (r: Option<Book>)
    requires Balanced(b)
    ensures r.Some? ==> Balanced(r.value)
  {
    var events := EventsOf(b.slots, fd);
    var happened := Happened(reported, events);
    HappenedFits(reported, b.slots, fd);
    if events & happened == NONE || !ctlOk then Some(b)
    else if Without(happened, events) != NONE then None
    else Some(RanOf(b, fd, happened))
  }

  /** And a batch of them. */
  ghost function Handled(b: Book, ready: seq<(int, Bits)>, ctlOks: seq<bool>): (r: Option<Book>)
    requires Balanced(b) && |ctlOks| == |ready|
    ensures r.Some? ==> Balanced(r.value)
  {
    if ready == [] then Some(b)
    else
      match Handled(b, ready[..|ready| - 1], ctlOks[..|ready| - 1])
      case None => None
      case Some(c) => HandledOne(c, ready[|ready| - 1].0, ready[|ready| - 1].1, ctlOks[|ready| - 1])
  }

  /** A batch that panics early panics as a whole. */
  lemma {:induction false} PanicStays(b: Book, ready: seq<(int, Bits)>, ctlOks: seq<bool>, n: nat)
    requires Balanced(b) && |ctlOks| == |ready| && n <= |ready| && Handled(b, ready[..n], ctlOks[..n]) == None
    ensures Handled(b, ready, ctlOks) == None
    decreases |ready|
  {
    hide Balanced, HandledOne;
    if n < |ready| {
      var m := |ready| - 1;
      assert ready[..m][..n] == ready[..n] && ctlOks[..m][..n] == ctlOks[..n];
      PanicStays(b, ready[..m], ctlOks[..m], n);
    } else {
      assert ready[..n] == ready && ctlOks[..n] == ctlOks;
    }
  }

  /**
    The process panics on a ready descriptor exactly when epoll reports, beside an event that is
    registered or an error that stands for one, an event that is not.
  */
  lemma ReadyPanics(b: Book, fd: int, reported: Bits, ctlOk: bool)
    requires Balanced(b)
    ensures HandledOne(b, fd, reported, ctlOk) == None <==>
      && ctlOk
      && (exists e :: IsEvent(e) && Has(reported, e) && (fd, e) !in b.slots)
      && (exists e :: IsEvent(e) && (fd, e) in b.slots && Has(reported, With(e, EPOLLERR | EPOLLHUP)))
  {
    HappenedFits(reported, b.slots, fd);
    ErrorStands(reported, b.slots, fd, READ);
    ErrorStands(reported, b.slots, fd, WRITE);
    assert IsEvent(READ) && IsEvent(WRITE);
    hide Happened, EventsOf, Has, With, Without;
  }

  lemma ErrorStands(reported: Bits, slots: map<Key, Ticket>, fd: int, e: Bits)
    requires IsEvent(e)
    ensures var happened := Happened(reported, EventsOf(slots, fd));
      && ((fd, e) in slots ==> (Has(happened, e) <==> Has(reported, With(e, EPOLLERR | EPOLLHUP))))
      && ((fd, e) !in slots ==> (Has(happened, e) <==> Has(reported, e)))
  {
  }

  /** Nothing entered, no other registration touched, and a task for each that left. */
  ghost predicate RunsOnly(b: Book, c: Book) {
    && |c.tasks| + |c.slots| == |b.tasks| + |b.slots|
    && |c.ledger| == |b.ledger|
    && b.tasks <= c.tasks
    && forall k | k in c.slots :: k in b.slots && c.slots[k] == b.slots[k]
  }

  lemma IfRuns(b: Book, k: Key, runs: bool)
    requires Balanced(b) && (runs ==> k in b.slots)
    ensures RunsOnly(b, RanIf(b, k, runs))
  {
  }

  lemma RunsThen(b: Book, c: Book, d: Book)
    requires RunsOnly(b, c) && RunsOnly(c, d)
    ensures RunsOnly(b, d)
  {
  }

  lemma HandledIs(b: Book, fd: int, reported: Bits, ctlOk: bool)
    requires Balanced(b)
    ensures var happened := Happened(reported, EventsOf(b.slots, fd));
      HandledOne(b, fd, reported, ctlOk) ==
        if EventsOf(b.slots, fd) & happened == NONE || !ctlOk then Some(b)
        else if !Standing(b.slots, fd, happened) then None
        else Some(RanIf(RanIf(b, (fd, READ), Has(happened, READ)), (fd, WRITE), Has(happened, WRITE)))
  {
    hide Balanced, EventsOf, Happened, Has, Without, RanIf;
    HappenedFits(reported, b.slots, fd);
  }

  lemma HandledSome(b: Book, fd: int, reported: Bits, ctlOk: bool)
    requires Balanced(b) && HandledOne(b, fd, reported, ctlOk).Some?
    ensures var c := HandledOne(b, fd, reported, ctlOk).value;
      var happened := Happened(reported, EventsOf(b.slots, fd));
      c == b || (Standing(b.slots, fd, happened)
                 && c == RanIf(RanIf(b, (fd, READ), Has(happened, READ)), (fd, WRITE), Has(happened, WRITE)))
  {
    hide Balanced, EventsOf, Happened, Has, RanIf, Standing, HandledOne;
    HandledIs(b, fd, reported, ctlOk);
  }

  lemma OneRuns(b: Book, fd: int, reported: Bits, ctlOk: bool)
    requires Balanced(b) && HandledOne(b, fd, reported, ctlOk).Some?
    ensures RunsOnly(b, HandledOne(b, fd, reported, ctlOk).value)
  {
    hide Balanced, EventsOf, Happened, Has, RanIf, RunsOnly, HandledOne;
    HandledSome(b, fd, reported, ctlOk);
    if HandledOne(b, fd, reported, ctlOk).value == b {
      NothingRuns(b);
    } else {
      var happened := Happened(reported, EventsOf(b.slots, fd));
      var c := RanIf(b, (fd, READ), Has(happened, READ));
      IfRuns(b, (fd, READ), Has(happened, READ));
      IfRuns(c, (fd, WRITE), Has(happened, WRITE));
      RunsThen(b, c, RanIf(c, (fd, WRITE), Has(happened, WRITE)));
    }
  }

  lemma NothingRuns(b: Book)
    ensures RunsOnly(b, b)
  {
  }

  /** The tasks of a batch are those of the registrations that left. */
  lemma {:induction false} BatchRuns(b: Book, ready: seq<(int, Bits)>, ctlOks: seq<bool>)
    requires Balanced(b) && |ctlOks| == |ready| && Handled(b, ready, ctlOks).Some?
    ensures RunsOnly(b, Handled(b, ready, ctlOks).value)
    decreases |ready|
  {
    hide Balanced, HandledOne;
    if ready != [] {
      var n := |ready| - 1;
      BatchRuns(b, ready[..n], ctlOks[..n]);
      OneRuns(Handled(b, ready[..n], ctlOks[..n]).value, ready[n].0, ready[n].1, ctlOks[n]);
    }
  }

  /** The report names the event: by its own bit, or by an error or a hang-up. */
  predicate Names(reported: Bits, e: Bits) {
    IsEvent(e) && Has(reported, With(e, EPOLLERR | EPOLLHUP))
  }

  lemma RanIfSlots(b: Book, k: Key, runs: bool)
    requires Balanced(b) && (runs ==> k in b.slots)
    ensures forall j :: j in RanIf(b, k, runs).slots <==> j in b.slots && !(runs && j == k)
    ensures forall j | j in RanIf(b, k, runs).slots :: RanIf(b, k, runs).slots[j] == b.slots[j]
    ensures RanIf(b, k, runs).tasks == b.tasks + (if runs then [b.slots[k].task] else [])
  {
    hide Balanced;
  }

  /**
    A report that does not panic ends exactly the registrations it names, each by its own task, READ
    before WRITE; a failed control call ends none.
  */
  lemma HandledExactly(b: Book, fd: int, reported: Bits, ctlOk: bool)
    requires Balanced(b) && HandledOne(b, fd, reported, ctlOk).Some?
    ensures var c := HandledOne(b, fd, reported, ctlOk).value;
      var r, w := (fd, READ), (fd, WRITE);
      && (forall k :: k in c.slots <==> k in b.slots && !(ctlOk && k.0 == fd && Names(reported, k.1)))
      && c.tasks == b.tasks
           + (if ctlOk && r in b.slots && Names(reported, READ) then [b.slots[r].task] else [])
           + (if ctlOk && w in b.slots && Names(reported, WRITE) then [b.slots[w].task] else [])
  {
    var r, w := (fd, READ), (fd, WRITE);
    var onRead, onWrite := ctlOk && r in b.slots && Names(reported, READ), ctlOk && w in b.slots && Names(reported, WRITE);
    hide Balanced, EventsOf, Has, With, HandledOne, RanIf;
    HandledCases(b, fd, reported, ctlOk);
    RanIfSlots(b, r, onRead);
    RanIfSlots(RanIf(b, r, onRead), w, onWrite);
  }

  /** The report's outcome, event by event. */
  lemma HandledCases(b: Book, fd: int, reported: Bits, ctlOk: bool)
    requires Balanced(b) && HandledOne(b, fd, reported, ctlOk).Some?
    ensures var r, w := (fd, READ), (fd, WRITE);
      HandledOne(b, fd, reported, ctlOk).value ==
        RanIf(RanIf(b, r, ctlOk && r in b.slots && Names(reported, READ)), w, ctlOk && w in b.slots && Names(reported, WRITE))
  {
    var happened := Happened(reported, EventsOf(b.slots, fd));
    ErrorStands(reported, b.slots, fd, READ);
    ErrorStands(reported, b.slots, fd, WRITE);
    HandledIs(b, fd, reported, ctlOk);
    HappenedFits(reported, b.slots, fd);
    hide Balanced, EventsOf, Happened, Has, With, Without, HandledOne, RanIf;
    RanIfNot(b, (fd, READ));
    RanIfNot(b, (fd, WRITE));
  }

  lemma RanIfNot(b: Book, k: Key)
    requires Balanced(b)
    ensures RanIf(b, k, false) == b
  {
  }

  // ----- what the books prove --------------------------------------------------------------

  function OpenTickets(ledger: seq<Entry>): set<int> {
    set t | 0 <= t < |ledger| && ledger[t].fate.Open?
  }

  function RunTickets(ledger: seq<Entry>): set<int> {
    set t | 0 <= t < |ledger| && ledger[t].fate.Triggered?
  }

  function DeletedTickets(ledger: seq<Entry>): set<int> {
    set t | 0 <= t < |ledger| && ledger[t].fate.Deleted?
  }

  lemma DroppedOpen(b: Book, k: Key)
    requires Balanced(b) && k in b.slots
    ensures OpenTickets(Dropped(b, k).ledger) == OpenTickets(b.ledger) - {b.slots[k].number}
    ensures b.slots[k].number in OpenTickets(b.ledger)
  {
  }

  lemma NoneOpen(b: Book)
    requires Balanced(b) && b.slots == map[]
    ensures OpenTickets(b.ledger) == {}
  {
  }

  lemma {:induction false} OpenCount(b: Book)
    requires Balanced(b)
    ensures |OpenTickets(b.ledger)| == |b.slots|
    decreases |b.slots|
  {
    hide Balanced, OpenTickets;
    if b.slots == map[] {
      NoneOpen(b);
    } else {
      var k :| k in b.slots;
      OpenCount(Dropped(b, k));
      DroppedOpen(b, k);
    }
  }

  lemma {:induction false} DistinctCount(s: seq<nat>)
    requires forall i, j | 0 <= i < j < |s| :: s[i] != s[j]
    ensures |set i | 0 <= i < |s| :: s[i]| == |s|
    decreases |s|
  {
    var whole := set i | 0 <= i < |s| :: s[i];
    if s == [] {
      assert whole == {};
    } else {
      var last, short := s[|s| - 1], s[..|s| - 1];
      DistinctCount(short);
      var fewer := set i | 0 <= i < |short| :: short[i];
      assert whole == fewer + {last} by {
        forall x | x in whole ensures x in fewer + {last} {
          var i :| 0 <= i < |s| && s[i] == x;
          assert i < |short| ==> short[i] == x;
        }
        forall x | x in fewer ensures x in whole {
          var i :| 0 <= i < |short| && short[i] == x;
          assert s[i] == x;
        }
      }
    }
  }

  lemma RunCount(b: Book)
    requires Balanced(b)
    ensures |RunTickets(b.ledger)| == |b.tasks|
  {
    DistinctCount(b.origins);
    var from := set i | 0 <= i < |b.origins| :: b.origins[i];
    forall t | t in RunTickets(b.ledger) ensures t in from {
      assert b.origins[b.ledger[t].fate.place] == t;
    }
    forall t | t in from ensures t in RunTickets(b.ledger) {
      var i :| 0 <= i < |b.origins| && b.origins[i] == t;
    }
    assert RunTickets(b.ledger) == from;
  }

  function Tickets(n: nat): (whole: set<int>)
    ensures forall t :: t in whole <==> 0 <= t < n
    ensures |whole| == n
  {
    if n == 0 then {} else Tickets(n - 1) + {n - 1}
  }

  /**
    The books balance: every registration there ever was is still pending, or was run by exactly one
    task, or was deleted.
  */
  lemma LedgerBalances(b: Book)
    requires Balanced(b)
    ensures |b.ledger| == |b.slots| + |b.tasks| + |DeletedTickets(b.ledger)|
  {
    hide Balanced, Tickets, OpenTickets, RunTickets, DeletedTickets;
    OpenCount(b);
    RunCount(b);
    ThreeParts(b.ledger);
    ThreeCounts(OpenTickets(b.ledger), RunTickets(b.ledger), DeletedTickets(b.ledger));
  }

  lemma ThreeParts(ledger: seq<Entry>)
    ensures Tickets(|ledger|) == OpenTickets(ledger) + RunTickets(ledger) + DeletedTickets(ledger)
    ensures OpenTickets(ledger) !! RunTickets(ledger) && OpenTickets(ledger) + RunTickets(ledger) !! DeletedTickets(ledger)
  {
    hide Tickets, OpenTickets, RunTickets, DeletedTickets;
    forall t ensures t in Tickets(|ledger|) <==> t in OpenTickets(ledger) + RunTickets(ledger) + DeletedTickets(ledger) {
      OnePart(ledger, t);
    }
    forall t | t in RunTickets(ledger) ensures t !in OpenTickets(ledger) {
      OnePart(ledger, t);
    }
    forall t | t in DeletedTickets(ledger) ensures t !in OpenTickets(ledger) && t !in RunTickets(ledger) {
      OnePart(ledger, t);
    }
  }

  /** A ticket has exactly one fate. */
  lemma OnePart(ledger: seq<Entry>, t: int)
    ensures t in OpenTickets(ledger) <==> 0 <= t < |ledger| && ledger[t].fate.Open?
    ensures t in RunTickets(ledger) <==> 0 <= t < |ledger| && ledger[t].fate.Triggered?
    ensures t in DeletedTickets(ledger) <==> 0 <= t < |ledger| && ledger[t].fate.Deleted?
  {
  }

  lemma ThreeCounts(a: set<int>, b: set<int>, c: set<int>)
    requires a !! b && a + b !! c
    ensures |a + b + c| == |a| + |b| + |c|
  {
    assert |a + b| == |a| + |b|;
  }

  // ----- the program -----------------------------------------------------------------------

  class FdContext {
    const fd: int
    var events: Bits
    var read: Task
    var write: Task

    constructor (fd: int)
      ensures this.fd == fd && events == NONE && read == Nothing && write == Nothing
    {
      this.fd, events, read, write := fd, NONE, Nothing, Nothing;
    }

    function Slot(event: Bits): Task
      reads this
    {
      if event == READ then read else write
    }

    ghost predicate Shows(slots: map<Key, Ticket>)
      reads this
    {
      events == EventsOf(slots, fd) && read == TaskOf(slots, (fd, READ)) && write == TaskOf(slots, (fd, WRITE))
    }

    /** Sets an event's bit and slot. */
    method SetEvent(event: Bits, task: Task)
      requires IsEvent(event)
      modifies this
      ensures events == With(old(events), event)
      ensures read == (if event == READ then task else old(read)) && write == (if event == READ then old(write) else task)
    {
      events := With(events, event);
      if event == READ {
        read := task;
      } else {
        write := task;
      }
    }

    /** Clears an event's bit and slot; what the slot held is the task. */
    method ClearEvent(event: Bits) returns (task: Task)
      requires IsEvent(event)
      modifies this
      ensures events == Without(old(events), event) && task == old(Slot(event))
      ensures read == (if event == READ then Nothing else old(read)) && write == (if event == READ then old(write) else Nothing)
    {
      events := Without(events, event);
      task := Slot(event);
      if event == READ {
        read := Nothing;
      } else {
        write := Nothing;
      }
    }
  }

  class IoManager {
    var running: bool
    var fdContexts: seq<FdContext>
    var pendingEventCnt: nat
    /** The tasks handed to the scheduler, oldest first. */
    var tasks: seq<Task>
    ghost var book: Book

    /** The contexts show exactly the registrations that stand. */
    ghost predicate Shown(slots: map<Key, Ticket>)
      reads this, fdContexts
    {
      && (forall i | 0 <= i < |fdContexts| :: fdContexts[i].fd == i && fdContexts[i].Shows(slots))
      && (forall k | k in slots :: 0 <= k.0 < |fdContexts| && IsEvent(k.1) && slots[k].task != Nothing)
    }

    /** The book is balanced, and contexts, tasks and counter are what it says. */
    ghost predicate Booked()
      reads this, fdContexts
    {
      Balanced(book) && Shown(book.slots) && tasks == book.tasks && pendingEventCnt == |book.slots|
    }

    /** The table never has fewer than the 32 contexts it starts with. */
    ghost predicate Valid()
      reads this, fdContexts
    {
      Booked() && |fdContexts| >= 32
    }

    constructor ()
      ensures Valid() && running && book == Book([], map[], [], [])
      ensures forall i | 0 <= i < |fdContexts| :: fresh(fdContexts[i])
    {
      running, fdContexts, pendingEventCnt, tasks := true, [], 0, [];
      book := Book([], map[], [], []);
      new;
      ContextResize(32);
    }

    /** More contexts, all empty. */
    method ContextResize(size: nat)
      requires Booked() && size >= |fdContexts|
      modifies this`fdContexts
      ensures Booked() && |fdContexts| == size && fdContexts[..|old(fdContexts)|] == old(fdContexts)
      ensures forall i | |old(fdContexts)| <= i < size :: fresh(fdContexts[i])
    {
      hide Balanced;
      ghost var was := |fdContexts|;
      for i := |fdContexts| to size
        invariant Booked() && |fdContexts| == i >= was && fdContexts[..was] == old(fdContexts)
        invariant forall j | was <= j < i :: fresh(fdContexts[j])
      {
        assert forall k | k in book.slots :: k.0 < i;
        var ctx := new FdContext(i);
        fdContexts := fdContexts + [ctx];
      }
    }

    // ----- registering and leaving ---------------------------------------------------------

    lemma Registered(fd: int, event: Bits)
      requires Booked() && 0 <= fd < |fdContexts| && IsEvent(event)
      ensures fdContexts[fd].events == EventsOf(book.slots, fd)
      ensures Has(fdContexts[fd].events, event) <==> (fd, event) in book.slots
      ensures fdContexts[fd].Slot(event) == TaskOf(book.slots, (fd, event))
      ensures fdContexts[fd].events == NONE <==> (fd, READ) !in book.slots && (fd, WRITE) !in book.slots
    {
      EventsHas(book.slots, fd, event);
    }

    lemma Unknown(fd: int)
      requires Booked() && !(0 <= fd < |fdContexts|)
      ensures forall e :: (fd, e) !in book.slots
    {
    }

    /** Sets a free event's bit and slot. */
    method Open(fd: int, event: Bits, task: Task)
      requires Valid() && 0 <= fd < |fdContexts| && IsEvent(event) && (fd, event) !in book.slots && task != Nothing
      modifies this`pendingEventCnt, this`book, fdContexts[fd]
      ensures Valid() && book == Opened(old(book), (fd, event), task)
    {
      hide Balanced, Has, With, EventsOf;
      SetShown(fd, event, task, |book.ledger|);
      pendingEventCnt := pendingEventCnt + 1;
      book := Opened(book, (fd, event), task);
    }

    /** Writes a context; the table then shows the registration as well. */
    method SetShown(fd: int, event: Bits, task: Task, ghost number: nat)
      requires Shown(book.slots) && 0 <= fd < |fdContexts| && IsEvent(event) && task != Nothing
      modifies fdContexts[fd]
      ensures Shown(book.slots[(fd, event) := Ticket(number, task)])
    {
      hide Has, With, EventsOf;
      ghost var slots, ticket := book.slots, Ticket(number, task);
      EventsOpened(slots, fd, event, ticket);
      forall i | i != fd ensures EventsOf(slots[(fd, event) := ticket], i) == EventsOf(slots, i) {
        EventsOther(slots, fd, event, ticket, i);
      }
      fdContexts[fd].SetEvent(event, task);
    }

    /** Clears an event's bit and slot. */
    method Close(fd: int, event: Bits) returns (task: Task)
      requires Valid() && 0 <= fd < |fdContexts| && IsEvent(event) && (fd, event) in book.slots
      modifies this`pendingEventCnt, fdContexts[fd]
      ensures Shown(book.slots - {(fd, event)}) && pendingEventCnt + 1 == old(pendingEventCnt)
      ensures task == book.slots[(fd, event)].task
    {
      hide Balanced, Has, Without, EventsOf;
      ghost var slots := book.slots;
      MapWithout(slots, (fd, event));
      EventsClosed(slots, fd, event);
      forall i | i != fd ensures EventsOf(slots - {(fd, event)}, i) == EventsOf(slots, i) {
        EventsOther(slots, fd, event, Ticket(0, Nothing), i);
      }
      pendingEventCnt := pendingEventCnt - 1;
      task := fdContexts[fd].ClearEvent(event);
    }

    /** `triggerEvent`, with the counter: exactly one task, the one registered. */
    method Trigger(fd: int, event: Bits)
      requires Valid() && 0 <= fd < |fdContexts| && IsEvent(event) && (fd, event) in book.slots
      modifies this`pendingEventCnt, this`tasks, this`book, fdContexts[fd]
      ensures Valid() && book == Ran(old(book), (fd, event))
    {
      hide Balanced, EventsOf;
      var task := Close(fd, event);
      tasks := tasks + [task];
      book := Ran(book, (fd, event));
    }

    /** The event leaves without running. */
    method Drop(fd: int, event: Bits)
      requires Valid() && 0 <= fd < |fdContexts| && IsEvent(event) && (fd, event) in book.slots
      modifies this`pendingEventCnt, this`book, fdContexts[fd]
      ensures Valid() && book == Dropped(old(book), (fd, event))
    {
      hide Balanced, EventsOf;
      var task := Close(fd, event);
      book := Dropped(book, (fd, event));
    }

    /** `CondPanic` fails: the process aborts. */
    method Panic()
      modifies this`running
      ensures !running
    {
      running := false;
    }

    // ----- the public operations -----------------------------------------------------------

    /** Registers an event; registering it twice is the caller's error and panics. */
    method AddEvent(fd: int, event: Bits, task: Task, ctlOk: bool) returns (r: int)
      requires Valid() && fd >= 0 && IsEvent(event) && task != Nothing && running
      modifies this, fdContexts
      ensures Valid() && (running <==> (fd, event) !in old(book.slots))
      ensures r == if running && ctlOk then 0 else -1
      ensures book == if running && ctlOk then Opened(old(book), (fd, event), task) else old(book)
      ensures |fdContexts| >= |old(fdContexts)| && fdContexts[..|old(fdContexts)|] == old(fdContexts)
      ensures forall i | |old(fdContexts)| <= i < |fdContexts| :: fresh(fdContexts[i])
      ensures running && ctlOk ==> fd < |fdContexts|
    {
      hide Balanced, Has, EventsOf;
      if |fdContexts| <= fd {
        ContextResize(fd * 3 / 2);
      }
      Registered(fd, event);
      if Has(fdContexts[fd].events, event) {
        Panic();
        return -1;
      }
      if !ctlOk {
        return -1;
      }
      Open(fd, event, task);
      return 0;
    }

    /** Deletes an event without running it. */
    method DelEvent(fd: int, event: Bits, ctlOk: bool) returns (done: bool)
      requires Valid() && fd >= 0 && IsEvent(event)
      modifies this`pendingEventCnt, this`book, fdContexts
      ensures Valid() && done == ((fd, event) in old(book.slots) && ctlOk)
      ensures book == if done then Dropped(old(book), (fd, event)) else old(book)
    {
      hide Balanced, Has, EventsOf;
      if |fdContexts| <= fd {
        Unknown(fd);
        return false;
      }
      Registered(fd, event);
      if !Has(fdContexts[fd].events, event) {
        return false;
      }
      if !ctlOk {
        return false;
      }
      Drop(fd, event);
      return true;
    }

    /** Cancels an event, running it once. */
    method CancelEvent(fd: int, event: Bits, ctlOk: bool) returns (done: bool)
      requires Valid() && fd >= 0 && IsEvent(event)
      modifies this`pendingEventCnt, this`tasks, this`book, fdContexts
      ensures Valid() && done == ((fd, event) in old(book.slots) && ctlOk)
      ensures book == if done then Ran(old(book), (fd, event)) else old(book)
    {
      hide Balanced, Has, EventsOf;
      if |fdContexts| <= fd {
        Unknown(fd);
        return false;
      }
      Registered(fd, event);
      if !Has(fdContexts[fd].events, event) {
        return false;
      }
      if !ctlOk {
        return false;
      }
      Trigger(fd, event);
      return true;
    }

    method TriggerIf(fd: int, event: Bits, runs: bool)
      requires Valid() && 0 <= fd < |fdContexts| && IsEvent(event) && (runs ==> (fd, event) in book.slots)
      modifies this`pendingEventCnt, this`tasks, this`book, fdContexts[fd]
      ensures Valid() && book == RanIf(old(book), (fd, event), runs)
    {
      hide Balanced, EventsOf;
      if runs {
        Trigger(fd, event);
      }
    }

    /** Cancels every event of fd, running each once; afterwards none is left. */
    method CancelAll(fd: int, ctlOk: bool) returns (done: bool)
      requires Valid() && fd >= 0
      modifies this`pendingEventCnt, this`tasks, this`book, fdContexts
      ensures Valid() && done == (((fd, READ) in old(book.slots) || (fd, WRITE) in old(book.slots)) && ctlOk)
      ensures done ==> (fd, READ) !in book.slots && (fd, WRITE) !in book.slots
      ensures book == if done then
          RanIf(RanIf(old(book), (fd, READ), (fd, READ) in old(book.slots)), (fd, WRITE), (fd, WRITE) in old(book.slots))
        else old(book)
    {
      hide Balanced, Has, EventsOf, Ran;
      if |fdContexts| <= fd {
        Unknown(fd);
        return false;
      }
      Registered(fd, READ);
      if fdContexts[fd].events == NONE {
        return false;
      }
      if !ctlOk {
        return false;
      }
      TriggerIf(fd, READ, Has(fdContexts[fd].events, READ));
      Registered(fd, WRITE);
      TriggerIf(fd, WRITE, Has(fdContexts[fd].events, WRITE));
      return true;
    }

    // ----- ready events --------------------------------------------------------------------

    /** `triggerEvent` of an event that happened: panics if it is not registered. */
    method TriggerChecked(fd: int, event: Bits, happened: bool)
      requires Valid() && 0 <= fd < |fdContexts| && IsEvent(event) && running
      modifies this`running, this`pendingEventCnt, this`tasks, this`book, fdContexts[fd]
      ensures running <==> (happened ==> (fd, event) in old(book.slots))
      ensures running ==> Valid() && book == RanIf(old(book), (fd, event), happened)
    {
      hide Balanced, Has, EventsOf, Ran;
      Registered(fd, event);
      if happened {
        if !Has(fdContexts[fd].events, event) {
          Panic();
          return;
        }
        Trigger(fd, event);
      }
    }

    /** One ready descriptor of the idle loop. */
    method HandleReady(fd: int, reported: Bits, ctlOk: bool)
      requires Valid() && 0 <= fd < |fdContexts| && running
      modifies this`running, this`pendingEventCnt, this`tasks, this`book, fdContexts
      ensures running <==> HandledOne(old(book), fd, reported, ctlOk).Some?
      ensures running ==> Valid() && book == HandledOne(old(book), fd, reported, ctlOk).value
    {
      hide Balanced, Has, EventsOf, Happened, HandledOne, RanIf, Shown;
      Registered(fd, READ);
      HandledIs(book, fd, reported, ctlOk);
      var happened := Happened(reported, fdContexts[fd].events);
      if fdContexts[fd].events & happened == NONE {
        return;
      }
      if !ctlOk {
        return;
      }
      TriggerChecked(fd, READ, Has(happened, READ));
      if running {
        TriggerChecked(fd, WRITE, Has(happened, WRITE));
      }
    }

    /** The whole batch of ready descriptors of one wait. */
    method HandleAll(ready: seq<(int, Bits)>, ctlOks: seq<bool>)
      requires Valid() && running && |ctlOks| == |ready| && forall r | r in ready :: 0 <= r.0 < |fdContexts|
      modifies this`running, this`pendingEventCnt, this`tasks, this`book, fdContexts
      ensures running <==> Handled(old(book), ready, ctlOks).Some?
      ensures running ==> Valid() && book == Handled(old(book), ready, ctlOks).value
    {
      hide Balanced, Shown, HandledOne;
      for i := 0 to |ready|
        invariant running && Valid() && Handled(old(book), ready[..i], ctlOks[..i]) == Some(book)
      {
        assert ready[..i + 1][..i] == ready[..i] && ctlOks[..i + 1][..i] == ctlOks[..i];
        HandleReady(ready[i].0, ready[i].1, ctlOks[i]);
        if !running {
          PanicStays(old(book), ready, ctlOks, i + 1);
          return;
        }
      }
      assert ready[..|ready|] == ready && ctlOks[..|ready|] == ctlOks;
    }
  }

  // ----- the panic happens -----------------------------------------------------------------

  /** Both events of a descriptor are registered, and WRITE is deleted once epoll has reported it. */
  method ReportedThenDeleted() returns (m: IoManager)
    ensures fresh(m) && m.Valid() && m.running && |m.fdContexts| >= 32
    ensures forall i | 0 <= i < |m.fdContexts| :: fresh(m.fdContexts[i])
    ensures (5, READ) in m.book.slots && (5, WRITE) !in m.book.slots
  {
    hide Balanced, EventsOf, IoManager.Shown;
    m := new IoManager();
    var r := Register(m, READ, 1);
    r := Register(m, WRITE, 2);
    var done := m.DelEvent(5, WRITE, true);
  }

  /** Registers an event of descriptor 5 with a fresh manager. */
  method Register(m: IoManager, event: Bits, id: int) returns (r: int)
    requires m.Valid() && m.running && IsEvent(event) && (5, event) !in m.book.slots
    modifies m, m.fdContexts
    ensures m.Valid() && m.running && m.book == Opened(old(m.book), (5, event), Callback(id))
    ensures |m.fdContexts| >= |old(m.fdContexts)|
    ensures forall i | 0 <= i < |m.fdContexts| :: fresh(m.fdContexts[i]) || (i < |old(m.fdContexts)| && m.fdContexts[i] == old(m.fdContexts)[i])
  {
    hide Balanced, EventsOf;
    r := m.AddEvent(5, event, Callback(id), true);
    assert forall i | 0 <= i < |old(m.fdContexts)| :: m.fdContexts[i] == m.fdContexts[..|old(m.fdContexts)|][i];
  }

  /** The report still names both events: the manager panics. */
  method ReportPanics() returns (m: IoManager)
    ensures fresh(m) && !m.running
  {
    hide Balanced, EventsOf;
    m := ReportedThenDeleted();
    BothReported(m.book);
    m.HandleReady(5, READ | WRITE, true);
  }

  lemma BothReported(b: Book)
    requires Balanced(b) && (5, READ) in b.slots && (5, WRITE) !in b.slots
    ensures HandledOne(b, 5, READ | WRITE, true) == None
  {
    ReadyPanics(b, 5, READ | WRITE, true);
    assert IsEvent(READ) && Has(READ | WRITE, With(READ, EPOLLERR | EPOLLHUP));
    assert IsEvent(WRITE) && Has(READ | WRITE, WRITE);
    hide HandledOne, Balanced;
  }
}
