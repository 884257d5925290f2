/** The two Photos lanes. The queue's lane lets a reader step aside for a registered write; the
    dispatcher's makes it wait. Each event is one hold of the lane's condition. */
module PhotosLanes {

  type Thread = nat

  // ------------------------------------------------------------- the queue's lane

  /** `inside` and `registered` are the threads holding the lane and a write registration. */
  datatype QueueLane = QueueLane(
    active: bool, waitingWriters: nat, readers: set<Thread>, writers: set<Thread>, registered: set<Thread>)

  datatype QueueEvent =
    | ReadEnter(thread: Thread)   // a no-op while the read would have to wait, or step aside
    | ReadExit(thread: Thread)
    | Register(thread: Thread)
    | Deregister(thread: Thread)
    | WriteEnter(thread: Thread)
    | WriteExit(thread: Thread)

  /** How an attempt to read ends: it waits while something else is active, steps aside for a
      registered write, or acquires the lane. */
  datatype ReadAttempt = Waits | StepsAside | Acquires

  function TryRead(l: QueueLane): ReadAttempt {
    if l.active && l.waitingWriters == 0 then Waits
    else if l.waitingWriters == 0 then Acquires
    else StepsAside
  }

  predicate Outside(l: QueueLane, t: Thread) { t !in l.readers && t !in l.writers }

  function QueueStep(l: QueueLane, e: QueueEvent): QueueLane {
    match e
    case ReadEnter(t) =>
      if TryRead(l) == Acquires && Outside(l, t) then l.(active := true, readers := l.readers + {t}) else l
    case ReadExit(t) => if t in l.readers then l.(active := false, readers := l.readers - {t}) else l
    case Register(t) =>
      if t in l.registered then l
      else l.(waitingWriters := l.waitingWriters + 1, registered := l.registered + {t})
    case Deregister(t) =>
      if t !in l.registered || l.waitingWriters == 0 then l
      else l.(waitingWriters := l.waitingWriters - 1, registered := l.registered - {t})
    case WriteEnter(t) =>
      if l.active || !Outside(l, t) then l else l.(active := true, writers := l.writers + {t})
    case WriteExit(t) => if t in l.writers then l.(active := false, writers := l.writers - {t}) else l
  }

  function QueueAfter(l: QueueLane, events: seq<QueueEvent>): QueueLane
    decreases |events|
  {
    if events == [] then l else QueueAfter(QueueStep(l, events[0]), events[1..])
  }

  const OPEN := QueueLane(false, 0, {}, {}, {})

  predicate QueueInv(l: QueueLane) {
    && l.readers !! l.writers
    && |l.readers + l.writers| == (if l.active then 1 else 0)
    && l.waitingWriters == |l.registered|
  }

  lemma Joined(a: set<Thread>, b: set<Thread>, t: Thread)
    requires t !in a && t !in b
    ensures |(a + {t}) + b| == |a + b| + 1 && |a + (b + {t})| == |a + b| + 1
  {
    assert (a + {t}) + b == (a + b) + {t} && a + (b + {t}) == (a + b) + {t};
  }

  lemma EnterKeeps(l: QueueLane, t: Thread)
    requires QueueInv(l) && !l.active && Outside(l, t)
    ensures QueueInv(l.(active := true, readers := l.readers + {t}))
    ensures QueueInv(l.(active := true, writers := l.writers + {t}))
  {
    Joined(l.readers, l.writers, t);
  }

  lemma ExitKeeps(l: QueueLane, t: Thread)
    requires QueueInv(l)
    ensures t in l.readers ==> QueueInv(l.(active := false, readers := l.readers - {t}))
    ensures t in l.writers ==> QueueInv(l.(active := false, writers := l.writers - {t}))
  {
    if t in l.readers {
    }
    if t in l.writers {
    }
  }

  lemma RegistrationKeeps(l: QueueLane, t: Thread)
    requires QueueInv(l)
    ensures t !in l.registered ==> QueueInv(l.(waitingWriters := l.waitingWriters + 1, registered := l.registered + {t}))
    ensures t in l.registered && l.waitingWriters > 0 ==>
              QueueInv(l.(waitingWriters := l.waitingWriters - 1, registered := l.registered - {t}))
  {
  }

  lemma QueueStepKeeps(l: QueueLane, e: QueueEvent)
    requires QueueInv(l)
    ensures QueueInv(QueueStep(l, e))
  {
    hide QueueInv;
    match e
    case ReadEnter(t) => if TryRead(l) == Acquires && Outside(l, t) { EnterKeeps(l, t); }
    case WriteEnter(t) => if !l.active && Outside(l, t) { EnterKeeps(l, t); }
    case ReadExit(t) => ExitKeeps(l, t);
    case WriteExit(t) => ExitKeeps(l, t);
    case Register(t) => RegistrationKeeps(l, t);
    case Deregister(t) => RegistrationKeeps(l, t);
  }

  lemma {:induction false} QueueRunKeeps(l: QueueLane, events: seq<QueueEvent>)
    requires QueueInv(l)
    ensures QueueInv(QueueAfter(l, events))
    decreases |events|
  {
    hide QueueInv, QueueStep;
    if events != [] {
      QueueStepKeeps(l, events[0]);
      QueueRunKeeps(QueueStep(l, events[0]), events[1..]);
    }
  }

  /** At most one Photos operation at a time, over every interleaving of readers and writers. */
  lemma QueueLaneExclusive(events: seq<QueueEvent>, s: Thread, t: Thread)
    ensures var l := QueueAfter(OPEN, events);
            s in l.readers + l.writers && t in l.readers + l.writers ==> s == t
  {
    QueueRunKeeps(OPEN, events);
    var l := QueueAfter(OPEN, events);
    AtMostOne(l.readers + l.writers, s, t);
  }

  /** What the counters answer is right for the threads: a read enters when nobody is inside and no write is
      registered, steps aside exactly when one is, and waits otherwise; a write enters when nobody is inside. */
  lemma LaneAnswersExactly(l: QueueLane, t: Thread)
    requires QueueInv(l)
    ensures TryRead(l) == if l.registered != {} then StepsAside
                          else if l.readers + l.writers != {} then Waits else Acquires
    ensures QueueStep(l, ReadEnter(t)).readers
            == if l.registered == {} && l.readers == {} && l.writers == {} then {t} else l.readers
    ensures QueueStep(l, WriteEnter(t)).writers == if l.readers == {} && l.writers == {} then {t} else l.writers
  {
    EmptyByCount(l.readers + l.writers);
    EmptyByCount(l.registered);
  }

  lemma LaneLeavesExactly(l: QueueLane, t: Thread)
    requires QueueInv(l)
    ensures QueueStep(l, ReadExit(t)).readers == l.readers - {t}
    ensures QueueStep(l, WriteExit(t)).writers == l.writers - {t}
  {
  }

  lemma WritesRegisteredExactly(l: QueueLane, t: Thread)
    requires QueueInv(l)
    ensures QueueStep(l, Register(t)).registered == l.registered + {t}
    ensures QueueStep(l, Deregister(t)).registered == l.registered - {t}
  {
    EmptyByCount(l.registered);
    if t in l.registered { assert l.registered != {}; }
  }

  lemma EmptyByCount(threads: set<Thread>)
    ensures |threads| == 0 <==> threads == {}
  {
  }

  lemma AtMostOne(inside: set<Thread>, s: Thread, t: Thread)
    requires |inside| <= 1
    ensures s in inside && t in inside ==> s == t
  {
    if s in inside {
      assert |inside - {s}| == 0;
      assert inside - {s} == {};
    }
  }

  /** No read starts while any write is registered: from the first registration to the last
      deregistration a reader can only leave. */
  lemma {:induction false} ReadsYieldToWrites(l: QueueLane, events: seq<QueueEvent>, writer: Thread)
    requires QueueInv(l) && writer in l.registered && Deregister(writer) !in events
    ensures writer in QueueAfter(l, events).registered && QueueAfter(l, events).readers <= l.readers
    decreases |events|
  {
    hide QueueAfter;
    if events == [] {
      QueueNothing(l);
    } else {
      QueueStepKeeps(l, events[0]);
      RegisteredBlocksReads(l, events[0], writer);
      ReadsYieldToWrites(QueueStep(l, events[0]), events[1..], writer);
      QueueUnfold(l, events);
    }
  }

  lemma QueueNothing(l: QueueLane)
    ensures QueueAfter(l, []) == l
  {
  }

  lemma QueueUnfold(l: QueueLane, events: seq<QueueEvent>)
    requires events != []
    ensures QueueAfter(l, events) == QueueAfter(QueueStep(l, events[0]), events[1..])
  {
  }

  lemma RegisteredBlocksReads(l: QueueLane, e: QueueEvent, writer: Thread)
    requires QueueInv(l) && writer in l.registered && e != Deregister(writer)
    ensures writer in QueueStep(l, e).registered && QueueStep(l, e).readers <= l.readers
  {
    assert |l.registered| > 0 by { assert l.registered != {}; }
  }

  // ---------------------------------------------------------- the dispatcher's lane

  /** Here a write is registered only while it waits; acquiring the lane takes it off again. */
  datatype DispatcherLane = DispatcherLane(active: bool, writers: nat, queued: set<Thread>, inside: set<Thread>)

  datatype DispatcherEvent =
    | AskRead(thread: Thread)     // a no-op while it has to wait
    | AskWrite(thread: Thread)    // registers the write
    | EnterWrite(thread: Thread)  // a registered write finds the lane free
    | Leave(thread: Thread)

  function DispatcherStep(l: DispatcherLane, e: DispatcherEvent): DispatcherLane {
    match e
    case AskRead(t) =>
      if l.active || l.writers != 0 || t in l.inside then l else l.(active := true, inside := l.inside + {t})
    case AskWrite(t) =>
      if t in l.queued || t in l.inside then l else l.(writers := l.writers + 1, queued := l.queued + {t})
    case EnterWrite(t) =>
      if t !in l.queued || l.active || l.writers == 0 || t in l.inside then l
      else DispatcherLane(true, l.writers - 1, l.queued - {t}, l.inside + {t})
    case Leave(t) => if t !in l.inside then l else l.(active := false, inside := l.inside - {t})
  }

  function DispatcherAfter(l: DispatcherLane, events: seq<DispatcherEvent>): DispatcherLane
    decreases |events|
  {
    if events == [] then l else DispatcherAfter(DispatcherStep(l, events[0]), events[1..])
  }

  predicate DispatcherInv(l: DispatcherLane) {
    |l.inside| == (if l.active then 1 else 0) && l.writers == |l.queued|
  }

  lemma DispatcherStepKeeps(l: DispatcherLane, e: DispatcherEvent)
    requires DispatcherInv(l)
    ensures DispatcherInv(DispatcherStep(l, e))
    ensures e.AskRead? && l.queued != {} ==> DispatcherStep(l, e) == l
  {
  }

  /** The dispatcher's lane lets a read in when nobody is inside and no write waits, a waiting write when
      nobody is inside. */
  lemma DispatcherAnswersExactly(l: DispatcherLane, t: Thread)
    requires DispatcherInv(l)
    ensures DispatcherStep(l, AskRead(t)).inside == if l.inside == {} && l.queued == {} then {t} else l.inside
    ensures DispatcherStep(l, EnterWrite(t)).inside == if l.inside == {} && t in l.queued then {t} else l.inside
    ensures DispatcherStep(l, EnterWrite(t)).queued == if l.inside == {} then l.queued - {t} else l.queued
    ensures DispatcherStep(l, AskWrite(t)).queued == if t in l.inside then l.queued else l.queued + {t}
    ensures DispatcherStep(l, Leave(t)).inside == l.inside - {t}
  {
    EmptyByCount(l.inside);
    EmptyByCount(l.queued);
  }

  lemma {:induction false} DispatcherLaneExclusive(l: DispatcherLane, events: seq<DispatcherEvent>, s: Thread, t: Thread)
    requires DispatcherInv(l)
    ensures var end := DispatcherAfter(l, events);
            DispatcherInv(end) && (s in end.inside && t in end.inside ==> s == t)
    decreases |events|
  {
    if events == [] {
      AtMostOne(l.inside, s, t);
    } else {
      DispatcherStepKeeps(l, events[0]);
      DispatcherLaneExclusive(DispatcherStep(l, events[0]), events[1..], s, t);
    }
  }

  // -------------------------------------------------------------- the lane object

  /** The queue's lane with its two fields; the threads inside are the ghost account of its callers. */
  class PhotosLane {
    var active: bool
    var waitingWriters: nat
    ghost var readers: set<Thread>
    ghost var writers: set<Thread>
    ghost var registered: set<Thread>

    constructor ()
      ensures View() == OPEN
    {
      active, waitingWriters := false, 0;
      readers, writers, registered := {}, {}, {};
    }

    ghost function View(): QueueLane
      reads this
    {
      QueueLane(active, waitingWriters, readers, writers, registered)
    }

    /** One evaluation of the guard of `read`; a waiting caller comes back after a notification. */
    method Read(ghost t: Thread) returns (attempt: ReadAttempt)
      requires QueueInv(View()) && Outside(View(), t)
      modifies this
      ensures attempt == TryRead(old(View()))
      ensures View() == QueueStep(old(View()), ReadEnter(t)) && QueueInv(View())
    {
      QueueStepKeeps(View(), ReadEnter(t));
      if active && waitingWriters == 0 {
        return Waits;
      }
      if waitingWriters != 0 {
        return StepsAside;
      }
      active := true;
      readers := readers + {t};
      attempt := Acquires;
    }

    method ReadDone(ghost t: Thread)
      requires QueueInv(View()) && t in readers
      modifies this
      ensures View() == QueueStep(old(View()), ReadExit(t)) && QueueInv(View())
    {
      QueueStepKeeps(View(), ReadExit(t));
      active := false;
      readers := readers - {t};
    }

    method BeginPriority(ghost t: Thread)
      requires QueueInv(View()) && t !in registered
      modifies this
      ensures View() == QueueStep(old(View()), Register(t)) && QueueInv(View())
    {
      QueueStepKeeps(View(), Register(t));
      waitingWriters := waitingWriters + 1;
      registered := registered + {t};
    }

    method EndPriority(ghost t: Thread)
      requires QueueInv(View()) && t in registered
      modifies this
      ensures View() == QueueStep(old(View()), Deregister(t)) && QueueInv(View())
    {
      QueueStepKeeps(View(), Deregister(t));
      assert waitingWriters > 0 by { assert registered != {}; }
      waitingWriters := waitingWriters - 1;
      registered := registered - {t};
    }

    method Write(ghost t: Thread) returns (acquired: bool)
      requires QueueInv(View()) && Outside(View(), t)
      modifies this
      ensures acquired == !old(active)
      ensures View() == QueueStep(old(View()), WriteEnter(t)) && QueueInv(View())
    {
      QueueStepKeeps(View(), WriteEnter(t));
      if active {
        return false;
      }
      active := true;
      writers := writers + {t};
      acquired := true;
    }

    method WriteDone(ghost t: Thread)
      requires QueueInv(View()) && t in writers
      modifies this
      ensures View() == QueueStep(old(View()), WriteExit(t)) && QueueInv(View())
    {
      QueueStepKeeps(View(), WriteExit(t));
      active := false;
      writers := writers - {t};
    }
  }
}
