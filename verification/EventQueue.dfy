/** The virtual-time event queue (sim-kernel/src/event.rs): a heap of deadlines with lazy
    cancellation, refined to a plain list of live events ordered by time and age. */
module EventQueue {
  import opened Prelude

  /** A live event: its deadline, its identifier and what it does when it fires. */
  datatype Pending<+E> = Pending(at: u64, id: nat, event: E)

  /** What the queue stands for: identifiers handed out so far, and the live events. */
  datatype Queue<+E> = Queue(nextId: nat, pending: seq<Pending<E>>)

  /** A heap entry (`Scheduled`). Entries outlive their event when it is cancelled. */
  datatype Scheduled = Scheduled(at: u64, seqNo: nat, id: nat)

  predicate Earlier(a: u64, m: nat, b: u64, n: nat) {
    a < b || (a == b && m < n)
  }

  function Insert<E>(s: seq<Pending<E>>, p: Pending<E>): seq<Pending<E>> {
    if s == [] || Earlier(p.at, p.id, s[0].at, s[0].id) then [p] + s
    else [s[0]] + Insert(s[1..], p)
  }

  function Without<E>(s: seq<Pending<E>>, id: nat): seq<Pending<E>> {
    if s == [] then []
    else if s[0].id == id then Without(s[1..], id)
    else [s[0]] + Without(s[1..], id)
  }

  ghost function Ids<E>(s: seq<Pending<E>>): set<nat> {
    set p | p in s :: p.id
  }

  function Schedule<E>(q: Queue<E>, at: u64, event: E): Queue<E> {
    Queue(q.nextId + 1, Insert(q.pending, Pending(at, q.nextId + 1, event)))
  }

  function Cancel<E>(q: Queue<E>, id: nat): Queue<E> {
    q.(pending := Without(q.pending, id))
  }

  function NextDeadline<E>(q: Queue<E>): Option<u64> {
    if q.pending == [] then None else Some(q.pending[0].at)
  }

  predicate HasDue<E>(q: Queue<E>, now: u64) {
    q.pending != [] && q.pending[0].at <= now
  }

  function PopDue<E>(q: Queue<E>, now: u64): (Queue<E>, Option<Pending<E>>) {
    if HasDue(q, now) then (q.(pending := q.pending[1..]), Some(q.pending[0])) else (q, None)
  }

  /** `head` comes before everything in `rest`. */
  ghost predicate Leads<E>(head: Pending<E>, rest: seq<Pending<E>>) {
    forall p | p in rest :: Earlier(head.at, head.id, p.at, p.id) && p.id != head.id
  }

  ghost predicate Ordered<E>(s: seq<Pending<E>>) {
    s == [] || (Leads(s[0], s[1..]) && Ordered(s[1..]))
  }

  ghost predicate WellFormed<E>(q: Queue<E>) {
    Ordered(q.pending) && Numbered(q.pending, q.nextId)
  }

  ghost predicate Numbered<E>(s: seq<Pending<E>>, last: nat) {
    forall p | p in s :: 1 <= p.id <= last
  }

  // ---- the list keeps its order and its elements ----

  lemma {:induction false} InsertKeeps<E>(s: seq<Pending<E>>, p: Pending<E>)
    requires Ordered(s) && forall x | x in s :: x.id != p.id
    ensures Ordered(Insert(s, p))
    ensures forall x :: x in Insert(s, p) <==> x == p || x in s
  {
    if s == [] {
    } else if Earlier(p.at, p.id, s[0].at, s[0].id) {
      assert ([p] + s)[1..] == s;
      assert s == [s[0]] + s[1..];
      assert Leads(p, s);
    } else {
      var rest := s[1..];
      assert s == [s[0]] + rest;
      assert s[0] in s;
      InsertKeeps(rest, p);
      var t := Insert(rest, p);
      assert ([s[0]] + t)[1..] == t;
      assert Leads(s[0], t);
    }
  }

  lemma {:induction false} WithoutKeeps<E>(s: seq<Pending<E>>, id: nat)
    requires Ordered(s)
    ensures Ordered(Without(s, id))
    ensures forall x :: x in Without(s, id) <==> x in s && x.id != id
  {
    if s != [] {
      var rest := s[1..];
      assert s == [s[0]] + rest;
      WithoutKeeps(rest, id);
      var t := Without(rest, id);
      assert ([s[0]] + t)[1..] == t;
      assert Leads(s[0], t);
    }
  }

  /** The head is the least live event: no other event is due before it, and among events of
      one instant it is the oldest. */
  lemma HeadIsLeast<E>(q: Queue<E>)
    requires WellFormed(q) && q.pending != []
    ensures forall p | p in q.pending ::
              p == q.pending[0] || Earlier(q.pending[0].at, q.pending[0].id, p.at, p.id)
    ensures NextDeadline(q) == Some(q.pending[0].at)
    ensures forall p | p in q.pending :: q.pending[0].at <= p.at
  {
    assert q.pending == [q.pending[0]] + q.pending[1..];
  }

  lemma NothingDue<E>(q: Queue<E>, now: u64)
    requires WellFormed(q)
    ensures HasDue(q, now) <==> exists p :: p in q.pending && p.at <= now
  {
    if q.pending != [] {
      HeadIsLeast(q);
      assert q.pending[0] in q.pending;
    }
  }

  lemma ScheduleKeeps<E>(q: Queue<E>, at: u64, event: E)
    requires WellFormed(q)
    ensures WellFormed(Schedule(q, at, event))
    ensures forall x :: x in Schedule(q, at, event).pending <==> x == Pending(at, q.nextId + 1, event) || x in q.pending
  {
    InsertKeeps(q.pending, Pending(at, q.nextId + 1, event));
    assert Numbered(Insert(q.pending, Pending(at, q.nextId + 1, event)), q.nextId + 1);
  }

  lemma CancelKeeps<E>(q: Queue<E>, id: nat)
    requires WellFormed(q)
    ensures WellFormed(Cancel(q, id))
    ensures forall x :: x in Cancel(q, id).pending <==> x in q.pending && x.id != id
  {
    WithoutKeeps(q.pending, id);
    assert Numbered(Without(q.pending, id), q.nextId);
  }

  lemma PopKeeps<E>(q: Queue<E>, now: u64)
    requires WellFormed(q)
    ensures WellFormed(PopDue(q, now).0)
    ensures HasDue(q, now) ==>
              forall x :: x in PopDue(q, now).0.pending <==> x in q.pending && x.id != q.pending[0].id
  {
    if q.pending != [] {
      assert q.pending == [q.pending[0]] + q.pending[1..];
    }
  }

  // ---- every event leaves the queue once ----

  datatype Call<+E> = DoSchedule(at: u64, event: E) | DoCancel(id: nat) | DoPop(now: u64)

  /** A queue with what became of the events that left it. */
  datatype History<+E> = History(queue: Queue<E>, popped: seq<Pending<E>>, cancelled: set<nat>)

  ghost function Invoke<E>(h: History<E>, call: Call<E>): History<E> {
    match call
    case DoSchedule(at, event) => h.(queue := Schedule(h.queue, at, event))
    case DoCancel(id) =>
      if exists p :: p in h.queue.pending && p.id == id
      then h.(queue := Cancel(h.queue, id), cancelled := h.cancelled + {id})
      else h
    case DoPop(now) =>
      var (q, out) := PopDue(h.queue, now);
      History(q, if out.Some? then h.popped + [out.value] else h.popped, h.cancelled)
  }

  ghost function InvokeAll<E>(calls: seq<Call<E>>): History<E> {
    if calls == [] then History(Queue(0, []), [], {})
    else Invoke(InvokeAll(calls[..|calls| - 1]), calls[|calls| - 1])
  }

  ghost predicate DistinctIds<E>(s: seq<Pending<E>>) {
    forall i, j | 0 <= i < j < |s| :: s[i].id != s[j].id
  }

  ghost function UpTo(n: nat): set<nat> {
    if n == 0 then {} else UpTo(n - 1) + {n}
  }

  lemma {:induction false} UpToMembers(n: nat)
    ensures forall i :: i in UpTo(n) <==> 1 <= i <= n
  {
    if n != 0 {
      UpToMembers(n - 1);
    }
  }

  ghost predicate OneExitEach<E>(h: History<E>) {
    WellFormed(h.queue) &&
    DistinctIds(h.popped) &&
    Ids(h.queue.pending) !! Ids(h.popped) !! h.cancelled &&
    Ids(h.queue.pending) + Ids(h.popped) + h.cancelled == UpTo(h.queue.nextId)
  }

  lemma IdsOf<E>(s: seq<Pending<E>>, t: seq<Pending<E>>, p: Pending<E>)
    requires forall x :: x in t <==> x == p || x in s
    ensures Ids(t) == Ids(s) + {p.id}
  {
    assert p in t;
    forall i | i in Ids(s) ensures i in Ids(t) {
      var x :| x in s && x.id == i;
      assert x in t;
    }
  }

  lemma IdsLess<E>(s: seq<Pending<E>>, t: seq<Pending<E>>, id: nat)
    requires forall x :: x in t <==> x in s && x.id != id
    ensures Ids(t) == Ids(s) - {id}
  {
    forall i | i in Ids(s) && i != id ensures i in Ids(t) {
      var x :| x in s && x.id == i;
      assert x in t;
    }
  }

  lemma PopLeavesOnce<E>(h: History<E>, now: u64)
    requires OneExitEach(h) && HasDue(h.queue, now)
    ensures OneExitEach(Invoke(h, DoPop(now)))
  {
    var q := h.queue;
    var head := q.pending[0];
    assert head in q.pending && head.id in Ids(q.pending);
    PopKeeps(q, now);
    IdsLess(q.pending, PopDue(q, now).0.pending, head.id);
    var popped := h.popped + [head];
    IdsOf(h.popped, popped, head);
    forall i | 0 <= i < |h.popped| ensures popped[i].id != head.id {
      assert h.popped[i] in h.popped;
      assert h.popped[i].id in Ids(h.popped);
    }
  }

  lemma InvokeKeeps<E>(h: History<E>, call: Call<E>)
    requires OneExitEach(h)
    ensures OneExitEach(Invoke(h, call))
  {
    var q := h.queue;
    match call
    case DoSchedule(at, event) =>
      ScheduleKeeps(q, at, event);
      IdsOf(q.pending, Schedule(q, at, event).pending, Pending(at, q.nextId + 1, event));
      UpToMembers(q.nextId);
    case DoCancel(id) =>
      if exists p :: p in q.pending && p.id == id {
        CancelKeeps(q, id);
        IdsLess(q.pending, Cancel(q, id).pending, id);
        assert id in Ids(q.pending);
      }
    case DoPop(now) =>
      if HasDue(q, now) {
        PopLeavesOnce(h, now);
      }
  }

  /** Over any calls: every identifier handed out is, at any moment, exactly one of live,
      popped or cancelled, and no event is popped twice. */
  lemma {:induction false} EachEventLeavesOnce<E>(calls: seq<Call<E>>)
    ensures OneExitEach(InvokeAll(calls))
  {
    if calls != [] {
      EachEventLeavesOnce(calls[..|calls| - 1]);
      InvokeKeeps(InvokeAll(calls[..|calls| - 1]), calls[|calls| - 1]);
    }
  }

  // ---- the heap with lazy cancellation ----

  /** `BinaryHeap::push`, seen through the order in which the heap will be popped. */
  function Push(heap: seq<Scheduled>, s: Scheduled): seq<Scheduled> {
    if heap == [] || Earlier(s.at, s.seqNo, heap[0].at, heap[0].seqNo) then [s] + heap
    else [heap[0]] + Push(heap[1..], s)
  }

  ghost function HeapIds(heap: seq<Scheduled>): set<nat> {
    set s | s in heap :: s.id
  }

  /** `top` pops before everything in `rest`. */
  ghost predicate Tops(top: Scheduled, rest: seq<Scheduled>) {
    forall s | s in rest :: Earlier(top.at, top.seqNo, s.at, s.seqNo) && s.id != top.id
  }

  ghost predicate HeapWellFormed(heap: seq<Scheduled>, last: nat) {
    heap == [] ||
    (heap[0].seqNo == heap[0].id && 1 <= heap[0].id <= last && Tops(heap[0], heap[1..]) &&
     HeapWellFormed(heap[1..], last))
  }

  lemma {:induction false} HeapBelow(heap: seq<Scheduled>, last: nat)
    requires HeapWellFormed(heap, last)
    ensures forall s | s in heap :: s.seqNo == s.id && 1 <= s.id <= last
  {
    if heap != [] {
      HeapBelow(heap[1..], last);
      assert heap == [heap[0]] + heap[1..];
    }
  }

  lemma {:induction false} HeapWiden(heap: seq<Scheduled>, last: nat)
    requires HeapWellFormed(heap, last)
    ensures HeapWellFormed(heap, last + 1)
  {
    if heap != [] {
      HeapWiden(heap[1..], last);
    }
  }

  lemma {:induction false} PushKeeps(heap: seq<Scheduled>, s: Scheduled, last: nat)
    requires HeapWellFormed(heap, last) && s.id == s.seqNo == last + 1
    ensures HeapWellFormed(Push(heap, s), last + 1)
    ensures forall x :: x in Push(heap, s) <==> x == s || x in heap
  {
    HeapBelow(heap, last);
    HeapWiden(heap, last);
    if heap == [] {
    } else if Earlier(s.at, s.seqNo, heap[0].at, heap[0].seqNo) {
      assert ([s] + heap)[1..] == heap;
      assert heap == [heap[0]] + heap[1..];
      assert Tops(s, heap);
    } else {
      var rest := heap[1..];
      assert heap == [heap[0]] + rest;
      assert heap[0] in heap;
      PushKeeps(rest, s, last);
      var t := Push(rest, s);
      assert ([heap[0]] + t)[1..] == t;
      assert Tops(heap[0], t);
    }
  }

  /** The live entries of the heap, each with its event. */
  ghost function Live<E>(heap: seq<Scheduled>, events: map<nat, E>): seq<Pending<E>> {
    if heap == [] then []
    else if heap[0].id in events
    then [Pending(heap[0].at, heap[0].id, events[heap[0].id])] + Live(heap[1..], events)
    else Live(heap[1..], events)
  }

  /** Pushing an entry and adding its event is insertion into the live list. */
  lemma {:induction false} LivePush<E>(heap: seq<Scheduled>, s: Scheduled, events: map<nat, E>, event: E, last: nat)
    requires HeapWellFormed(heap, last) && s.id == s.seqNo == last + 1
    ensures Live(Push(heap, s), events[s.id := event]) == Insert(Live(heap, events), Pending(s.at, s.id, event))
  {
    HeapBelow(heap, last);
    var more := events[s.id := event];
    var p := Pending(s.at, s.id, event);
    if heap == [] || Earlier(s.at, s.seqNo, heap[0].at, heap[0].seqNo) {
      LiveSame(heap, events, more);
      assert ([s] + heap)[1..] == heap;
      LiveFromHeap(heap, events);
      var live := Live(heap, events);
      if live != [] {
        assert live[0] in live;
        var e :| e in heap && e.at == live[0].at && e.id == live[0].id;
        assert heap == [heap[0]] + heap[1..];
        assert Earlier(p.at, p.id, live[0].at, live[0].id);
      }
    } else {
      var rest := heap[1..];
      assert heap[0] in heap;
      LivePush(rest, s, events, event, last);
      var t := Push(rest, s);
      assert ([heap[0]] + t)[1..] == t;
      if heap[0].id in events {
        var first := Pending(heap[0].at, heap[0].id, events[heap[0].id]);
        assert ([first] + Live(rest, events))[1..] == Live(rest, events);
      }
    }
  }

  lemma {:induction false} LiveSame<E>(heap: seq<Scheduled>, a: map<nat, E>, b: map<nat, E>)
    requires forall s | s in heap :: (s.id in a <==> s.id in b) && (s.id in a ==> a[s.id] == b[s.id])
    ensures Live(heap, a) == Live(heap, b)
  {
    if heap != [] {
      assert heap[0] in heap;
      LiveSame(heap[1..], a, b);
    }
  }

  lemma {:induction false} LiveFromHeap<E>(heap: seq<Scheduled>, events: map<nat, E>)
    ensures forall p | p in Live(heap, events) ::
              p.id in events && events[p.id] == p.event && exists s :: s in heap && s.at == p.at && s.id == p.id
    ensures forall s | s in heap && s.id in events :: Pending(s.at, s.id, events[s.id]) in Live(heap, events)
  {
    if heap != [] {
      LiveFromHeap(heap[1..], events);
      assert heap == [heap[0]] + heap[1..];
    }
  }

  lemma {:induction false} LiveRemove<E>(heap: seq<Scheduled>, events: map<nat, E>, id: nat)
    ensures Live(heap, events - {id}) == Without(Live(heap, events), id)
  {
    if heap != [] {
      LiveRemove(heap[1..], events, id);
      if heap[0].id in events {
        var tail := Live(heap[1..], events);
        assert ([Pending(heap[0].at, heap[0].id, events[heap[0].id])] + tail)[1..] == tail;
      }
    }
  }

  lemma {:induction false} LiveIsWellFormed<E>(heap: seq<Scheduled>, events: map<nat, E>, last: nat)
    requires HeapWellFormed(heap, last)
    ensures WellFormed(Queue(last, Live(heap, events)))
  {
    if heap != [] {
      HeapBelow(heap, last);
      assert heap == [heap[0]] + heap[1..];
      LiveIsWellFormed(heap[1..], events, last);
      LiveFromHeap(heap[1..], events);
      if heap[0].id in events {
        var first := Pending(heap[0].at, heap[0].id, events[heap[0].id]);
        var rest := Live(heap[1..], events);
        assert ([first] + rest)[1..] == rest;
        assert Leads(first, rest);
      }
    }
  }

  /** Heap entries are the disjoint union of live and cancelled events. */
  ghost predicate Consistent(heap: seq<Scheduled>, live: set<nat>, cancelled: set<nat>, last: nat) {
    HeapWellFormed(heap, last) && live !! cancelled && HeapIds(heap) == live + cancelled
  }

  lemma PushConsistent(heap: seq<Scheduled>, s: Scheduled, live: set<nat>, cancelled: set<nat>, last: nat)
    requires Consistent(heap, live, cancelled, last) && s.id == s.seqNo == last + 1
    ensures Consistent(Push(heap, s), live + {s.id}, cancelled, last + 1)
  {
    HeapBelow(heap, last);
    PushKeeps(heap, s, last);
    var t := Push(heap, s);
    assert s.id !in HeapIds(heap);
    assert HeapIds(t) == HeapIds(heap) + {s.id} by {
      assert s in t;
      forall i | i in HeapIds(heap) ensures i in HeapIds(t) {
        var x :| x in heap && x.id == i;
        assert x in t;
      }
    }
  }

  lemma TopConsistent(heap: seq<Scheduled>, live: set<nat>, cancelled: set<nat>, last: nat)
    requires Consistent(heap, live, cancelled, last) && heap != []
    ensures var id := heap[0].id;
            id in live + cancelled && id !in HeapIds(heap[1..]) &&
            Consistent(heap[1..], live - {id}, cancelled - {id}, last)
  {
    var id := heap[0].id;
    assert heap == [heap[0]] + heap[1..];
    assert heap[0] in heap && id in HeapIds(heap);
    assert id !in HeapIds(heap[1..]);
    assert HeapIds(heap) == HeapIds(heap[1..]) + {id};
  }

  class EventQueue<E> {
    var nextId: nat
    var nextSeq: nat
    var heap: seq<Scheduled>
    var events: map<nat, E>
    var cancelled: set<nat>

    ghost predicate Valid()
      reads this
    {
      nextSeq == nextId && Consistent(heap, events.Keys, cancelled, nextId)
    }

    ghost function View(): (q: Queue<E>)
      reads this
    {
      Queue(nextId, Live(heap, events))
    }

    lemma ViewIsWellFormed()
      requires Valid()
      ensures WellFormed(View())
    {
      LiveIsWellFormed(heap, events, nextId);
    }

    constructor ()
      ensures Valid() && View() == Queue(0, [])
    {
      nextId, nextSeq, heap, events, cancelled := 0, 0, [], map[], {};
    }

    method ScheduleEvent(at: u64, event: E) returns (id: nat)
      requires Valid()
      modifies this
      ensures Valid() && View() == Schedule(old(View()), at, event)
      ensures id == View().nextId
    {
      nextId := nextId + 1;
      nextSeq := nextSeq + 1;
      id := nextId;
      var entry := Scheduled(at, nextSeq, id);
      PushConsistent(heap, entry, events.Keys, cancelled, nextId - 1);
      LivePush(heap, entry, events, event, nextId - 1);
      heap := Push(heap, entry);
      events := events[id := event];
    }

    method CancelEvent(id: nat) returns (found: bool)
      requires Valid()
      modifies this
      ensures Valid() && View() == Cancel(old(View()), id)
      ensures found <==> id in Ids(old(View()).pending)
    {
      LiveFromHeap(heap, events);
      LiveRemove(heap, events, id);
      if id in events {
        assert id in HeapIds(heap);
        var entry :| entry in heap && entry.id == id;
        assert Pending(entry.at, id, events[id]) in View().pending;
        events := events - {id};
        cancelled := cancelled + {id};
        found := true;
      } else {
        assert events - {id} == events;
        found := false;
      }
    }

    method DropStale()
      requires Valid()
      modifies this
      ensures Valid() && View() == old(View())
      ensures heap != [] ==> heap[0].id in events
      ensures heap == [] <==> View().pending == []
      ensures heap != [] ==> View().pending[0] == Pending(heap[0].at, heap[0].id, events[heap[0].id])
    {
      while heap != [] && (heap[0].id in cancelled || heap[0].id !in events)
        invariant Valid() && View() == old(View())
        decreases |heap|
      {
        TopConsistent(heap, events.Keys, cancelled, nextId);
        assert events.Keys - {heap[0].id} == events.Keys;
        cancelled := cancelled - {heap[0].id};
        heap := heap[1..];
      }
    }

    method NextDeadlineOf() returns (at: Option<u64>)
      requires Valid()
      modifies this
      ensures Valid() && View() == old(View())
      ensures at == NextDeadline(View())
      ensures at.Some? ==> forall p | p in View().pending :: at.value <= p.at
    {
      DropStale();
      ViewIsWellFormed();
      if heap == [] {
        at := None;
      } else {
        HeadIsLeast(View());
        at := Some(heap[0].at);
      }
    }

    method PopDueEvent(now: u64) returns (out: Option<Pending<E>>)
      requires Valid()
      modifies this
      ensures Valid() && (View(), out) == PopDue(old(View()), now)
      ensures out.None? <==> forall p | p in old(View()).pending :: now < p.at
    {
      DropStale();
      ViewIsWellFormed();
      NothingDue(View(), now);
      if heap == [] || heap[0].at > now {
        return None;
      }
      var item := heap[0];
      TopConsistent(heap, events.Keys, cancelled, nextId);
      LiveSame(heap[1..], events, events - {item.id}) by {
        assert forall s | s in heap[1..] :: s.id in HeapIds(heap[1..]);
      }
      out := Some(Pending(item.at, item.id, events[item.id]));
      heap := heap[1..];
      events := events - {item.id};
    }
  }
}
