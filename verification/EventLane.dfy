/** The event lane: pulses sent as 0, 1, 0, serialised per path, kept in four structures
    (a heap with stale entries, per-path deques, a creation-order map and a counter). */
module EventLane {
  import opened OrderedDict
  import opened Osc

  // stage is the next send: 0 sends "0", 1 sends "1", 2 sends "0", 3 is done.
  datatype Pulse = Pulse(path: string, stage: nat, dropped: bool)

  // A heap entry; the heap yields the least (due, tie) first.
  datatype Entry = Entry(due: int, tie: nat, id: nat)

  datatype Lane = Lane(
    heap: set<Entry>,
    seqNo: nat,
    byPath: map<string, seq<nat>>,
    order: seq<nat>,
    pulses: map<nat, Pulse>,
    pending: int,
    dropped: nat,
    edges: nat
  )

  const EMPTY := Lane({}, 0, map[], [], map[], 0, 0, 0)

  predicate Live(p: Pulse) {
    !p.dropped && p.stage < 3
  }

  // ------------------------------------------------------------ operations

  function Remove(s: seq<nat>, x: nat): seq<nat> {
    if s == [] then []
    else
      var rest := Remove(s[..|s| - 1], x);
      if s[|s| - 1] == x then rest else rest + [s[|s| - 1]]
  }

  // OscRelay._schedule
  function Schedule(l: Lane, id: nat, due: int): Lane {
    l.(seqNo := l.seqNo + 1, heap := l.heap + {Entry(due, l.seqNo + 1, id)})
  }

  // Take a pulse out of the creation order and of its path's deque.
  function Unlink(l: Lane, id: nat): Lane
    requires id in l.pulses
  {
    var path := l.pulses[id].path;
    var l1 := l.(order := Remove(l.order, id));
    if path !in l.byPath then l1
    else
      var rest := Remove(l.byPath[path], id);
      l1.(byPath := if rest == [] then l.byPath - {path} else l.byPath[path := rest])
  }

  // The head of a path has just changed: its turn starts now.
  function StartHead(l: Lane, path: string, now: int): Lane {
    if path in l.byPath && l.byPath[path] != [] then Schedule(l, l.byPath[path][0], now) else l
  }

  predicate IsHead(l: Lane, id: nat)
    requires id in l.pulses
  {
    var path := l.pulses[id].path;
    path in l.byPath && l.byPath[path] != [] && l.byPath[path][0] == id
  }

  // The pulse is out: flagged, uncounted and unlinked.
  function Dropped(l: Lane, id: nat): Lane
    requires id in l.pulses
  {
    var p := l.pulses[id];
    Unlink(l, id).(
      pulses := l.pulses[id := p.(dropped := true)],
      pending := l.pending - (3 - p.stage),
      dropped := l.dropped + 1)
  }

  // OscRelay._drop
  function Drop(l: Lane, id: nat, now: int): Lane
    requires id in l.pulses
  {
    if IsHead(l, id) then StartHead(Dropped(l, id), l.pulses[id].path, now) else Dropped(l, id)
  }

  // The oldest pulse whose 1 has not gone out.
  function Oldest(order: seq<nat>, pulses: map<nat, Pulse>): (r: Option<nat>)
    ensures r.Some? ==> r.value in order && r.value in pulses && pulses[r.value].stage < 2
  {
    if order == [] then None
    else if order[0] in pulses && pulses[order[0]].stage < 2 then Some(order[0])
    else Oldest(order[1..], pulses)
  }

  // The overflow loop of OscRelay._add_pulse; false when nothing can be dropped.
  function MakeRoom(l: Lane, now: int): (Lane, bool)
    decreases |l.order|
  {
    if l.pending + 3 <= EVENT_CAP then (l, true)
    else
      match Oldest(l.order, l.pulses)
      case None => (l.(dropped := l.dropped + 1), false)
      case Some(id) =>
        RemoveShrinks(l.order, id);
        MakeRoom(Drop(l, id, now), now)
  }

  // A new pulse at the end of its path's deque.
  function Appended(l: Lane, path: string): Lane {
    var id := l.seqNo + 1;
    l.(seqNo := id, order := l.order + [id], pending := l.pending + 3,
       pulses := l.pulses[id := Pulse(path, 0, false)],
       byPath := l.byPath[path := (if path in l.byPath then l.byPath[path] else []) + [id]])
  }

  function Append(l: Lane, path: string, now: int): Lane {
    if path in l.byPath && l.byPath[path] != [] then Appended(l, path)
    else Schedule(Appended(l, path), l.seqNo + 1, now)
  }

  // OscRelay._add_pulse
  function AddPulse(l: Lane, path: string, now: int): Lane {
    var (room, ok) := MakeRoom(l, now);
    if ok then Append(room, path, now) else room
  }

  function Pop(l: Lane, e: Entry): Lane {
    l.(heap := l.heap - {e})
  }

  function Advance(l: Lane, id: nat): Lane
    requires id in l.pulses
  {
    var p := l.pulses[id];
    l.(pulses := l.pulses[id := p.(stage := p.stage + 1)], pending := l.pending - 1,
       edges := if p.stage == 1 then l.edges + 1 else l.edges)
  }

  // OscRelay._send_event, once its entry is popped; `sent` is read after the send.
  function SendEvent(l: Lane, id: nat, sent: int): Lane
    requires id in l.pulses
  {
    var p := l.pulses[id];
    var l1 := Advance(l, id);
    if p.stage == 0 then Schedule(l1, id, sent + PULSE_GAP)
    else if p.stage == 1 then Schedule(l1, id, sent + PULSE_HOLD)
    else StartHead(Unlink(l1, id), p.path, sent)
  }

  // heapq order: by due time, then by sequence number.
  predicate Before(e: Entry, f: Entry) {
    e.due < f.due || (e.due == f.due && e.tie <= f.tie)
  }

  ghost predicate IsTop(heap: set<Entry>, e: Entry) {
    e in heap && forall f :: f in heap ==> Before(e, f)
  }

  lemma {:induction false} TopExists(heap: set<Entry>)
    requires heap != {}
    ensures exists e :: IsTop(heap, e)
    decreases |heap|
  {
    var e :| e in heap;
    if heap == {e} {
      assert IsTop(heap, e);
    } else {
      TopExists(heap - {e});
      var f :| IsTop(heap - {e}, f);
      assert forall g :: g in heap ==> g == e || g in heap - {e};
      assert IsTop(heap, if Before(e, f) then e else f);
    }
  }

  // heap[0]
  ghost function Top(heap: set<Entry>): (e: Entry)
    requires heap != {}
    ensures IsTop(heap, e)
  {
    TopExists(heap);
    var e :| IsTop(heap, e);
    e
  }

  lemma {:induction false} RemoveShrinks(s: seq<nat>, x: nat)
    ensures |Remove(s, x)| <= |s|
    ensures x in s ==> |Remove(s, x)| < |s|
  {
    if s != [] {
      assert s == s[..|s| - 1] + [s[|s| - 1]];
      RemoveShrinks(s[..|s| - 1], x);
    }
  }

  // ------------------------------------------------------------ coherence

  ghost predicate Increasing(s: seq<nat>) {
    forall i, j :: 0 <= i < j < |s| ==> s[i] < s[j]
  }

  ghost predicate PulsesOk(l: Lane) {
    forall id :: id in l.pulses ==> id <= l.seqNo && l.pulses[id].stage <= 3
  }

  // `_order` holds exactly the live pulses, oldest first.
  ghost predicate OrderOk(l: Lane) {
    && Increasing(l.order)
    && (forall id :: id in l.order <==> id in l.pulses && Live(l.pulses[id]))
  }

  ghost predicate DequeOk(l: Lane, path: string, dq: seq<nat>) {
    && dq != []
    && Increasing(dq)
    && (forall id :: id in dq <==> id in l.pulses && Live(l.pulses[id]) && l.pulses[id].path == path)
  }

  // The deques split the live pulses by path, oldest first, and none is empty.
  ghost predicate PathsOk(l: Lane) {
    && (forall path :: path in l.byPath ==> DequeOk(l, path, l.byPath[path]))
    && (forall id :: id in l.pulses && Live(l.pulses[id]) ==> l.pulses[id].path in l.byPath)
  }

  // Only the head of a path has begun to go out.
  ghost predicate StagesOk(l: Lane) {
    forall id :: id in l.pulses && Live(l.pulses[id]) && l.pulses[id].stage > 0 ==> IsHead(l, id)
  }

  ghost predicate HasEntry(l: Lane, id: nat) {
    exists e :: e in l.heap && e.id == id
  }

  // One entry per pulse at most; among the live pulses, exactly the heads have one, except
  // the heads of the paths in `idle`.
  ghost predicate HeapOk(l: Lane, idle: set<string>) {
    && (forall e :: e in l.heap ==> e.id in l.pulses && e.tie <= l.seqNo)
    && (forall e, f :: e in l.heap && f in l.heap && (e.id == f.id || e.tie == f.tie) ==> e == f)
    && (forall id :: id in l.pulses && Live(l.pulses[id]) ==>
          (HasEntry(l, id) <==> IsHead(l, id) && l.pulses[id].path !in idle))
  }

  ghost predicate CountOk(l: Lane) {
    l.pending == Total(l.order, l.pulses, OWED) && l.pending <= EVENT_CAP
  }

  ghost predicate Coherent(l: Lane) {
    PulsesOk(l) && OrderOk(l) && PathsOk(l) && StagesOk(l) && HeapOk(l, {}) && CountOk(l)
  }

  // Weights by stage: the sends still owed, and the 1s whose trailing 0 is owed.
  const OWED: nat -> int := (stage: nat) => 3 - stage
  const RAISED: nat -> int := (stage: nat) => if stage == 2 then 1 else 0

  function Weight(id: nat, pulses: map<nat, Pulse>, w: nat -> int): int {
    if id in pulses then w(pulses[id].stage) else 0
  }

  function Total(order: seq<nat>, pulses: map<nat, Pulse>, w: nat -> int): int {
    if order == [] then 0
    else Total(order[..|order| - 1], pulses, w) + Weight(order[|order| - 1], pulses, w)
  }

  // ------------------------------------------------------------ sequences

  lemma {:induction false} RemoveFacts(s: seq<nat>, x: nat)
    requires Increasing(s)
    ensures forall y :: y in Remove(s, x) <==> y in s && y != x
    ensures Increasing(Remove(s, x))
    ensures |Remove(s, x)| == if x in s then |s| - 1 else |s|
  {
    if s != [] {
      var t, last := s[..|s| - 1], s[|s| - 1];
      RemoveFacts(t, x);
      assert s == t + [last];
      var r := Remove(t, x);
      forall i | 0 <= i < |r| ensures r[i] < last {
        assert r[i] in r;
      }
      assert last !in t;
    }
  }

  lemma {:induction false} RemoveHead(s: seq<nat>, x: nat)
    requires s != [] && Increasing(s)
    ensures s[0] == x ==> Remove(s, x) == s[1..]
    ensures s[0] != x ==> Remove(s, x) != [] && Remove(s, x)[0] == s[0]
  {
    if |s| > 1 {
      var t := s[..|s| - 1];
      RemoveHead(t, x);
      assert s[1..] == t[1..] + [s[|s| - 1]];
    }
  }

  lemma {:induction false} RemoveAbsent(s: seq<nat>, x: nat)
    requires x !in s
    ensures Remove(s, x) == s
  {
    if s != [] {
      assert s == s[..|s| - 1] + [s[|s| - 1]];
      RemoveAbsent(s[..|s| - 1], x);
    }
  }

  lemma {:induction false} TotalFrame(order: seq<nat>, p: map<nat, Pulse>, q: map<nat, Pulse>, w: nat -> int)
    requires forall id :: id in order ==> Weight(id, p, w) == Weight(id, q, w)
    ensures Total(order, p, w) == Total(order, q, w)
  {
    if order != [] {
      assert order == order[..|order| - 1] + [order[|order| - 1]];
      TotalFrame(order[..|order| - 1], p, q, w);
    }
  }

  lemma {:induction false} TotalRemove(order: seq<nat>, p: map<nat, Pulse>, x: nat, w: nat -> int)
    requires Increasing(order) && x in order
    ensures Total(Remove(order, x), p, w) == Total(order, p, w) - Weight(x, p, w)
  {
    var t, last := order[..|order| - 1], order[|order| - 1];
    assert order == t + [last];
    if last == x {
      assert x !in t;
      RemoveAbsent(t, x);
    } else {
      TotalRemove(t, p, x, w);
      assert (Remove(t, x) + [last])[..|Remove(t, x)|] == Remove(t, x);
    }
  }

  lemma {:induction false} TotalChange(order: seq<nat>, p: map<nat, Pulse>, q: map<nat, Pulse>, x: nat, w: nat -> int)
    requires Increasing(order) && x in order
    requires forall id :: id in order && id != x ==> Weight(id, p, w) == Weight(id, q, w)
    ensures Total(order, q, w) == Total(order, p, w) + Weight(x, q, w) - Weight(x, p, w)
  {
    var t, last := order[..|order| - 1], order[|order| - 1];
    assert order == t + [last];
    if last == x {
      assert x !in t;
      TotalFrame(t, p, q, w);
    } else {
      TotalChange(t, p, q, x, w);
    }
  }

  lemma {:induction false} OwedBounds(order: seq<nat>, p: map<nat, Pulse>)
    requires forall id :: id in order ==> 1 <= Weight(id, p, OWED) <= 3
    ensures |order| <= Total(order, p, OWED) <= 3 * |order|
  {
    if order != [] {
      assert order == order[..|order| - 1] + [order[|order| - 1]];
      OwedBounds(order[..|order| - 1], p);
    }
  }

  /** Overflow takes the oldest pulse that may go, and stops only when none may. */
  lemma {:induction false} OldestIsOldest(order: seq<nat>, pulses: map<nat, Pulse>)
    requires Increasing(order) && forall id :: id in order ==> id in pulses
    ensures match Oldest(order, pulses)
            case Some(id) => forall j :: j in order && pulses[j].stage < 2 ==> id <= j
            case None => forall j :: j in order ==> pulses[j].stage >= 2
  {
    if order != [] {
      assert order == [order[0]] + order[1..];
      OldestIsOldest(order[1..], pulses);
    }
  }

  // ------------------------------------------------------------ each operation keeps it

  // `id` has left: it is no longer live, and nothing else changed in the pulses.
  ghost predicate Retired(l: Lane, l': Lane, id: nat)
    requires id in l.pulses
  {
    && l'.pulses.Keys == l.pulses.Keys
    && (forall j :: j in l.pulses && j != id ==> l'.pulses[j] == l.pulses[j])
    && !Live(l'.pulses[id]) && l'.pulses[id].stage <= 3 && l'.pulses[id].path == l.pulses[id].path
    && l'.order == Remove(l.order, id) && l'.byPath == Unlink(l, id).byPath
    && l'.heap == l.heap && l'.seqNo == l.seqNo
  }

  lemma RetiredOrder(l: Lane, l': Lane, id: nat)
    requires PulsesOk(l) && OrderOk(l) && id in l.pulses && Live(l.pulses[id]) && Retired(l, l', id)
    ensures PulsesOk(l') && OrderOk(l')
  {
    RemoveFacts(l.order, id);
  }

  lemma RetiredHeads(l: Lane, l': Lane, id: nat)
    requires PathsOk(l) && id in l.pulses && Live(l.pulses[id]) && Retired(l, l', id)
    ensures forall j :: j in l.pulses && j != id && Live(l.pulses[j]) && IsHead(l, j) ==> IsHead(l', j)
    ensures !IsHead(l, id) ==> forall j :: j in l.pulses && j != id && IsHead(l', j) ==> IsHead(l, j)
  {
    var path := l.pulses[id].path;
    var dq := l.byPath[path];
    assert DequeOk(l, path, dq);
    RemoveHead(dq, id);
  }

  lemma RetiredPaths(l: Lane, l': Lane, id: nat)
    requires PathsOk(l) && id in l.pulses && Live(l.pulses[id]) && Retired(l, l', id)
    ensures PathsOk(l')
  {
    var path := l.pulses[id].path;
    var dq := l.byPath[path];
    assert DequeOk(l, path, dq);
    RemoveFacts(dq, id);
    forall p | p in l'.byPath ensures DequeOk(l', p, l'.byPath[p]) {
      assert DequeOk(l, p, l.byPath[p]);
    }
    forall j | j in l'.pulses && Live(l'.pulses[j]) ensures l'.pulses[j].path in l'.byPath {
      if l.pulses[j].path == path { assert j in Remove(dq, id); }
    }
  }

  lemma RetiredStages(l: Lane, l': Lane, id: nat)
    requires PathsOk(l) && StagesOk(l) && id in l.pulses && Live(l.pulses[id]) && Retired(l, l', id)
    ensures StagesOk(l')
  {
    RetiredHeads(l, l', id);
  }

  lemma RetiredHeap(l: Lane, l': Lane, id: nat, idle: set<string>)
    requires PathsOk(l) && id in l.pulses && Live(l.pulses[id]) && Retired(l, l', id)
    requires HeapOk(l, idle) && idle <= (if IsHead(l, id) then {l.pulses[id].path} else {})
    ensures HeapOk(l', if IsHead(l, id) then {l.pulses[id].path} else {})
  {
    RetiredHeads(l, l', id);
    forall j | j in l'.pulses && Live(l'.pulses[j])
      ensures HasEntry(l', j) <==>
              IsHead(l', j) && !(IsHead(l, id) && l'.pulses[j].path == l.pulses[id].path)
    {
      assert HasEntry(l', j) <==> HasEntry(l, j);
    }
  }

  // Scheduling touches only the heap and the sequence number.
  lemma ScheduleRest(l: Lane, id: nat, due: int)
    requires PulsesOk(l) && OrderOk(l) && PathsOk(l) && StagesOk(l) && CountOk(l)
    ensures var l' := Schedule(l, id, due);
            PulsesOk(l') && OrderOk(l') && PathsOk(l') && StagesOk(l') && CountOk(l')
  {
    var l' := Schedule(l, id, due);
    assert forall p :: p in l.byPath ==> DequeOk(l, p, l.byPath[p]) && DequeOk(l', p, l.byPath[p]);
    assert forall j :: j in l.pulses && IsHead(l, j) ==> IsHead(l', j);
  }

  lemma ScheduleHeap(l: Lane, id: nat, due: int)
    requires PathsOk(l) && id in l.pulses && Live(l.pulses[id]) && IsHead(l, id)
    requires HeapOk(l, {l.pulses[id].path})
    ensures HeapOk(Schedule(l, id, due), {})
  {
    var l' := Schedule(l, id, due);
    var x := Entry(due, l.seqNo + 1, id);
    assert x in l'.heap;
    assert !HasEntry(l, id);
    forall j | j in l'.pulses && Live(l'.pulses[j]) ensures HasEntry(l', j) <==> IsHead(l', j) {
      assert IsHead(l', j) <==> IsHead(l, j);
      if HasEntry(l, j) {
        var e :| e in l.heap && e.id == j;
        assert e in l'.heap;
      }
      assert j != id ==> (HasEntry(l', j) <==> HasEntry(l, j));
      assert IsHead(l, j) && l.pulses[j].path == l.pulses[id].path ==> j == id;
    }
  }

  // A path whose head waits gets its entry back; a path that is gone needs none.
  lemma StartHeadCoherent(l: Lane, path: string, now: int)
    requires PulsesOk(l) && OrderOk(l) && PathsOk(l) && StagesOk(l) && CountOk(l) && HeapOk(l, {path})
    ensures Coherent(StartHead(l, path, now))
  {
    if path in l.byPath {
      assert DequeOk(l, path, l.byPath[path]);
      var id := l.byPath[path][0];
      assert id in l.byPath[path];
      ScheduleRest(l, id, now);
      ScheduleHeap(l, id, now);
    } else {
      GonePathHeap(l, path);
    }
  }

  lemma GonePathHeap(l: Lane, path: string)
    requires HeapOk(l, {path}) && path !in l.byPath
    ensures HeapOk(l, {})
  {}

  lemma DroppedCoherent(l: Lane, id: nat)
    requires Coherent(l) && id in l.order && id in l.pulses
    ensures var l' := Dropped(l, id);
            && PulsesOk(l') && OrderOk(l') && PathsOk(l') && StagesOk(l') && CountOk(l')
            && HeapOk(l', if IsHead(l, id) then {l.pulses[id].path} else {})
  {
    var l' := Dropped(l, id);
    DroppedCount(l, id);
    hide DequeOk, HasEntry, CountOk;
    RetiredOrder(l, l', id);
    RetiredPaths(l, l', id);
    RetiredStages(l, l', id);
    RetiredHeap(l, l', id, {});
  }

  lemma DroppedCount(l: Lane, id: nat)
    requires OrderOk(l) && CountOk(l) && id in l.order && id in l.pulses
    ensures CountOk(Dropped(l, id))
  {
    var l' := Dropped(l, id);
    TotalRemove(l.order, l.pulses, id, OWED);
    RemoveFacts(l.order, id);
    TotalFrame(l'.order, l.pulses, l'.pulses, OWED);
  }

  lemma DropCoherent(l: Lane, id: nat, now: int)
    requires Coherent(l) && id in l.order && id in l.pulses
    ensures Coherent(Drop(l, id, now))
  {
    DroppedCoherent(l, id);
    hide PulsesOk, OrderOk, PathsOk, StagesOk, HeapOk, CountOk;
    if IsHead(l, id) { StartHeadCoherent(Dropped(l, id), l.pulses[id].path, now); }
  }

  lemma RefusedCoherent(l: Lane)
    requires Coherent(l)
    ensures Coherent(l.(dropped := l.dropped + 1))
  {
    var l' := l.(dropped := l.dropped + 1);
    assert forall p :: p in l.byPath ==> DequeOk(l, p, l.byPath[p]) && DequeOk(l', p, l.byPath[p]);
    assert forall j :: j in l.pulses ==> (IsHead(l, j) <==> IsHead(l', j));
    assert forall j :: HasEntry(l, j) <==> HasEntry(l', j);
  }

  lemma {:induction false} MakeRoomCoherent(l: Lane, now: int)
    requires Coherent(l)
    ensures Coherent(MakeRoom(l, now).0)
    ensures MakeRoom(l, now).1 ==> MakeRoom(l, now).0.pending + 3 <= 6000
    decreases |l.order|
  {
    if l.pending + 3 > EVENT_CAP {
      match Oldest(l.order, l.pulses)
      case None => RefusedCoherent(l);
      case Some(id) =>
        hide Coherent;
        RemoveShrinks(l.order, id);
        DropCoherent(l, id, now);
        MakeRoomCoherent(Drop(l, id, now), now);
    }
  }

  lemma AppendedCoherent(l: Lane, path: string)
    requires Coherent(l) && l.pending + 3 <= EVENT_CAP
    ensures var l' := Appended(l, path);
            && PulsesOk(l') && OrderOk(l') && PathsOk(l') && StagesOk(l') && CountOk(l')
            && HeapOk(l', if path in l.byPath then {} else {path})
  {
    AppendedOrder(l, path);
    hide HeapOk, OrderOk, PulsesOk, CountOk, DequeOk;
    AppendedPaths(l, path);
    AppendedHeap(l, path);
  }

  lemma AppendedOrder(l: Lane, path: string)
    requires PulsesOk(l) && OrderOk(l) && CountOk(l) && l.pending + 3 <= EVENT_CAP
    ensures PulsesOk(Appended(l, path)) && OrderOk(Appended(l, path)) && CountOk(Appended(l, path))
  {
    var l', id := Appended(l, path), l.seqNo + 1;
    assert id !in l.pulses;
    forall k | 0 <= k < |l.order| ensures l.order[k] < id { assert l.order[k] in l.order; }
    AppendedCount(l, path);
  }

  lemma AppendedCount(l: Lane, path: string)
    requires CountOk(l) && l.pending + 3 <= EVENT_CAP && l.seqNo + 1 !in l.order
    ensures CountOk(Appended(l, path))
  {
    var l' := Appended(l, path);
    assert l'.order[..|l.order|] == l.order;
    TotalFrame(l.order, l.pulses, l'.pulses, OWED);
  }

  lemma AppendedPaths(l: Lane, path: string)
    requires PulsesOk(l) && PathsOk(l) && StagesOk(l)
    ensures PathsOk(Appended(l, path)) && StagesOk(Appended(l, path))
  {
    var l', id := Appended(l, path), l.seqNo + 1;
    forall p | p in l'.byPath ensures DequeOk(l', p, l'.byPath[p]) {
      if p in l.byPath {
        var dq := l.byPath[p];
        assert DequeOk(l, p, dq);
        forall k | 0 <= k < |dq| ensures dq[k] < id { assert dq[k] in dq; }
      }
    }
    forall j | j in l.pulses && Live(l.pulses[j]) && IsHead(l, j) ensures IsHead(l', j) {
      assert DequeOk(l, l.pulses[j].path, l.byPath[l.pulses[j].path]);
    }
  }

  lemma AppendedHeap(l: Lane, path: string)
    requires PulsesOk(l) && PathsOk(l) && HeapOk(l, {})
    ensures HeapOk(Appended(l, path), if path in l.byPath then {} else {path})
  {
    var l', id := Appended(l, path), l.seqNo + 1;
    forall j | j in l'.pulses && Live(l'.pulses[j])
      ensures HasEntry(l', j) <==> IsHead(l', j) && (path in l.byPath || l'.pulses[j].path != path)
    {
      assert HasEntry(l', j) <==> HasEntry(l, j);
      if path in l.byPath { assert DequeOk(l, path, l.byPath[path]); }
      if j != id { assert DequeOk(l, l.pulses[j].path, l.byPath[l.pulses[j].path]); }
    }
  }

  lemma AppendCoherent(l: Lane, path: string, now: int)
    requires Coherent(l) && l.pending + 3 <= EVENT_CAP
    ensures Coherent(Append(l, path, now))
  {
    var l' := Appended(l, path);
    assert path in l.byPath ==> DequeOk(l, path, l.byPath[path]);
    assert path !in l.byPath ==> IsHead(l', l.seqNo + 1);
    AppendedCoherent(l, path);
    hide PulsesOk, OrderOk, PathsOk, StagesOk, HeapOk, CountOk;
    if path !in l.byPath {
      ScheduleRest(l', l.seqNo + 1, now);
      ScheduleHeap(l', l.seqNo + 1, now);
    }
  }

  lemma AddPulseCoherent(l: Lane, path: string, now: int)
    requires Coherent(l)
    ensures Coherent(AddPulse(l, path, now))
  {
    MakeRoomCoherent(l, now);
    hide Coherent;
    var (room, ok) := MakeRoom(l, now);
    if ok { AppendCoherent(room, path, now); }
  }

  /** With room for it a request drops nothing and queues one pulse, last in the creation order
      and on its path; it is refused only if even then the cap is reached and every queued
      pulse has its 1 out. */
  lemma {:induction false} AddPulseQueues(l: Lane, path: string, now: int)
    requires Coherent(l)
    ensures l.pending + 3 <= 6000 ==> MakeRoom(l, now) == (l, true)
    ensures var (room, ok) := MakeRoom(l, now);
            var l' := AddPulse(l, path, now);
            if ok then
              && l'.order == room.order + [room.seqNo + 1]
              && path in l'.byPath && l'.byPath[path] != [] && l'.byPath[path][|l'.byPath[path]| - 1] == room.seqNo + 1
              && l'.dropped == room.dropped && l'.pulses == room.pulses[room.seqNo + 1 := Pulse(path, 0, false)]
            else
              && room.pending + 3 > 6000 && l' == room
              && forall id :: id in room.order && id in room.pulses ==> room.pulses[id].stage >= 2
    decreases |l.order|
  {
    if l.pending + 3 > EVENT_CAP {
      match Oldest(l.order, l.pulses)
      case None => NoneIsOldest(l);
      case Some(id) =>
        RemoveShrinks(l.order, id);
        DropCoherent(l, id, now);
        hide Coherent, Drop, Append;
        AddPulseQueues(Drop(l, id, now), path, now);
    }
  }

  /** Overflow drops only pulses whose 1 is not out, the oldest of them, and no more than it
      takes; the others stay as they are. */
  lemma {:induction false} MakeRoomDropsOldest(l: Lane, now: int)
    requires Coherent(l)
    ensures var room := MakeRoom(l, now).0;
            && (forall id :: id in room.order ==>
                  id in l.order && id in l.pulses && id in room.pulses && room.pulses[id] == l.pulses[id])
            && (forall id :: id in l.order && id !in room.order ==> id in l.pulses && l.pulses[id].stage < 2)
            && (forall id, j :: id in l.order && id !in room.order && j in room.order && l.pulses[j].stage < 2 ==> id < j)
            && (MakeRoom(l, now).1 && l.pending + 3 > 6000 ==> room.pending + 6 > 6000)
    decreases |l.order|
  {
    hide Coherent, Drop;
    OrderHasPulses(l);
    if l.pending + 3 > EVENT_CAP {
      match Oldest(l.order, l.pulses)
      case None =>
      case Some(id) =>
        RemoveShrinks(l.order, id);
        DropCoherent(l, id, now);
        OldestLeads(l, id);
        DropOrder(l, id, now);
        MakeRoomDropsOldest(Drop(l, id, now), now);
    }
  }

  lemma OrderHasPulses(l: Lane)
    requires Coherent(l)
    ensures forall id :: id in l.order ==> id in l.pulses
  {}

  lemma OldestLeads(l: Lane, id: nat)
    requires Coherent(l) && Oldest(l.order, l.pulses) == Some(id)
    ensures forall j :: j in l.order ==> j in l.pulses && (l.pulses[j].stage < 2 && j != id ==> id < j)
  {
    OldestIsOldest(l.order, l.pulses);
  }

  lemma DropOrder(l: Lane, id: nat, now: int)
    requires Coherent(l) && id in l.order && id in l.pulses && l.pulses[id].stage < 2
    ensures var l' := Drop(l, id, now);
            && l'.order == Remove(l.order, id) && (forall j :: j in l'.order <==> j in l.order && j != id)
            && (forall j :: j in l.order && j != id ==> j in l.pulses && j in l'.pulses && l'.pulses[j] == l.pulses[j])
            && l.pending - 3 <= l'.pending
  {
    RemoveFacts(l.order, id);
  }

  lemma NoneIsOldest(l: Lane)
    requires Coherent(l) && Oldest(l.order, l.pulses) == None
    ensures forall id :: id in l.order && id in l.pulses ==> l.pulses[id].stage >= 2
  {
    OldestIsOldest(l.order, l.pulses);
  }

  lemma PopCoherent(l: Lane, e: Entry)
    requires Coherent(l) && e in l.heap
    ensures var l' := Pop(l, e);
            && PulsesOk(l') && OrderOk(l') && PathsOk(l') && StagesOk(l') && CountOk(l')
            && e.id in l.pulses && (Live(l.pulses[e.id]) ==> IsHead(l, e.id))
            && HeapOk(l', if Live(l.pulses[e.id]) then {l.pulses[e.id].path} else {})
  {
    var l' := Pop(l, e);
    assert forall p :: p in l.byPath ==> DequeOk(l, p, l.byPath[p]) && DequeOk(l', p, l.byPath[p]);
    assert forall j :: j in l.pulses ==> (IsHead(l, j) <==> IsHead(l', j));
    assert Live(l.pulses[e.id]) ==> HasEntry(l, e.id);
    PopHeap(l, e);
  }

  lemma PopHeap(l: Lane, e: Entry)
    requires HeapOk(l, {}) && e in l.heap
    ensures HeapOk(Pop(l, e), if Live(l.pulses[e.id]) then {l.pulses[e.id].path} else {})
  {
    var l', path := Pop(l, e), l.pulses[e.id].path;
    assert HasEntry(l, e.id);
    forall j | j in l'.pulses && Live(l'.pulses[j])
      ensures HasEntry(l', j) <==> IsHead(l', j) && !(Live(l.pulses[e.id]) && l'.pulses[j].path == path)
    {
      assert IsHead(l', j) <==> IsHead(l, j);
      assert HasEntry(l', j) <==> HasEntry(l, j) && j != e.id by {
        if HasEntry(l, j) && j != e.id {
          var f :| f in l.heap && f.id == j;
          assert f in l'.heap;
        }
      }
      assert Live(l.pulses[e.id]) && IsHead(l, j) && l.pulses[j].path == path ==> j == e.id;
    }
  }

  lemma AdvanceKeeps(l: Lane, id: nat)
    requires PulsesOk(l) && OrderOk(l) && PathsOk(l) && StagesOk(l) && CountOk(l)
    requires id in l.pulses && Live(l.pulses[id]) && IsHead(l, id) && l.pulses[id].stage < 2
    requires HeapOk(l, {l.pulses[id].path})
    ensures var l' := Advance(l, id);
            && PulsesOk(l') && OrderOk(l') && PathsOk(l') && StagesOk(l') && CountOk(l')
            && HeapOk(l', {l.pulses[id].path})
  {
    var l' := Advance(l, id);
    AdvanceHeap(l, id);
    TotalChange(l.order, l.pulses, l'.pulses, id, OWED);
    hide HeapOk, HasEntry;
    assert forall p :: p in l.byPath ==> DequeOk(l, p, l.byPath[p]) && DequeOk(l', p, l.byPath[p]);
    assert forall j :: j in l.pulses ==> (IsHead(l, j) <==> IsHead(l', j));
  }

  lemma AdvanceHeap(l: Lane, id: nat)
    requires id in l.pulses && Live(l.pulses[id]) && l.pulses[id].stage < 2
    requires HeapOk(l, {l.pulses[id].path})
    ensures HeapOk(Advance(l, id), {l.pulses[id].path})
  {
    var l' := Advance(l, id);
    forall j | j in l'.pulses && Live(l'.pulses[j])
      ensures HasEntry(l', j) <==> IsHead(l', j) && l'.pulses[j].path != l.pulses[id].path
    {
      assert IsHead(l', j) <==> IsHead(l, j);
      assert HasEntry(l', j) <==> HasEntry(l, j);
    }
  }

  lemma DoneCoherent(l: Lane, id: nat)
    requires PulsesOk(l) && OrderOk(l) && PathsOk(l) && StagesOk(l) && CountOk(l)
    requires id in l.pulses && Live(l.pulses[id]) && IsHead(l, id) && l.pulses[id].stage == 2
    requires HeapOk(l, {l.pulses[id].path})
    ensures var l' := Unlink(Advance(l, id), id);
            && PulsesOk(l') && OrderOk(l') && PathsOk(l') && StagesOk(l') && CountOk(l')
            && HeapOk(l', {l.pulses[id].path})
  {
    var l' := Unlink(Advance(l, id), id);
    DoneCount(l, id);
    DoneRetired(l, id);
    hide DequeOk, HasEntry, CountOk, Unlink, Advance, Retired;
    RetiredOrder(l, l', id);
    RetiredPaths(l, l', id);
    RetiredStages(l, l', id);
    RetiredHeap(l, l', id, {l.pulses[id].path});
  }

  lemma DoneRetired(l: Lane, id: nat)
    requires id in l.pulses && l.pulses[id].stage == 2
    ensures Retired(l, Unlink(Advance(l, id), id), id)
  {}

  lemma DoneCount(l: Lane, id: nat)
    requires OrderOk(l) && CountOk(l) && id in l.order && id in l.pulses && l.pulses[id].stage == 2
    ensures CountOk(Unlink(Advance(l, id), id))
  {
    var l' := Unlink(Advance(l, id), id);
    TotalRemove(l.order, l.pulses, id, OWED);
    RemoveFacts(l.order, id);
    TotalFrame(l'.order, l.pulses, l'.pulses, OWED);
  }

  lemma SendEventCoherent(l: Lane, id: nat, sent: int)
    requires PulsesOk(l) && OrderOk(l) && PathsOk(l) && StagesOk(l) && CountOk(l)
    requires id in l.pulses && Live(l.pulses[id]) && IsHead(l, id)
    requires HeapOk(l, {l.pulses[id].path})
    ensures Coherent(SendEvent(l, id, sent))
  {
    hide PulsesOk, OrderOk, PathsOk, StagesOk, HeapOk, CountOk;
    var p, l1 := l.pulses[id], Advance(l, id);
    if p.stage < 2 {
      var due := sent + if p.stage == 0 then PULSE_GAP else PULSE_HOLD;
      AdvanceKeeps(l, id);
      ScheduleRest(l1, id, due);
      ScheduleHeap(l1, id, due);
    } else {
      DoneCoherent(l, id);
      StartHeadCoherent(Unlink(l1, id), p.path, sent);
    }
  }
}
