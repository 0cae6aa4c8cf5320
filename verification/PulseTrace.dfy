/** What the event lane puts on the wire: per path, whole 0-1-0 pulses and lone 0s of
    dropped pulses, then what the head pulse has sent; and where every request went. */
module PulseTrace {
  import opened OrderedDict
  import opened Osc
  import opened EventLane

  // One value sent on a path, by which pulse and when.
  datatype Send = Send(id: nat, value: int, at: int)

  ghost predicate IsPulse(a: Send, b: Send, c: Send) {
    && a.id == b.id == c.id
    && a.value == 0 && b.value == 1 && c.value == 0
    && b.at >= a.at + 60_000 && c.at >= b.at + 150_000
  }

  // `s` is a word of (0 | 0 1 0)*: each letter group from one pulse, all older than `bound`,
  // oldest first, the 1 at least 60 ms after its 0 and held at least 150 ms.
  ghost predicate Words(s: seq<Send>, bound: nat) {
    var n := |s|;
    n == 0
    || (s[n - 1].value == 0 && s[n - 1].id < bound && Words(s[..n - 1], s[n - 1].id))
    || (n >= 3 && IsPulse(s[n - 3], s[n - 2], s[n - 1]) && s[n - 1].id < bound
        && Words(s[..n - 3], s[n - 1].id))
  }

  function Head(l: Lane, path: string): Option<nat> {
    if path in l.byPath && l.byPath[path] != [] then Some(l.byPath[path][0]) else None
  }

  function StageOf(l: Lane, id: nat): nat {
    if id in l.pulses then l.pulses[id].stage else 0
  }

  // From a pulse's last value to its next: 60 ms after the leading 0, 150 ms after the 1.
  function Wait(stage: nat): int {
    if stage == 1 then 60_000 else 150_000
  }

  // The last `stage` sends are the head's; its next one is due just after the gap or the hold.
  ghost predicate OpenPulse(s: seq<Send>, h: nat, stage: nat, heap: set<Entry>) {
    && stage <= 2 && stage <= |s|
    && Words(s[..|s| - stage], h)
    && (stage >= 1 ==> s[|s| - stage].id == h && s[|s| - stage].value == 0)
    && (stage == 2 ==> s[|s| - 1].id == h && s[|s| - 1].value == 1
                       && s[|s| - 1].at >= s[|s| - 2].at + 60_000)
    && (stage >= 1 ==> forall e :: e in heap && e.id == h ==> e.due == s[|s| - 1].at + Wait(stage))
  }

  /** `s` is everything sent on `path`. */
  ghost predicate Traced(l: Lane, path: string, s: seq<Send>) {
    match Head(l, path)
    case None => Words(s, l.seqNo + 1)
    case Some(h) => OpenPulse(s, h, StageOf(l, h), l.heap)
  }

  // ------------------------------------------------------------ words

  lemma WordsBound(s: seq<Send>, b: nat, c: nat)
    requires Words(s, b) && b <= c
    ensures Words(s, c)
  {}

  // A head that has not raised its 1 may go: its 0, if any, stays as a lone 0.
  lemma AbandonHead(s: seq<Send>, h: nat, stage: nat, heap: set<Entry>, bound: nat)
    requires OpenPulse(s, h, stage, heap) && stage < 2 && h < bound
    ensures Words(s, bound)
  {
    if stage == 0 {
      assert s[..|s|] == s;
      WordsBound(s, h, bound);
    }
  }

  // The trailing 0 closes the head's pulse.
  lemma CloseHead(s: seq<Send>, h: nat, heap: set<Entry>, at: int, bound: nat)
    requires OpenPulse(s, h, 2, heap) && h < bound && at >= s[|s| - 1].at + 150_000
    ensures Words(s + [Send(h, 0, at)], bound)
  {
    var t := s + [Send(h, 0, at)];
    assert t[..|t| - 3] == s[..|s| - 2];
    assert IsPulse(t[|t| - 3], t[|t| - 2], t[|t| - 1]);
  }

  /** A word only raises a value right after a 0 and at least PULSE_GAP later, and lowers it
      right after and at least PULSE_HOLD later; so it ends at 0. */
  lemma {:induction false} WordsShape(s: seq<Send>, bound: nat, i: nat)
    requires Words(s, bound) && i < |s|
    ensures s[i].value == 0 || s[i].value == 1
    ensures s[i].value == 1 ==> 0 < i && i + 1 < |s| && IsPulse(s[i - 1], s[i], s[i + 1])
    ensures s[|s| - 1].value == 0
  {
    var n := |s|;
    if s[n - 1].value == 0 && s[n - 1].id < bound && Words(s[..n - 1], s[n - 1].id) {
      if i < n - 1 { WordsShape(s[..n - 1], s[n - 1].id, i); }
    } else {
      if i < n - 3 { WordsShape(s[..n - 3], s[n - 1].id, i); }
    }
  }

  /** On a path, in any reachable state: values are 0 and 1, a 1 follows its own pulse's 0 by
      PULSE_GAP, and its own pulse's 0 follows it by PULSE_HOLD, or the head still owes that 0. */
  lemma TracedShape(l: Lane, path: string, s: seq<Send>, i: nat)
    requires Coherent(l) && Traced(l, path, s) && i < |s|
    ensures s[i].value == 0 || s[i].value == 1
    ensures s[i].value == 1 ==> 0 < i && s[i - 1].value == 0 && s[i - 1].id == s[i].id
                                && s[i].at >= s[i - 1].at + 60_000
    ensures s[i].value == 1 && i + 1 < |s| ==>
              s[i + 1].value == 0 && s[i + 1].id == s[i].id && s[i + 1].at >= s[i].at + 150_000
    ensures s[i].value == 1 && i + 1 == |s| ==> Head(l, path) == Some(s[i].id) && StageOf(l, s[i].id) == 2
  {
    match Head(l, path)
    case None => WordsShape(s, l.seqNo + 1, i);
    case Some(h) =>
      var k := StageOf(l, h);
      if i < |s| - k { WordsShape(s[..|s| - k], h, i); }
  }

  // ------------------------------------------------------------ operations

  // Heads, stages and live entries of a path survive what happens elsewhere.
  lemma TracedFrame(l: Lane, l': Lane, path: string, s: seq<Send>)
    requires Traced(l, path, s) && Head(l', path) == Head(l, path) && l'.seqNo >= l.seqNo
    requires Head(l, path).Some? ==>
               var h := Head(l, path).value;
               && StageOf(l', h) == StageOf(l, h)
               && forall e :: e in l'.heap && e.id == h ==> e in l.heap || StageOf(l, h) == 0
    ensures Traced(l', path, s)
  {
    if Head(l, path).None? { WordsBound(s, l.seqNo + 1, l'.seqNo + 1); }
  }

  lemma HeadFacts(l: Lane, path: string)
    requires Coherent(l) && Head(l, path).Some?
    ensures var h := Head(l, path).value;
            && h in l.pulses && Live(l.pulses[h]) && l.pulses[h].path == path && h <= l.seqNo
            && h in l.byPath[path] && IsHead(l, h)
            && forall j :: j in l.byPath[path] && j != h ==> h < j && StageOf(l, j) == 0
  {
    var dq := l.byPath[path];
    assert DequeOk(l, path, dq) && dq[0] in dq;
    forall j | j in dq && j != dq[0] ensures dq[0] < j && StageOf(l, j) == 0 {
      var k :| 0 <= k < |dq| && dq[k] == j;
      assert !IsHead(l, j);
    }
  }

  lemma DropHeads(l: Lane, id: nat, now: int, path: string)
    requires Coherent(l) && id in l.order && id in l.pulses
    ensures var l' := Drop(l, id, now);
            if Head(l, path) == Some(id)
            then Head(l', path).Some? ==> Head(l', path).value in l.byPath[path] && Head(l', path).value != id
            else Head(l', path) == Head(l, path)
  {
    var mine := l.pulses[id].path;
    var dq := l.byPath[mine];
    assert DequeOk(l, mine, dq);
    RemoveFacts(dq, id);
    RemoveHead(dq, id);
    if path in l.byPath { assert DequeOk(l, path, l.byPath[path]); }
    if Head(l, path) == Some(id) {
      assert path == mine by { assert id in l.byPath[path]; }
      var rest := Remove(dq, id);
      assert rest != [] ==> rest[0] in rest;
    }
  }

  lemma DropTraced(l: Lane, id: nat, now: int, path: string, s: seq<Send>)
    requires Coherent(l) && id in l.order && id in l.pulses && l.pulses[id].stage < 2
    requires Traced(l, path, s)
    ensures Traced(Drop(l, id, now), path, s)
  {
    var l' := Drop(l, id, now);
    DropHeads(l, id, now, path);
    if Head(l, path).Some? { HeadFacts(l, path); }
    hide Coherent;
    if Head(l, path) == Some(id) {
      match Head(l', path)
      case None => AbandonHead(s, id, StageOf(l, id), l.heap, l'.seqNo + 1);
      case Some(h) =>
        AbandonHead(s, id, StageOf(l, id), l.heap, h);
        assert s[..|s|] == s;
    } else {
      DropEntries(l, id, now, path);
      TracedFrame(l, l', path, s);
    }
  }

  lemma DropEntries(l: Lane, id: nat, now: int, path: string)
    requires Coherent(l) && id in l.order && id in l.pulses
    requires Head(l, path) != Some(id)
    ensures Head(l, path).Some? ==>
              var h := Head(l, path).value;
              && StageOf(Drop(l, id, now), h) == StageOf(l, h)
              && forall e :: e in Drop(l, id, now).heap && e.id == h ==> e in l.heap
  {
    var mine := l.pulses[id].path;
    if Head(l, path).Some? {
      HeadFacts(l, path);
      DropHeads(l, id, now, mine);
      if Head(l, mine).Some? { HeadFacts(l, mine); }
      var l1 := Dropped(l, id);
      if IsHead(l, id) && mine in l1.byPath && l1.byPath[mine] != [] {
        var h' := l1.byPath[mine][0];
        assert Head(Drop(l, id, now), mine) == Some(h');
        assert DequeOk(l, mine, l.byPath[mine]);
        assert l.pulses[h'].path == mine && l.pulses[Head(l, path).value].path == path;
      }
    }
  }

  lemma {:induction false} MakeRoomTraced(l: Lane, now: int, path: string, s: seq<Send>)
    requires Coherent(l) && Traced(l, path, s)
    ensures Traced(MakeRoom(l, now).0, path, s)
    decreases |l.order|
  {
    if l.pending + 3 > EVENT_CAP {
      match Oldest(l.order, l.pulses)
      case None => TracedFrame(l, MakeRoom(l, now).0, path, s);
      case Some(id) =>
        RemoveShrinks(l.order, id);
        DropCoherent(l, id, now);
        DropTraced(l, id, now, path, s);
        MakeRoomTraced(Drop(l, id, now), now, path, s);
    }
  }

  lemma AppendTraced(l: Lane, on: string, now: int, path: string, s: seq<Send>)
    requires Coherent(l) && Traced(l, path, s)
    ensures Traced(Append(l, on, now), path, s)
  {
    var l' := Append(l, on, now);
    if Head(l, path).Some? {
      HeadFacts(l, path);
      TracedFrame(l, l', path, s);
    } else if path == on {
      assert Head(l', path) == Some(l.seqNo + 1);
      assert s[..|s|] == s;
    } else {
      TracedFrame(l, l', path, s);
    }
  }

  lemma AddPulseTraced(l: Lane, on: string, now: int, path: string, s: seq<Send>)
    requires Coherent(l) && Traced(l, path, s)
    ensures Traced(AddPulse(l, on, now), path, s)
  {
    MakeRoomCoherent(l, now);
    MakeRoomTraced(l, now, path, s);
    hide Coherent, Traced;
    var (room, ok) := MakeRoom(l, now);
    if ok { AppendTraced(room, on, now, path, s); }
  }

  // The send of a due live entry.
  function SentBy(l: Lane, id: nat, sent: int): Send {
    Send(id, if StageOf(l, id) == 1 then 1 else 0, sent)
  }

  lemma SendHeads(l: Lane, e: Entry, sent: int, path: string)
    requires Coherent(l) && e in l.heap && e.id in l.pulses && Live(l.pulses[e.id])
    ensures var l' := SendEvent(Pop(l, e), e.id, sent);
            if path == l.pulses[e.id].path && l.pulses[e.id].stage == 2
            then Head(l', path).Some? ==> e.id < Head(l', path).value && StageOf(l', Head(l', path).value) == 0
            else Head(l', path) == Head(l, path)
  {
    var id := e.id;
    var mine := l.pulses[id].path;
    PopCoherent(l, e);
    HeadFacts(l, mine);
    var dq := l.byPath[mine];
    assert DequeOk(l, mine, dq);
    RemoveHead(dq, id);
    if path == mine && l.pulses[id].stage == 2 && |dq| > 1 {
      assert dq[1] in dq;
    }
  }

  lemma SendEntries(l: Lane, e: Entry, sent: int, path: string)
    requires Coherent(l) && e in l.heap && e.id in l.pulses && Live(l.pulses[e.id])
    requires Head(l, path).Some? && path != l.pulses[e.id].path
    ensures var h := Head(l, path).value;
            var l' := SendEvent(Pop(l, e), e.id, sent);
            StageOf(l', h) == StageOf(l, h) && forall f :: f in l'.heap && f.id == h ==> f in l.heap
  {
    var mine := l.pulses[e.id].path;
    PopCoherent(l, e);
    HeadFacts(l, path);
    HeadFacts(l, mine);
    assert DequeOk(l, mine, l.byPath[mine]);
    RemoveHead(l.byPath[mine], e.id);
    assert forall j :: j in l.byPath[mine] ==> j != Head(l, path).value;
  }

  /** A due send extends its own path's trace and no other. */
  lemma SendTraced(l: Lane, e: Entry, now: int, sent: int, path: string, s: seq<Send>)
    requires Coherent(l) && e in l.heap && e.id in l.pulses && Live(l.pulses[e.id])
    requires e.due <= now <= sent && Traced(l, path, s)
    ensures Traced(SendEvent(Pop(l, e), e.id, sent), path,
                   if path == l.pulses[e.id].path then s + [SentBy(l, e.id, sent)] else s)
  {
    var l' := SendEvent(Pop(l, e), e.id, sent);
    SendHeads(l, e, sent, path);
    if path == l.pulses[e.id].path {
      SendOnPath(l, e, now, sent, s);
    } else {
      if Head(l, path).Some? { SendEntries(l, e, sent, path); }
      hide Coherent;
      TracedFrame(l, l', path, s);
    }
  }

  lemma SendOnPath(l: Lane, e: Entry, now: int, sent: int, s: seq<Send>)
    requires Coherent(l) && e in l.heap && e.id in l.pulses && Live(l.pulses[e.id])
    requires e.due <= now <= sent && Traced(l, l.pulses[e.id].path, s)
    ensures Traced(SendEvent(Pop(l, e), e.id, sent), l.pulses[e.id].path, s + [SentBy(l, e.id, sent)])
  {
    var id, path, k := e.id, l.pulses[e.id].path, l.pulses[e.id].stage;
    var l' := SendEvent(Pop(l, e), id, sent);
    var t := s + [SentBy(l, id, sent)];
    PopCoherent(l, e);
    HeadFacts(l, path);
    SendHeads(l, e, sent, path);
    assert forall f :: f in l.heap && f.id == id ==> f == e;
    hide Coherent, OrderOk, PathsOk, StagesOk, CountOk;
    if k < 2 {
      assert t[..|t| - (k + 1)] == s[..|s| - k];
      assert forall f :: f in l'.heap && f.id == id ==> f.due == sent + Wait(k + 1);
    } else {
      var bound := if Head(l', path).None? then l'.seqNo + 1 else Head(l', path).value;
      CloseHead(s, id, l.heap, sent, bound);
      assert t[..|t|] == t;
    }
  }

  lemma StalePopTraced(l: Lane, e: Entry, path: string, s: seq<Send>)
    requires Traced(l, path, s)
    ensures Traced(Pop(l, e), path, s)
  {
    TracedFrame(l, Pop(l, e), path, s);
  }

  // ------------------------------------------------------------ when a head starts

  // A head that has sent nothing yet is due at t.
  ghost predicate StartsAt(l: Lane, path: string, t: int) {
    Head(l, path).Some? && StageOf(l, Head(l, path).value) == 0 ==>
      forall e :: e in l.heap && e.id == Head(l, path).value ==> e.due == t
  }

  // From l to l', at `now`: a path's head stays, with no entry added for it while it has sent
  // nothing; or a newer one comes, due at once.
  ghost predicate HeadMoves(l: Lane, l': Lane, path: string, now: int) {
    && l.seqNo <= l'.seqNo
    && (Head(l', path).Some? ==>
          var h := Head(l', path).value;
          if Head(l', path) == Head(l, path) then
            StageOf(l', h) == 0 ==> StageOf(l, h) == 0 && forall e :: e in l'.heap && e.id == h ==> e in l.heap
          else
            && (if Head(l, path).Some? then Head(l, path).value < h else l.seqNo < h)
            && (StageOf(l', h) == 0 ==> forall e :: e in l'.heap && e.id == h ==> e.due == now))
  }

  lemma HeadMovesStart(l: Lane, l': Lane, path: string, now: int, t: int)
    requires HeadMoves(l, l', path, now) && StartsAt(l, path, t)
    ensures StartsAt(l', path, if Head(l', path) == Head(l, path) then t else now)
  {}

  lemma HeadMovesOn(l: Lane, l1: Lane, l2: Lane, path: string, now: int)
    requires HeadMoves(l, l1, path, now) && HeadMoves(l1, l2, path, now)
    requires Head(l, path).Some? ==> Head(l, path).value <= l.seqNo
    ensures HeadMoves(l, l2, path, now)
  {}

  lemma HeadBound(l: Lane, path: string)
    requires Coherent(l) && Head(l, path).Some?
    ensures Head(l, path).value <= l.seqNo
  {
    HeadFacts(l, path);
  }

  // Only heads have entries.
  lemma NoEntry(l: Lane, id: nat)
    requires Coherent(l) && (id !in l.pulses || (Live(l.pulses[id]) && !IsHead(l, id)))
    ensures forall e :: e in l.heap ==> e.id != id
  {
    if e :| e in l.heap && e.id == id { assert HasEntry(l, id); }
  }

  lemma DropMoves(l: Lane, id: nat, now: int, path: string)
    requires Coherent(l) && id in l.order && id in l.pulses
    ensures HeadMoves(l, Drop(l, id, now), path, now)
  {
    var l' := Drop(l, id, now);
    DropHeads(l, id, now, path);
    if Head(l, path) == Some(id) {
      HeadFacts(l, path);
      if Head(l', path).Some? {
        var h := Head(l', path).value;
        assert DequeOk(l, path, l.byPath[path]);
        assert !IsHead(l, h);
        NoEntry(l, h);
        DroppedHead(l, id, now, h);
      }
    } else if Head(l, path).Some? {
      DropEntries(l, id, now, path);
    }
  }

  lemma DroppedHead(l: Lane, id: nat, now: int, h: nat)
    requires id in l.pulses && Head(Drop(l, id, now), l.pulses[id].path) == Some(h) && IsHead(l, id)
    requires forall e :: e in l.heap ==> e.id != h
    ensures forall e :: e in Drop(l, id, now).heap && e.id == h ==> e.due == now
  {}

  lemma {:induction false} MakeRoomMoves(l: Lane, now: int, path: string)
    requires Coherent(l)
    ensures HeadMoves(l, MakeRoom(l, now).0, path, now)
    decreases |l.order|
  {
    if l.pending + 3 > EVENT_CAP {
      match Oldest(l.order, l.pulses)
      case None =>
      case Some(id) =>
        RemoveShrinks(l.order, id);
        DropCoherent(l, id, now);
        DropMoves(l, id, now, path);
        MakeRoomMoves(Drop(l, id, now), now, path);
        if Head(l, path).Some? { HeadBound(l, path); }
        hide Coherent, HeadMoves, Drop;
        HeadMovesOn(l, Drop(l, id, now), MakeRoom(Drop(l, id, now), now).0, path, now);
    }
  }

  lemma AppendMoves(l: Lane, on: string, now: int, path: string)
    requires Coherent(l)
    ensures HeadMoves(l, Append(l, on, now), path, now)
  {
    var l' := Append(l, on, now);
    if Head(l, path).Some? {
      HeadFacts(l, path);
    } else if path == on {
      assert l.seqNo + 1 !in l.pulses;
      NoEntry(l, l.seqNo + 1);
    }
  }

  lemma AddPulseMoves(l: Lane, on: string, now: int, path: string)
    requires Coherent(l)
    ensures HeadMoves(l, AddPulse(l, on, now), path, now)
  {
    MakeRoomCoherent(l, now);
    MakeRoomMoves(l, now, path);
    if Head(l, path).Some? { HeadBound(l, path); }
    hide Coherent, HeadMoves;
    var (room, ok) := MakeRoom(l, now);
    if ok {
      AppendMoves(room, on, now, path);
      HeadMovesOn(l, room, Append(room, on, now), path, now);
    }
  }

  lemma SendMoves(l: Lane, e: Entry, sent: int, path: string)
    requires Coherent(l) && e in l.heap && e.id in l.pulses && Live(l.pulses[e.id])
    ensures HeadMoves(l, SendEvent(Pop(l, e), e.id, sent), path, sent)
  {
    var l' := SendEvent(Pop(l, e), e.id, sent);
    var mine := l.pulses[e.id].path;
    SendHeads(l, e, sent, path);
    SendHeadFacts(l, e, sent);
    if path == mine {
      if l.pulses[e.id].stage == 2 {
        if Head(l', path).Some? { NextHead(l, e, sent); }
      } else {
        assert StageOf(l', e.id) != 0;
      }
    } else if Head(l, path).Some? {
      SendEntries(l, e, sent, path);
    }
  }

  lemma SendHeadFacts(l: Lane, e: Entry, sent: int)
    requires Coherent(l) && e in l.heap && e.id in l.pulses && Live(l.pulses[e.id])
    ensures Head(l, l.pulses[e.id].path) == Some(e.id)
    ensures l.seqNo <= SendEvent(Pop(l, e), e.id, sent).seqNo
  {
    PopCoherent(l, e);
  }

  // The next pulse on the path is due when the last 0 went out.
  lemma NextHead(l: Lane, e: Entry, sent: int)
    requires Coherent(l) && e in l.heap && e.id in l.pulses && Live(l.pulses[e.id]) && l.pulses[e.id].stage == 2
    requires Head(SendEvent(Pop(l, e), e.id, sent), l.pulses[e.id].path).Some?
    ensures var l' := SendEvent(Pop(l, e), e.id, sent);
            var h := Head(l', l.pulses[e.id].path).value;
            forall f :: f in l'.heap && f.id == h ==> f.due == sent
  {
    var path := l.pulses[e.id].path;
    var dq := l.byPath[path];
    PopCoherent(l, e);
    HeadFacts(l, path);
    assert DequeOk(l, path, dq);
    RemoveHead(dq, e.id);
    assert |dq| > 1 && dq[1] in dq;
    assert dq[1] in l.pulses && Live(l.pulses[dq[1]]) && l.pulses[dq[1]].path == path;
    assert !IsHead(l, dq[1]);
    NoEntry(l, dq[1]);
  }

  // ------------------------------------------------------------ close()

  /** close() sends the trailing 0 of a raised head at once: the path's last value is then 0,
      and every 1 on it is followed by its own pulse's 0. */
  lemma CloseSettles(l: Lane, path: string, s: seq<Send>, at: int, t: seq<Send>)
    requires Coherent(l) && Traced(l, path, s)
    requires t == if Head(l, path).Some? && StageOf(l, Head(l, path).value) == 2
                  then s + [Send(Head(l, path).value, 0, at)] else s
    ensures t != [] ==> t[|t| - 1].value == 0
    ensures forall i :: 0 <= i < |t| && t[i].value == 1 ==>
                          i + 1 < |t| && t[i + 1].value == 0 && t[i + 1].id == t[i].id
  {
    forall i | 0 <= i < |s| ensures s[i].value == 1 ==>
                i + 1 < |t| && t[i + 1].value == 0 && t[i + 1].id == s[i].id
    {
      TracedShape(l, path, s, i);
    }
    if s != [] { TracedShape(l, path, s, |s| - 1); }
  }

  // ------------------------------------------------------------ conservation

  /** Every request is completed, still queued or counted as dropped; every raised 1 is
      counted; and the pending counter is exactly what the queued pulses still owe. */
  ghost predicate Accounted(l: Lane, requests: nat, completed: nat) {
    && requests == completed + |l.order| + l.dropped
    && l.edges == completed + Total(l.order, l.pulses, RAISED)
  }

  lemma DropAccounted(l: Lane, id: nat, now: int, requests: nat, completed: nat)
    requires Coherent(l) && id in l.order && id in l.pulses && l.pulses[id].stage < 2
    requires Accounted(l, requests, completed)
    ensures Accounted(Drop(l, id, now), requests, completed)
  {
    RemoveFacts(l.order, id);
    TotalRemove(l.order, l.pulses, id, RAISED);
    TotalFrame(Remove(l.order, id), l.pulses, Drop(l, id, now).pulses, RAISED);
  }

  lemma {:induction false} MakeRoomAccounted(l: Lane, now: int, requests: nat, completed: nat)
    requires Coherent(l) && Accounted(l, requests, completed)
    ensures var (r, ok) := MakeRoom(l, now);
            Accounted(r, if ok then requests else requests + 1, completed)
    decreases |l.order|
  {
    if l.pending + 3 > EVENT_CAP {
      match Oldest(l.order, l.pulses)
      case None =>
      case Some(id) =>
        RemoveShrinks(l.order, id);
        DropCoherent(l, id, now);
        DropAccounted(l, id, now, requests, completed);
        MakeRoomAccounted(Drop(l, id, now), now, requests, completed);
    }
  }

  lemma AppendAccounted(l: Lane, path: string, now: int, requests: nat, completed: nat)
    requires Coherent(l) && Accounted(l, requests, completed)
    ensures Accounted(Append(l, path, now), requests + 1, completed)
  {
    NextIsNew(l);
    hide Coherent;
    var l' := Appended(l, path);
    assert l'.order[..|l.order|] == l.order;
    TotalFrame(l.order, l.pulses, l'.pulses, RAISED);
  }

  lemma NextIsNew(l: Lane)
    requires Coherent(l)
    ensures l.seqNo + 1 !in l.order
  {}

  lemma AddPulseAccounted(l: Lane, path: string, now: int, requests: nat, completed: nat)
    requires Coherent(l) && Accounted(l, requests, completed)
    ensures Accounted(AddPulse(l, path, now), requests + 1, completed)
  {
    MakeRoomCoherent(l, now);
    MakeRoomAccounted(l, now, requests, completed);
    hide Coherent, Accounted;
    var (room, ok) := MakeRoom(l, now);
    if ok { AppendAccounted(room, path, now, requests, completed); }
  }

  lemma SendAccounted(l: Lane, id: nat, sent: int, requests: nat, completed: nat)
    requires OrderOk(l) && id in l.pulses && Live(l.pulses[id])
    requires Accounted(l, requests, completed)
    ensures Accounted(SendEvent(l, id, sent), requests, if l.pulses[id].stage == 2 then completed + 1 else completed)
  {
    var l1 := Advance(l, id);
    TotalChange(l.order, l.pulses, l1.pulses, id, RAISED);
    if l.pulses[id].stage == 2 {
      RemoveFacts(l.order, id);
      TotalRemove(l.order, l1.pulses, id, RAISED);
    }
  }
}
