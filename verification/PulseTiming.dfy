/** When the head of each pulse path is due, in every run, and that it goes out then. */
module PulseTiming {
  import opened OrderedDict
  import opened EventLane
  import opened PulseTrace
  import opened RelayRules
  import opened RelayRun
  import opened Drain

  // The clock an event acts at; a send's is read after it.
  function TimeOf(e: Event): int {
    match e
    case Connect(now) => now
    case Disconnect(now) => now
    case FrameIn(_, _, now) => now
    case DrainOne(_, sent) => sent
    case _ => 0
  }

  // When the path's head last changed.
  ghost function HeadSince(cfg: Osc.Config, events: seq<Event>, path: string): int {
    if events == [] then 0
    else
      var n := |events| - 1;
      if Head(Run(cfg, events).lane, path) != Head(Run(cfg, events[..n]).lane, path) then TimeOf(events[n])
      else HeadSince(cfg, events[..n], path)
  }

  // ------------------------------------------------------------ how heads move

  lemma SameLaneMoves(l: Lane, l': Lane, path: string, now: int)
    requires l' == l.(heap := l'.heap) && l'.heap <= l.heap
    ensures HeadMoves(l, l', path, now)
  {}

  lemma IssueMoves(w: World, c: Command, now: int, path: string)
    requires PulsesSound(w)
    ensures HeadMoves(w.lane, Issue(w, c, now).lane, path, now)
  {
    if c.Request? { AddPulseMoves(w.lane, c.path, now, path); } else { SameLaneMoves(w.lane, w.lane, path, now); }
    hide HeadMoves, AddPulse, PulsesSound;
  }

  lemma {:induction false} IssueAllMoves(w: World, cmds: seq<Command>, now: int, path: string)
    requires PulsesSound(w)
    ensures HeadMoves(w.lane, IssueAll(w, cmds, now).lane, path, now)
  {
    if cmds == [] {
      SameLaneMoves(w.lane, w.lane, path, now);
    } else {
      var n := |cmds| - 1;
      var w1 := IssueAll(w, cmds[..n], now);
      IssueAllMoves(w, cmds[..n], now, path);
      IssueAllPulses(w, cmds[..n], now);
      IssueMoves(w1, cmds[n], now, path);
      if Head(w.lane, path).Some? { HeadBound(w.lane, path); }
      hide HeadMoves, Issue, PulsesSound;
      HeadMovesOn(w.lane, w1.lane, Issue(w1, cmds[n], now).lane, path, now);
    }
  }

  lemma DrainMoves(w: World, now: int, sent: int, path: string)
    requires PulsesSound(w)
    ensures HeadMoves(w.lane, DrainStep(w, now, sent).lane, path, sent)
  {
    if w.lane.heap != {} && Top(w.lane.heap).due <= now && !Stale(w.lane, Top(w.lane.heap)) {
      SendMoves(w.lane, Top(w.lane.heap), sent, path);
    } else {
      SameLaneMoves(w.lane, DrainStep(w, now, sent).lane, path, sent);
    }
    hide HeadMoves, SendEvent, PulsesSound;
  }

  lemma StepMoves(cfg: Osc.Config, w: World, e: Event, path: string)
    requires PulsesSound(w)
    ensures HeadMoves(w.lane, Step(cfg, w, e).lane, path, TimeOf(e))
  {
    hide PulsesSound, HeadMoves, Issue, IssueAll, OnFrame, OnConnect, OnDisconnect, Dump, DrainStep;
    match e
    case Connect(now) => IssueAllMoves(w, OnConnect(w.rules, now).cmds, now, path);
    case Disconnect(now) => IssueAllMoves(w, OnDisconnect(cfg, w.rules).cmds, now, path);
    case FrameIn(address, arg, now) => IssueAllMoves(w, OnFrame(cfg, w.rules, address, arg, now).cmds, now, path);
    case DumpAsked(names) => IssueAllMoves(w, Dump(w.rules, names), 0, path);
    case Heartbeat => IssueMoves(w, PutLink(w.rules.connected, false), 0, path);
    case Purge =>
      PurgeKeeps(w);
      SameLaneMoves(w.lane, PurgeStale(w).lane, path, 0);
    case DrainOne(now, sent) => DrainMoves(w, now, sent, path);
  }

  lemma {:induction false} HeadsStart(cfg: Osc.Config, events: seq<Event>, path: string)
    requires Legal(events)
    ensures StartsAt(Run(cfg, events).lane, path, HeadSince(cfg, events, path))
  {
    if events == [] {
      assert Start().lane == EMPTY;
    } else {
      var n := |events| - 1;
      HeadsStart(cfg, events[..n], path);
      RunPulses(cfg, events[..n]);
      hide PulsesSound, StartsAt, HeadMoves, Step;
      StepMoves(cfg, Run(cfg, events[..n]), events[n], path);
      HeadMovesStart(Run(cfg, events[..n]).lane, Run(cfg, events).lane, path, TimeOf(events[n]),
                     HeadSince(cfg, events[..n], path));
    }
  }

  // ------------------------------------------------------------ when a head is due

  // The pulse's last value, if any, is the last one on the path.
  predicate Begun(s: seq<Send>, h: nat) {
    s != [] && s[|s| - 1].id == h
  }

  // What a path's head sends next.
  function NextValue(s: seq<Send>, h: nat): int {
    if Begun(s, h) && s[|s| - 1].value == 0 then 1 else 0
  }

  lemma StageMeans(s: seq<Send>, h: nat, stage: nat, heap: set<Entry>)
    requires OpenPulse(s, h, stage, heap)
    ensures stage >= 1 <==> Begun(s, h)
    ensures stage == 1 <==> Begun(s, h) && s[|s| - 1].value == 0
    ensures stage == 2 <==> Begun(s, h) && s[|s| - 1].value == 1
  {
    if stage == 0 { assert s[..|s|] == s; }
  }

  /** In every run each path's live head has exactly one entry in the heap. It is due 60 ms
      after the head's leading 0, once that is out, 150 ms after its 1, once that is, and before
      that at the time it became head: of its request, or of the send or drop before it. */
  lemma HeadIsDue(cfg: Osc.Config, events: seq<Event>, path: string) returns (e: Entry)
    requires Legal(events) && Head(Run(cfg, events).lane, path).Some?
    ensures var w := Run(cfg, events);
            var h, s := Head(w.lane, path).value, PathWire(w.wire, path);
            && e in w.lane.heap && e.id == h && (forall f :: f in w.lane.heap && f.id == h ==> f == e)
            && e.due == if !Begun(s, h) then HeadSince(cfg, events, path)
                        else if s[|s| - 1].value == 0 then s[|s| - 1].at + 60_000
                        else s[|s| - 1].at + 150_000
  {
    var w := Run(cfg, events);
    var h, s := Head(w.lane, path).value, PathWire(w.wire, path);
    RunPulses(cfg, events);
    HeadsStart(cfg, events, path);
    HeadFacts(w.lane, path);
    assert HasEntry(w.lane, h);
    e :| e in w.lane.heap && e.id == h;
    assert Traced(w.lane, path, s);
    StageMeans(s, h, StageOf(w.lane, h), w.lane.heap);
    hide Run, HeadSince, Words;
  }

  // ------------------------------------------------------------ it goes out

  // One turn either sends the head's next value or leaves the head waiting.
  lemma TurnSendsOrKeeps(w: World, now: int, sent: int, path: string, e: Entry)
    requires PulsesSound(w) && Head(w.lane, path) == Some(e.id) && e in w.lane.heap
    ensures var w' := DrainStep(w, now, sent);
            var s, s' := PathWire(w.wire, path), PathWire(w'.wire, path);
            || s' == s + [Send(e.id, NextValue(s, e.id), sent)]
            || (s' == s && Head(w'.lane, path) == Head(w.lane, path) && e in w'.lane.heap)
  {
    HeadFacts(w.lane, path);
    if w.lane.heap != {} && Top(w.lane.heap).due <= now {
      var x := Top(w.lane.heap);
      if !Stale(w.lane, x) { SendTurn(w, x, now, sent, path, e); }
    } else if w.queue != [] {
      WireNext(w.wire, StateSent(w.queue[0]), path);
    }
  }

  lemma SendTurn(w: World, x: Entry, now: int, sent: int, path: string, e: Entry)
    requires PulsesSound(w) && Head(w.lane, path) == Some(e.id) && e in w.lane.heap
    requires x in w.lane.heap && !Stale(w.lane, x)
    ensures var l' := SendEvent(Pop(w.lane, x), x.id, sent);
            var d := PulseSent(w.lane.pulses[x.id].path, SentBy(w.lane, x.id, sent));
            var s, s' := PathWire(w.wire, path), PathWire(w.wire + [d], path);
            || s' == s + [Send(e.id, NextValue(s, e.id), sent)]
            || (s' == s && Head(l', path) == Head(w.lane, path) && e in l'.heap)
  {
    var p, s := w.lane.pulses[x.id], PathWire(w.wire, path);
    var d := PulseSent(p.path, SentBy(w.lane, x.id, sent));
    WireNext(w.wire, d, path);
    SendHeadFacts(w.lane, x, sent);
    SendHeads(w.lane, x, sent, path);
    HeadFacts(w.lane, path);
    assert Traced(w.lane, path, s);
    StageMeans(s, e.id, StageOf(w.lane, e.id), w.lane.heap);
    hide PulsesSound, Coherent, Words, PathWire;
    if p.path == path {
      assert x.id == e.id;
    } else {
      assert s + [] == s;
      SendKeepsEntries(w.lane, x, sent, e);
    }
  }

  lemma SendKeepsEntries(l: Lane, x: Entry, sent: int, e: Entry)
    requires x.id in l.pulses && e in l.heap && e != x
    ensures e in SendEvent(Pop(l, x), x.id, sent).heap
  {}

  lemma TurnGrows(w: World, now: int, sent: int, path: string)
    ensures PathWire(w.wire, path) <= PathWire(DrainStep(w, now, sent).wire, path)
  {
    var w' := DrainStep(w, now, sent);
    if w'.wire != w.wire {
      var d := w'.wire[|w.wire|];
      assert w'.wire == w.wire + [d];
      WireNext(w.wire, d, path);
    }
  }

  lemma {:induction false} BatchGrows(w: World, credit: int, clock: nat -> int, k: nat, path: string)
    requires PulsesSound(w) && Advancing(clock)
    ensures PathWire(w.wire, path) <= PathWire(Batch(w, credit, clock, k).0.wire, path)
    decreases MeasureOf(w)
  {
    hide PulsesSound, DrainStep;
    if credit < COST || Idle(w, clock(2 * k)) {} else {
      var w' := DrainStep(w, clock(2 * k), clock(2 * k + 1));
      BatchTurn(w, clock, k);
      TurnGrows(w, clock(2 * k), clock(2 * k + 1), path);
      BatchGrows(w', if |w'.wire| > |w.wire| then credit - COST else credit, clock, k + 1, path);
    }
  }

  // The next value of the path's head, sent no sooner than due.
  ghost predicate Follows(s: seq<Send>, s': seq<Send>, e: Entry) {
    && s <= s' && |s| < |s'|
    && s'[|s|].id == e.id && s'[|s|].value == NextValue(s, e.id) && s'[|s|].at >= e.due
  }

  /** A batch that ends with a credit left has sent the next value of every head that was due
      when it began. */
  lemma {:induction false} BatchSendsDue(w: World, credit: int, clock: nat -> int, k: nat, path: string, e: Entry)
    requires PulsesSound(w) && Advancing(clock)
    requires Head(w.lane, path) == Some(e.id) && e in w.lane.heap && e.due <= clock(2 * k)
    ensures var (w', left) := Batch(w, credit, clock, k);
            left >= 500 ==> Follows(PathWire(w.wire, path), PathWire(w'.wire, path), e)
    decreases MeasureOf(w)
  {
    hide PulsesSound, Coherent, Accounted, Traced, DrainStep, Idle, Batch;
    NotIdle(w, clock(2 * k), e);
    LaterReadings(clock, k);
    BatchUnfolds(w, credit, clock, k);
    if credit >= COST {
      var w1 := DrainStep(w, clock(2 * k), clock(2 * k + 1));
      var credit1 := if |w1.wire| > |w.wire| then credit - COST else credit;
      BatchTurn(w, clock, k);
      var w2 := Batch(w1, credit1, clock, k + 1).0;
      var goes := TurnOutcome(w, clock(2 * k), clock(2 * k + 1), path, e);
      if goes {
        BatchGrows(w1, credit1, clock, k + 1, path);
        SentThenGrown(PathWire(w.wire, path), PathWire(w1.wire, path), PathWire(w2.wire, path), e, clock(2 * k + 1));
      } else {
        BatchSendsDue(w1, credit1, clock, k + 1, path, e);
      }
    }
  }

  lemma TurnOutcome(w: World, now: int, sent: int, path: string, e: Entry) returns (goes: bool)
    requires PulsesSound(w) && Head(w.lane, path) == Some(e.id) && e in w.lane.heap
    ensures var w' := DrainStep(w, now, sent);
            var s, s' := PathWire(w.wire, path), PathWire(w'.wire, path);
            if goes then s' == s + [Send(e.id, NextValue(s, e.id), sent)]
            else s' == s && Head(w'.lane, path) == Some(e.id) && e in w'.lane.heap
  {
    TurnSendsOrKeeps(w, now, sent, path, e);
    var w' := DrainStep(w, now, sent);
    var s := PathWire(w.wire, path);
    goes := PathWire(w'.wire, path) == s + [Send(e.id, NextValue(s, e.id), sent)];
    hide *;
  }

  lemma BatchUnfolds(w: World, credit: int, clock: nat -> int, k: nat)
    requires PulsesSound(w) && Advancing(clock) && !Idle(w, clock(2 * k))
    ensures var w1 := DrainStep(w, clock(2 * k), clock(2 * k + 1));
            && PulsesSound(w1)
            && Batch(w, credit, clock, k)
               == if credit < COST then (w, credit)
                  else Batch(w1, if |w1.wire| > |w.wire| then credit - COST else credit, clock, k + 1)
  {
    hide PulsesSound, DrainStep, Idle, Advancing, MeasureOf;
    BatchTurn(w, clock, k);
  }

  lemma NotIdle(w: World, now: int, e: Entry)
    requires e in w.lane.heap && e.due <= now
    ensures !Idle(w, now)
  {
    assert Before(Top(w.lane.heap), e);
  }

  lemma LaterReadings(clock: nat -> int, k: nat)
    requires Advancing(clock)
    ensures clock(2 * k) <= clock(2 * k + 1) && clock(2 * k) <= clock(2 * (k + 1))
  {}

  lemma SentThenGrown(s: seq<Send>, s1: seq<Send>, s': seq<Send>, e: Entry, sent: int)
    requires s1 == s + [Send(e.id, NextValue(s, e.id), sent)] && s1 <= s' && sent >= e.due
    ensures Follows(s, s', e)
  {
    assert s <= s1 && s'[|s|] == s1[|s|];
  }

  /** And it stops for nothing else: with a credit left, every entry is due later than the
      clock it last read, and no state frame is queued. */
  lemma {:induction false} BatchStops(w: World, credit: int, clock: nat -> int, k: nat) returns (m: nat)
    requires PulsesSound(w) && Advancing(clock)
    ensures var (w', left) := Batch(w, credit, clock, k);
            k <= m && (left >= 500 ==> w'.queue == [] && forall f :: f in w'.lane.heap ==> clock(2 * m) < f.due)
    decreases MeasureOf(w)
  {
    if credit < COST || Idle(w, clock(2 * k)) {
      m := k;
      if w.lane.heap != {} {
        forall f | f in w.lane.heap && !Due(w, clock(2 * k)) ensures clock(2 * k) < f.due {
          assert Before(Top(w.lane.heap), f);
        }
      }
    } else {
      var w1 := DrainStep(w, clock(2 * k), clock(2 * k + 1));
      BatchTurn(w, clock, k);
      hide PulsesSound, DrainStep, Idle;
      m := BatchStops(w1, if |w1.wire| > |w.wire| then credit - COST else credit, clock, k + 1);
    }
  }

  // ------------------------------------------------------------ a whole pass

  lemma {:induction false} PurgeKeepsLive(w: World, e: Entry)
    requires e in w.lane.heap && !Stale(w.lane, e)
    ensures e in PurgeStale(w).lane.heap
    decreases |w.lane.heap|
  {
    if Stale(w.lane, Top(w.lane.heap)) {
      var x := Top(w.lane.heap);
      assert |w.lane.heap - {x}| == |w.lane.heap| - 1;
      PurgeKeepsLive(w.(lane := Pop(w.lane, x)), e);
    }
  }

  /** In every run, a pass of the drain that finds a head due and has a credit left at the end
      of its batch has sent that head's next value. */
  lemma PassSendsDue(cfg: Osc.Config, events: seq<Event>, credit: int, clock: nat -> int, path: string, e: Entry)
    requires Legal(events) && Advancing(clock) && 0 <= credit
    requires var w := Run(cfg, events);
             PulsesSound(w) && Head(w.lane, path) == Some(e.id) && e in w.lane.heap && e.due <= clock(0)
    ensures var w := Run(cfg, events);
            var w' := PassOnce(w, credit, cfg.rate, clock).0;
            credit - 500 * (|w'.wire| - |w.wire|) >= 500 ==> Follows(PathWire(w.wire, path), PathWire(w'.wire, path), e)
  {
    var w := Run(cfg, events);
    HeadFacts(w.lane, path);
    PurgePulses(w);
    PurgeKeeps(w);
    PurgeKeepsLive(w, e);
    var w1 := PurgeStale(w);
    assert Before(Top(w1.lane.heap), e);
    assert clock(0) <= clock(2);
    hide PulsesSound, Run, PurgeStale, Follows, Batch;
    BatchSpends(w1, credit, clock, 1);
    BatchSendsDue(w1, credit, clock, 1, path, e);
  }

  /** The pulse a turn sends is due, and its entry is the earliest of all, the one scheduled
      first among those due together; with any entry due, nothing but a pulse goes out. */
  lemma EarliestGoesFirst(w: World, now: int, sent: int) returns (e: Entry)
    requires PulsesSound(w) && exists f :: f in w.lane.heap && f.due <= now
    ensures e in w.lane.heap && e.due <= now
            && forall f :: f in w.lane.heap ==> e.due < f.due || (e.due == f.due && e.tie <= f.tie)
    ensures var w' := DrainStep(w, now, sent);
            && w'.queue == w.queue
            && if e.id in w.lane.pulses && !w.lane.pulses[e.id].dropped && w.lane.pulses[e.id].stage < 3
               then |w'.wire| == |w.wire| + 1 && w'.wire[..|w.wire|] == w.wire
                    && w'.wire[|w.wire|].PulseSent? && w'.wire[|w.wire|].path == w.lane.pulses[e.id].path
                    && w'.wire[|w.wire|].send.id == e.id && w'.wire[|w.wire|].send.at == sent
               else w'.wire == w.wire
  {
    e := Top(w.lane.heap);
    var f :| f in w.lane.heap && f.due <= now;
    assert Before(e, f);
  }
}
