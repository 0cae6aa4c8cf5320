/** The drain: due pulses first, then state, paced in credits. It empties both lanes after
    exactly the datagrams they owe, and never sends faster than its credits allow. */
module Drain {
  import opened Osc
  import opened EventLane
  import opened PulseTrace
  import opened RelayRules
  import opened RelayRun

  // The datagrams the lanes owe, and a bound on the turns they take.
  function Backlog(w: World): int {
    |w.queue| + w.lane.pending
  }

  function Measure(w: World): int {
    Backlog(w) + |w.lane.heap|
  }

  ghost predicate Due(w: World, now: int) {
    w.lane.heap != {} && Top(w.lane.heap).due <= now
  }

  ghost predicate Idle(w: World, now: int) {
    !Due(w, now) && w.queue == []
  }

  predicate Drained(w: World) {
    w.lane.heap == {} && w.queue == []
  }

  // ------------------------------------------------------------ one turn

  lemma PurgeProgress(w: World)
    ensures var w' := PurgeStale(w);
            Backlog(w') == Backlog(w) && w'.wire == w.wire && Measure(w') <= Measure(w)
            && (w'.lane.heap != w.lane.heap ==> Measure(w') < Measure(w))
  {
    PurgeKeeps(w);
    var rest := w.lane.heap - PurgeStale(w).lane.heap;
    assert w.lane.heap == PurgeStale(w).lane.heap + rest;
    assert |w.lane.heap| == |PurgeStale(w).lane.heap| + |rest|;
  }

  lemma ScheduleSize(l: Lane, id: nat, due: int)
    ensures |Schedule(l, id, due).heap| <= |l.heap| + 1
  {}

  lemma SendEventOwed(l: Lane, id: nat, sent: int)
    requires id in l.pulses
    ensures var l' := SendEvent(l, id, sent);
            l'.pending == l.pending - 1 && |l'.heap| <= |l.heap| + 1
  {
    ScheduleSize(Advance(l, id), id, sent + PULSE_GAP);
    ScheduleSize(Advance(l, id), id, sent + PULSE_HOLD);
    var l1 := Unlink(Advance(l, id), id);
    var path := l.pulses[id].path;
    if path in l1.byPath && l1.byPath[path] != [] { ScheduleSize(l1, l1.byPath[path][0], sent); }
  }

  /** Every turn that is not idle makes progress, and the backlog falls by exactly the
      datagrams sent: one, or none when a stale entry is skipped. */
  lemma TurnProgress(w: World, now: int, sent: int)
    requires PulsesSound(w)
    ensures var w' := DrainStep(w, now, sent);
            && Backlog(w') == Backlog(w) - (|w'.wire| - |w.wire|)
            && |w.wire| <= |w'.wire| <= |w.wire| + 1
            && (if Idle(w, now) then w' == w else Measure(w') < Measure(w))
  {
    if Due(w, now) {
      var e := Top(w.lane.heap);
      assert |w.lane.heap - {e}| == |w.lane.heap| - 1;
      if e.id in w.lane.pulses && Live(w.lane.pulses[e.id]) {
        SendEventOwed(Pop(w.lane, e), e.id, sent);
      }
    }
  }

  lemma DueSendsNoState(w: World, now: int, sent: int)
    requires Due(w, now)
    ensures StateWire(DrainStep(w, now, sent).wire) == StateWire(w.wire)
  {
    var w' := DrainStep(w, now, sent);
    if w'.wire != w.wire {
      WireNext(w.wire, w'.wire[|w.wire|], "");
      assert w'.wire == w.wire + [w'.wire[|w.wire|]];
    }
  }

  /** A state frame goes out only when no pulse is due: every path's next send is for later. */
  lemma PulsesGoFirst(w: World, now: int, sent: int, id: nat) returns (e: Entry)
    requires PulsesSound(w)
    requires StateWire(DrainStep(w, now, sent).wire) != StateWire(w.wire)
    requires id in w.lane.pulses && Live(w.lane.pulses[id]) && IsHead(w.lane, id)
    ensures e in w.lane.heap && e.id == id && now < e.due
  {
    if Due(w, now) { DueSendsNoState(w, now, sent); }
    assert HasEntry(w.lane, id);
    e :| e in w.lane.heap && e.id == id;
    assert Before(Top(w.lane.heap), e);
  }

  lemma LiveHead(l: Lane)
    requires Coherent(l) && l.order != []
    ensures l.heap != {}
  {
    var id := l.order[0];
    assert id in l.order;
    var path := l.pulses[id].path;
    assert DequeOk(l, path, l.byPath[path]);
    var h := l.byPath[path][0];
    assert h in l.byPath[path] && IsHead(l, h);
    assert HasEntry(l, h);
  }

  /** With an empty heap nothing is owed: no pulse is ever stranded. */
  lemma NothingStranded(l: Lane)
    requires Coherent(l) && l.heap == {}
    ensures l.order == [] && l.pending == 0
  {
    if l.order != [] { LiveHead(l); }
  }

  // ------------------------------------------------------------ measures and clocks

  // Turn k of a batch reads the clock twice: before choosing, and after sending.
  ghost predicate Advancing(clock: nat -> int) {
    && (forall i, j :: i <= j ==> clock(i) <= clock(j))
    && (forall t :: Reaches(clock, t))
  }

  ghost predicate Reaches(clock: nat -> int, t: int) {
    exists k :: clock(k) >= t
  }

  ghost function MeasureOf(w: World): nat {
    if 0 <= Measure(w) then Measure(w) else 0
  }

  lemma MeasureNat(w: World)
    requires PulsesSound(w)
    ensures 0 <= Backlog(w) <= Measure(w)
  {
    OwedBounds(w.lane.order, w.lane.pulses);
  }

  // ------------------------------------------------------------ pacing

  // Credits in 1/500 of a datagram, so a 2 ms tick at `rate` per second earns `rate`.
  const COST := 500

  function Cap(rate: nat): nat {
    if rate < COST then COST else rate
  }

  // sent, ticks: since the drain was last idle; allTicks: since it started.
  datatype Pace = Pace(w: World, credit: int, sent: nat, ticks: nat, allTicks: nat)

  // One batch: turns from turn k on until the credit is used up or nothing is left to send now.
  ghost function Batch(w: World, credit: int, clock: nat -> int, k: nat): (World, int)
    requires PulsesSound(w) && Advancing(clock)
    decreases MeasureOf(w)
  {
    if credit < COST || Idle(w, clock(2 * k)) then (w, credit)
    else
      var w' := DrainStep(w, clock(2 * k), clock(2 * k + 1));
      BatchTurn(w, clock, k);
      Batch(w', if |w'.wire| > |w.wire| then credit - COST else credit, clock, k + 1)
  }

  lemma BatchTurn(w: World, clock: nat -> int, k: nat)
    requires PulsesSound(w) && Advancing(clock) && !Idle(w, clock(2 * k))
    ensures var w' := DrainStep(w, clock(2 * k), clock(2 * k + 1));
            PulsesSound(w') && MeasureOf(w') < MeasureOf(w) && |w.wire| <= |w'.wire| <= |w.wire| + 1
  {
    var w' := DrainStep(w, clock(2 * k), clock(2 * k + 1));
    TurnProgress(w, clock(2 * k), clock(2 * k + 1));
    DrainPulses(w, clock(2 * k), clock(2 * k + 1));
    MeasureNat(w);
    MeasureNat(w');
  }

  lemma {:induction false} BatchSpends(w: World, credit: int, clock: nat -> int, k: nat)
    requires PulsesSound(w) && Advancing(clock) && 0 <= credit
    ensures var (w', credit') := Batch(w, credit, clock, k);
            && PulsesSound(w') && |w.wire| <= |w'.wire|
            && 0 <= credit' == credit - COST * (|w'.wire| - |w.wire|)
    decreases MeasureOf(w)
  {
    hide PulsesSound;
    if !(credit < COST || Idle(w, clock(2 * k))) {
      var w' := DrainStep(w, clock(2 * k), clock(2 * k + 1));
      BatchTurn(w, clock, k);
      BatchSpends(w', if |w'.wire| > |w.wire| then credit - COST else credit, clock, k + 1);
    }
  }

  /** A batch sends just what the backlog loses, and one with a credit and something to send
      makes progress. */
  lemma {:induction false} BatchProgress(w: World, credit: int, clock: nat -> int, k: nat)
    requires PulsesSound(w) && Advancing(clock)
    ensures var w' := Batch(w, credit, clock, k).0;
            && Backlog(w') == Backlog(w) - (|w'.wire| - |w.wire|) && MeasureOf(w') <= MeasureOf(w)
            && (credit >= COST && !Idle(w, clock(2 * k)) ==> MeasureOf(w') < MeasureOf(w))
            && (credit < COST ==> w' == w)
    decreases MeasureOf(w)
  {
    hide PulsesSound;
    if credit < COST || Idle(w, clock(2 * k)) {} else {
      var w' := DrainStep(w, clock(2 * k), clock(2 * k + 1));
      TurnProgress(w, clock(2 * k), clock(2 * k + 1));
      BatchTurn(w, clock, k);
      BatchProgress(w', if |w'.wire| > |w.wire| then credit - COST else credit, clock, k + 1);
    }
  }

  function Earn(credit: int, rate: nat): int {
    if credit + rate < Cap(rate) then credit + rate else Cap(rate)
  }

  // What happens between two sleeps: an input while the drain sleeps, or one pass of its
  // outer loop with the clock it reads.
  datatype Act = Input(e: Event) | Pass(clock: nat -> int)

  ghost predicate LegalAct(a: Act) {
    match a
    case Input(e) => !e.DrainOne? && !e.Purge?
    case Pass(clock) => Advancing(clock)
  }

  // One pass of the outer loop: stale entries leave; idle, the drain waits and gets a full
  // credit; else it sends a batch, sleeps for a tick and earns its rate.
  ghost function PassOnce(w: World, credit: int, rate: nat, clock: nat -> int): (World, int)
    requires PulsesSound(w) && Advancing(clock)
  {
    PurgePulses(w);
    var w1 := PurgeStale(w);
    if Idle(w1, clock(0)) then (w1, Cap(rate))
    else
      var (w', left) := Batch(w1, credit, clock, 1);
      (w', Earn(left, rate))
  }

  ghost function PassPace(p: Pace, rate: nat, clock: nat -> int): Pace
    requires PulsesSound(p.w) && Advancing(clock) && 0 <= p.credit
  {
    var (w', credit) := PassOnce(p.w, p.credit, rate, clock);
    PassSpends(p.w, p.credit, rate, clock);
    if Idle(PurgeStale(p.w), clock(0)) then Pace(w', credit, 0, 0, p.allTicks)
    else Pace(w', credit, p.sent + |w'.wire| - |p.w.wire|, p.ticks + 1, p.allTicks + 1)
  }

  lemma PassSpends(w: World, credit: int, rate: nat, clock: nat -> int)
    requires PulsesSound(w) && Advancing(clock) && 0 <= credit
    ensures var (w', credit') := PassOnce(w, credit, rate, clock);
            PulsesSound(w') && |w.wire| <= |w'.wire|
            && var full := if rate < 500 then 500 else rate;
            var left := credit - 500 * (|w'.wire| - |w.wire|);
            if Idle(PurgeStale(w), clock(0)) then w'.wire == w.wire && credit' == full
            else 0 <= left && credit' == if left + rate < full then left + rate else full
  {
    hide PulsesSound, Coherent, Accounted, Traced, PurgeStale, Batch, Idle;
    PurgePulses(w);
    PurgeKeeps(w);
    if !Idle(PurgeStale(w), clock(0)) { BatchSpends(PurgeStale(w), credit, clock, 1); }
  }

  // ------------------------------------------------------------ termination

  // Pass j reads its own clock; the passes begin later and later, without bound.
  ghost predicate PassClocks(clocks: nat -> nat -> int) {
    && (forall j :: Advancing(clocks(j)))
    && (forall i, j :: i <= j ==> clocks(i)(0) <= clocks(j)(0))
    && (forall t :: BeginsBy(clocks, t))
  }

  ghost predicate BeginsBy(clocks: nat -> nat -> int, t: int) {
    exists j :: clocks(j)(0) >= t
  }

  // n passes of the outer loop, from pass j on.
  ghost function PassMany(w: World, credit: int, rate: nat, clocks: nat -> nat -> int, j: nat, n: nat): (World, int)
    requires PulsesSound(w) && PassClocks(clocks) && 0 <= credit
    decreases n
  {
    if n == 0 then (w, credit)
    else
      var (w', credit') := PassOnce(w, credit, rate, clocks(j));
      PassSpends(w, credit, rate, clocks(j));
      PassMany(w', credit', rate, clocks, j + 1, n - 1)
  }

  // A pass sends just what the backlog loses; a busy one with a credit, or one that finds a
  // stale entry, makes progress, and any other leaves the lanes and only earns.
  lemma PassMoves(w: World, credit: int, rate: nat, clock: nat -> int)
    requires PulsesSound(w) && Advancing(clock) && 0 <= credit
    ensures var (w', credit') := PassOnce(w, credit, rate, clock);
            && Backlog(w') == Backlog(w) - (|w'.wire| - |w.wire|)
            && (w' == w || MeasureOf(w') < MeasureOf(w))
            && (w' == w ==> if Idle(w, clock(0)) then credit' == Cap(rate)
                            else credit < COST && credit' == Earn(credit, rate))
  {
    PurgePulses(w);
    PurgeKeeps(w);
    PurgeProgress(w);
    var w1 := PurgeStale(w);
    MeasureNat(w);
    MeasureNat(w1);
    assert w1.lane.heap == w.lane.heap ==> w1 == w;
    assert clock(0) <= clock(2);
    BatchSpends(w1, credit, clock, 1);
    BatchProgress(w1, credit, clock, 1);
    hide PulsesSound, PurgeStale, Batch;
    if Idle(w1, clock(0)) {} else {}
  }

  // How many passes begin at most before the next one that finds something due.
  lemma NextDuePass(w: World, clocks: nat -> nat -> int, j: nat) returns (wait: nat)
    requires PassClocks(clocks)
    ensures DueWithin(w, clocks, j, wait)
  {
    if w.lane.heap == {} { return 0; }
    assert BeginsBy(clocks, Top(w.lane.heap).due);
    var k :| clocks(k)(0) >= Top(w.lane.heap).due;
    wait := k;
    assert clocks(k)(0) <= clocks(j + wait)(0);
  }

  ghost predicate DueWithin(w: World, clocks: nat -> nat -> int, j: nat, wait: nat) {
    w.lane.heap != {} ==> Top(w.lane.heap).due <= clocks(j + wait)(0)
  }

  lemma {:induction false} PassesEmpty(w: World, credit: int, rate: nat, clocks: nat -> nat -> int, j: nat, wait: nat)
    returns (n: nat)
    requires PulsesSound(w) && PassClocks(clocks) && DueWithin(w, clocks, j, wait)
    requires rate > 0 && 0 <= credit <= Cap(rate)
    ensures var w' := PassMany(w, credit, rate, clocks, j, n).0;
            Drained(w') && PulsesSound(w') && |w'.wire| - |w.wire| == Backlog(w) - Backlog(w')
    decreases MeasureOf(w), wait, Cap(rate) - credit
  {
    hide PulsesSound, PassClocks;
    if Drained(w) { return 0; }
    assert Advancing(clocks(j)) by { PassAdvances(clocks, j); }
    var (w', credit') := PassOnce(w, credit, rate, clocks(j));
    PassSpends(w, credit, rate, clocks(j));
    PassMoves(w, credit, rate, clocks(j));
    var wait' := wait;
    if w' != w {
      wait' := NextDuePass(w', clocks, j + 1);
    } else if Idle(w, clocks(j)(0)) {
      wait' := wait - 1;
    } else {
      LaterPass(w, clocks, j, wait);
    }
    n := PassesEmpty(w', credit', rate, clocks, j + 1, wait');
    n := n + 1;
  }

  lemma PassAdvances(clocks: nat -> nat -> int, j: nat)
    requires PassClocks(clocks)
    ensures Advancing(clocks(j))
  {}

  lemma LaterPass(w: World, clocks: nat -> nat -> int, j: nat, wait: nat)
    requires PassClocks(clocks) && DueWithin(w, clocks, j, wait)
    ensures DueWithin(w, clocks, j + 1, wait)
  {
    assert clocks(j + wait)(0) <= clocks(j + 1 + wait)(0);
  }

  /** With no new input and time moving on, the paced drain empties both lanes, at any rate
      above 0 and from any credit, despite stale heap entries, after exactly as many datagrams
      as the lanes owed. */
  lemma DrainTerminates(w: World, credit: int, rate: nat, clocks: nat -> nat -> int) returns (n: nat)
    requires PulsesSound(w) && PassClocks(clocks) && rate > 0 && 0 <= credit <= Cap(rate)
    ensures var w' := PassMany(w, credit, rate, clocks, 0, n).0;
            && w'.queue == [] && w'.lane.order == [] && w'.lane.pending == 0
            && |w'.wire| - |w.wire| == |w.queue| + w.lane.pending
  {
    var wait := NextDuePass(w, clocks, 0);
    n := PassesEmpty(w, credit, rate, clocks, 0, wait);
    NothingStranded(PassMany(w, credit, rate, clocks, 0, n).0.lane);
  }

  /** The rate is needed: at 0 a drain that lacks a whole credit sends nothing more while a
      state frame is queued. */
  lemma {:induction false} NoRateStalls(w: World, credit: int, clocks: nat -> nat -> int, j: nat, n: nat)
    requires PulsesSound(w) && PassClocks(clocks) && 0 <= credit < COST && w.queue != []
    ensures var (w', credit') := PassMany(w, credit, 0, clocks, j, n);
            w'.wire == w.wire && w'.queue == w.queue && credit' == credit
    decreases n
  {
    if n > 0 {
      PurgePulses(w);
      PurgeKeeps(w);
      PassSpends(w, credit, 0, clocks(j));
      hide PulsesSound, PassClocks, PurgeStale;
      NoRateStalls(PassOnce(w, credit, 0, clocks(j)).0, credit, clocks, j + 1, n - 1);
    }
  }

  // ------------------------------------------------------------ rate

  ghost predicate Paced(p: Pace, rate: nat) {
    && PulsesSound(p.w)
    && 0 <= p.credit <= Cap(rate)
    && Within(p.sent, p.credit, p.ticks, rate)
    && COST * |p.w.wire| <= Cap(rate) * p.allTicks
  }

  // What has been sent and what is left fits one full credit and what the ticks earned.
  ghost predicate Within(sent: nat, credit: int, ticks: nat, rate: nat) {
    COST * sent + credit <= Cap(rate) + ticks * rate
  }

  lemma TickWithin(sent: nat, more: nat, credit: int, ticks: nat, allTicks: nat, total: nat, rate: nat)
    requires Within(sent, credit, ticks, rate) && COST * more <= credit <= Cap(rate)
    requires COST * total <= Cap(rate) * allTicks
    ensures Within(sent + more, Earn(credit - COST * more, rate), ticks + 1, rate)
    ensures COST * (total + more) <= Cap(rate) * (allTicks + 1)
  {
    assert (ticks + 1) * rate == ticks * rate + rate;
    assert Cap(rate) * (allTicks + 1) == Cap(rate) * allTicks + Cap(rate);
  }

  ghost function Do(cfg: Config, p: Pace, a: Act): Pace
    requires LegalAct(a) && Paced(p, cfg.rate)
  {
    match a
    case Input(e) => p.(w := Step(cfg, p.w, e))
    case Pass(clock) => PassPace(p, cfg.rate, clock)
  }

  lemma InputKeepsWire(cfg: Config, w: World, e: Event)
    requires !e.DrainOne? && !e.Purge?
    ensures Step(cfg, w, e).wire == w.wire
  {
    match e
    case Connect(now) => IssueKeepsWire(w, OnConnect(w.rules, now).cmds, now);
    case Disconnect(now) => IssueKeepsWire(w, OnDisconnect(cfg, w.rules).cmds, now);
    case FrameIn(address, arg, now) => IssueKeepsWire(w, OnFrame(cfg, w.rules, address, arg, now).cmds, now);
    case DumpAsked(names) => IssueKeepsWire(w, Dump(w.rules, names), 0);
    case Heartbeat =>
  }

  lemma {:induction false} IssueKeepsWire(w: World, cmds: seq<Command>, now: int)
    ensures IssueAll(w, cmds, now).wire == w.wire
  {
    if cmds != [] { IssueKeepsWire(w, cmds[..|cmds| - 1], now); }
  }

  lemma DoPaced(cfg: Config, p: Pace, a: Act)
    requires LegalAct(a) && Paced(p, cfg.rate)
    ensures Paced(Do(cfg, p, a), cfg.rate)
  {
    match a
    case Input(e) =>
      StepPulses(cfg, p.w, e);
      InputKeepsWire(cfg, p.w, e);
    case Pass(clock) =>
      PassPaced(p, cfg.rate, clock);
  }

  lemma PassPaced(p: Pace, rate: nat, clock: nat -> int)
    requires Paced(p, rate) && Advancing(clock)
    ensures Paced(PassPace(p, rate, clock), rate)
  {
    PassSpends(p.w, p.credit, rate, clock);
    hide PulsesSound, PassOnce, Idle;
    if !Idle(PurgeStale(p.w), clock(0)) {
      var more := |PassOnce(p.w, p.credit, rate, clock).0.wire| - |p.w.wire|;
      TickWithin(p.sent, more, p.credit, p.ticks, p.allTicks, |p.w.wire|, rate);
    }
    hide Within;
  }

  ghost predicate LegalActs(acts: seq<Act>) {
    acts == [] || (LegalActs(acts[..|acts| - 1]) && LegalAct(acts[|acts| - 1]))
  }

  ghost function StartPace(rate: nat): (p: Pace)
    ensures Paced(p, rate)
  {
    StartPulses();
    Pace(Start(), Cap(rate), 0, 0, 0)
  }

  ghost function Passes(cfg: Config, acts: seq<Act>): (p: Pace)
    requires LegalActs(acts)
    ensures Paced(p, cfg.rate)
  {
    hide Paced, LegalAct, StartPace, Do;
    if acts == [] then StartPace(cfg.rate)
    else
      var p := Passes(cfg, acts[..|acts| - 1]);
      DoPaced(cfg, p, acts[|acts| - 1]);
      Do(cfg, p, acts[|acts| - 1])
  }

  /** The rate holds: over N ticks since the drain was last idle at most
      max(500, rate) + N * rate credits go out as datagrams, at 500 each, or are left; and over
      all N ticks since the start, idle points or not, at most N * max(500, rate). */
  lemma RateHolds(cfg: Config, acts: seq<Act>)
    requires LegalActs(acts)
    ensures var p := Passes(cfg, acts);
            var full := if cfg.rate < 500 then 500 else cfg.rate;
            && 500 * p.sent + p.credit <= full + p.ticks * cfg.rate && 0 <= p.credit
            && 500 * |p.w.wire| <= full * p.allTicks
  {
    var p := Passes(cfg, acts);
    assert Paced(p, cfg.rate);
  }

  // ------------------------------------------------------------ passes are runs

  lemma {:induction false} BatchIsRun(cfg: Config, events: seq<Event>, credit: int, clock: nat -> int, k: nat)
    returns (more: seq<Event>)
    requires Legal(events) && Advancing(clock) && PulsesSound(Run(cfg, events))
    ensures Legal(more) && Run(cfg, more) == Batch(Run(cfg, events), credit, clock, k).0
    decreases MeasureOf(Run(cfg, events))
  {
    hide PulsesSound, Run, DrainStep;
    var w := Run(cfg, events);
    if credit < COST || Idle(w, clock(2 * k)) { return events; }
    var e := DrainOne(clock(2 * k), clock(2 * k + 1));
    BatchTurn(w, clock, k);
    RunNext(cfg, events, e);
    more := BatchIsRun(cfg, events + [e], if |Run(cfg, events + [e]).wire| > |w.wire| then credit - COST else credit,
                       clock, k + 1);
  }

  lemma PassIsRun(cfg: Config, events: seq<Event>, credit: int, clock: nat -> int) returns (more: seq<Event>)
    requires Legal(events) && Advancing(clock) && PulsesSound(Run(cfg, events))
    ensures Legal(more) && Run(cfg, more) == PassOnce(Run(cfg, events), credit, cfg.rate, clock).0
  {
    hide PulsesSound, Run, PurgeStale;
    RunNext(cfg, events, Purge);
    more := events + [Purge];
    PurgePulses(Run(cfg, events));
    if !Idle(Run(cfg, more), clock(0)) { more := BatchIsRun(cfg, more, credit, clock, 1); }
  }

  /** Whatever the paced drain does is a run, so all that holds of every run holds of it. */
  lemma {:induction false} PassesAreRuns(cfg: Config, acts: seq<Act>) returns (events: seq<Event>)
    requires LegalActs(acts)
    ensures Legal(events) && Run(cfg, events) == Passes(cfg, acts).w
  {
    if acts == [] { return []; }
    var prev := PassesAreRuns(cfg, acts[..|acts| - 1]);
    var p := Passes(cfg, acts[..|acts| - 1]);
    hide PulsesSound, Run, Step, PassOnce, Idle;
    match acts[|acts| - 1]
    case Input(e) =>
      RunNext(cfg, prev, e);
      events := prev + [e];
    case Pass(clock) =>
      events := PassIsRun(cfg, prev, p.credit, clock);
  }
}
