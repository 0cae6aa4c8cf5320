/** The relay as the source writes it: one object whose methods update their fields step by
    step, each proved to be a step of the model in RelayRun. */
module OscRelay {
  import opened OrderedDict
  import opened Osc
  import opened StateLane
  import opened EventLane
  import opened PulseTrace
  import opened RelayRules
  import opened CueEdges
  import opened RelayRun
  import opened Drain
  import opened RelayTheorems

  // ------------------------------------------------------------ composing steps

  lemma {:induction false} IssueAllConcat(w: World, a: seq<Command>, b: seq<Command>, now: int)
    ensures IssueAll(w, a + b, now) == IssueAll(IssueAll(w, a, now), b, now)
  {
    if b == [] {
      assert a + b == a;
    } else {
      assert (a + b)[..|a + b| - 1] == a + b[..|b| - 1];
      IssueAllConcat(w, a, b[..|b| - 1], now);
    }
  }

  // Issuing commands and updating the rules do not meet.
  lemma {:induction false} IssueAllRules(w: World, r: Rules, cmds: seq<Command>, now: int)
    ensures IssueAll(w.(rules := r), cmds, now) == IssueAll(w, cmds, now).(rules := r)
  {
    if cmds != [] { IssueAllRules(w, r, cmds[..|cmds| - 1], now); }
  }

  lemma IssueNone(w: World, now: int)
    ensures IssueAll(w, [], now) == w
  {}

  lemma ApplyTwice(w: World, r1: Rules, a: seq<Command>, r2: Rules, b: seq<Command>, now: int)
    ensures Apply(Apply(w, Outcome(r1, a), now), Outcome(r2, b), now) == Apply(w, Outcome(r2, a + b), now)
  {
    IssueAllConcat(w, a, b, now);
    IssueAllRules(IssueAll(w, a, now), r1, b, now);
  }

  lemma TopUnique(l: Lane, e: Entry)
    requires Coherent(l) && IsTop(l.heap, e)
    ensures e == Top(l.heap)
  {
    assert Before(e, Top(l.heap)) && Before(Top(l.heap), e);
  }

  // One turn of the overflow loop.
  lemma MakeRoomStep(l: Lane, now: int)
    requires Coherent(l)
    ensures l.pending + 3 <= EVENT_CAP ==> MakeRoom(l, now) == (l, true)
    ensures l.pending + 3 > EVENT_CAP ==>
              match Oldest(l.order, l.pulses)
              case None => MakeRoom(l, now) == (l.(dropped := l.dropped + 1), false)
              case Some(id) =>
                var l' := Drop(l, id, now);
                Coherent(l') && MakeRoom(l, now) == MakeRoom(l', now) && |l'.order| < |l.order|
  {
    if l.pending + 3 <= EVENT_CAP { return; }
    match Oldest(l.order, l.pulses)
    case None =>
    case Some(id) =>
      DropCoherent(l, id, now);
      RemoveShrinks(l.order, id);
      hide Coherent;
  }

  class OscRelay {
    const cfg: Config

    // Engine-derived state
    var load: Load
    var connected: bool
    var suppressUntil: int
    var held: seq<Held>
    var cache: seq<Item<string, Arg>>
    var cachedPerCue: nat
    var cueVals: seq<Item<string, int>>

    // Lanes
    var state: Queue
    var heap: set<Entry>
    var seqNo: nat
    var byPath: map<string, seq<nat>>
    var order: seq<nat>
    var pulses: map<nat, Pulse>
    var pendingSends: int

    // Counters
    var eventsDropped: nat
    var heldDropped: nat
    var cacheDropped: nat
    var dumpsServed: nat
    var edgesSent: nat

    // What _send hands to every target, and the history the proofs speak of.
    var wire: seq<Datagram>
    ghost var commands: seq<Command>
    ghost var completed: nat
    ghost var linkDue: bool

    ghost function RulesNow(): Rules
      reads this
    {
      Rules(load, connected, suppressUntil, held, cache, cachedPerCue, cueVals, heldDropped, cacheDropped)
    }

    ghost function LaneNow(): Lane
      reads this
    {
      Lane(heap, seqNo, byPath, order, pulses, pendingSends, eventsDropped, edgesSent)
    }

    ghost function Now(): World
      reads this
    {
      World(RulesNow(), state, LaneNow(), commands, wire, completed, linkDue)
    }

    ghost predicate Valid()
      reads this
    {
      PulsesSound(Now())
    }

    constructor (cfg: Config)
      ensures this.cfg == cfg
      ensures Now() == World(INITIAL, [], EMPTY, [], [], 0, false)
    {
      this.cfg := cfg;
      load, connected, suppressUntil, held, cache, cachedPerCue, cueVals := Unknown, false, 0, [], [], 0, [];
      state, heap, seqNo, byPath, order, pulses, pendingSends := [], {}, 0, map[], [], map[], 0;
      eventsDropped, heldDropped, cacheDropped, dumpsServed, edgesSent := 0, 0, 0, 0, 0;
      wire, commands, completed, linkDue := [], [], 0, false;
    }

    // start(), as far as the lanes go.
    method Begin()
      requires Now() == World(INITIAL, [], EMPTY, [], [], 0, false)
      modifies this
      ensures Now() == Start() && Valid()
    {
      StartPulses();
      PutState(LINK_PATH, Int(0), true, 0);
    }

    // ---------------------------------------------------------- lanes

    method PutState(address: string, arg: Arg, head: bool, ghost now: int)
      modifies `state, `commands, `linkDue
      ensures Now() == Issue(old(Now()), Put(address, arg, head), now)
    {
      if address == LINK_PATH && Has(state, address) && !head {
        state := Set(state, address, arg);
      } else {
        state := Without(state, address);
        if head {
          state := [Item(address, arg)] + state;
        } else {
          state := state + [Item(address, arg)];
        }
      }
      commands, linkDue := commands + [Put(address, arg, head)], linkDue || head;
    }

    method SchedulePulse(id: nat, due: int)
      modifies `heap, `seqNo
      ensures LaneNow() == Schedule(old(LaneNow()), id, due)
    {
      seqNo := seqNo + 1;
      heap := heap + {Entry(due, seqNo, id)};
    }

    method DropPulse(id: nat, now: int)
      requires id in pulses
      modifies `pulses, `order, `pendingSends, `eventsDropped, `byPath, `heap, `seqNo
      ensures LaneNow() == Drop(old(LaneNow()), id, now)
    {
      var p := pulses[id];
      pulses := pulses[id := p.(dropped := true)];
      order := Remove(order, id);
      pendingSends := pendingSends - (3 - p.stage);
      eventsDropped := eventsDropped + 1;
      if p.path !in byPath { return; }
      var dq := byPath[p.path];
      var wasHead := dq != [] && dq[0] == id;
      dq := Remove(dq, id);
      if dq == [] {
        byPath := byPath - {p.path};
      } else {
        byPath := byPath[p.path := dq];
        if wasHead { SchedulePulse(dq[0], now); }
      }
    }

    method DropOldestPulse(now: int) returns (dropped: bool)
      requires Coherent(LaneNow())
      modifies `pulses, `order, `pendingSends, `eventsDropped, `byPath, `heap, `seqNo
      ensures match Oldest(old(order), old(pulses))
              case None => !dropped && LaneNow() == old(LaneNow())
              case Some(id) => dropped && id in old(pulses) && LaneNow() == Drop(old(LaneNow()), id, now)
    {
      for i := 0 to |order|
        invariant LaneNow() == old(LaneNow())
        invariant Oldest(order, pulses) == Oldest(order[i..], pulses)
      {
        var id := order[i];
        assert id in order;
        if pulses[id].stage < 2 {
          DropPulse(id, now);
          return true;
        }
      }
      return false;
    }

    // The overflow loop.
    method MakePulseRoom(now: int) returns (ok: bool)
      requires Coherent(LaneNow())
      modifies `pulses, `order, `pendingSends, `eventsDropped, `byPath, `heap, `seqNo
      ensures (LaneNow(), ok) == MakeRoom(old(LaneNow()), now)
    {
      hide Coherent, MakeRoom, Drop, Oldest;
      ghost var l0 := LaneNow();
      MakeRoomStep(l0, now);
      while pendingSends + 3 > EVENT_CAP
        invariant Coherent(LaneNow())
        invariant MakeRoom(LaneNow(), now) == MakeRoom(l0, now)
        decreases |order|
      {
        MakeRoomStep(LaneNow(), now);
        var dropped := DropOldestPulse(now);
        if !dropped {
          eventsDropped := eventsDropped + 1;
          return false;
        }
      }
      MakeRoomStep(LaneNow(), now);
      return true;
    }

    method AppendPulse(path: string, now: int)
      modifies `pulses, `order, `pendingSends, `byPath, `heap, `seqNo
      ensures LaneNow() == Append(old(LaneNow()), path, now)
    {
      hide Schedule;
      seqNo := seqNo + 1;
      var id := seqNo;
      order := order + [id];
      pulses := pulses[id := Pulse(path, 0, false)];
      pendingSends := pendingSends + 3;
      var dq := (if path in byPath then byPath[path] else []) + [id];
      byPath := byPath[path := dq];
      if |dq| == 1 { SchedulePulse(id, now); }
    }

    method AddPulse(path: string, now: int)
      requires Coherent(LaneNow())
      modifies `pulses, `order, `pendingSends, `eventsDropped, `byPath, `heap, `seqNo, `commands
      ensures Now() == Issue(old(Now()), Request(path), now)
    {
      hide Coherent, EventLane.AddPulse, Issue;
      IssueRequest(Now(), path, now);
      commands := commands + [Request(path)];
      QueuePulse(path, now);
    }

    method QueuePulse(path: string, now: int)
      requires Coherent(LaneNow())
      modifies `pulses, `order, `pendingSends, `eventsDropped, `byPath, `heap, `seqNo
      ensures LaneNow() == EventLane.AddPulse(old(LaneNow()), path, now)
    {
      hide Coherent, MakeRoom, Append;
      var ok := MakePulseRoom(now);
      if ok { AppendPulse(path, now); }
    }

    // The trailing 0 is out: the pulse leaves its lists, and the path's next one starts.
    method FinishPulse(id: nat, path: string, sent: int)
      requires id in pulses && pulses[id].path == path
      requires path in byPath && byPath[path] != [] && byPath[path][0] == id && Increasing(byPath[path])
      modifies `order, `byPath, `heap, `seqNo
      ensures LaneNow() == StartHead(Unlink(old(LaneNow()), id), path, sent)
    {
      RemoveHead(byPath[path], id);
      order := Remove(order, id);
      var dq := byPath[path][1..];
      if dq != [] {
        byPath := byPath[path := dq];
        SchedulePulse(dq[0], sent);
      } else {
        byPath := byPath - {path};
      }
    }

    // The datagram goes out and is counted.
    method CountSend(id: nat, sent: int)
      requires id in pulses
      modifies `wire, `pulses, `pendingSends, `edgesSent, `completed
      ensures LaneNow() == Advance(old(LaneNow()), id)
      ensures wire == old(wire) + [PulseSent(old(pulses[id].path), SentBy(old(LaneNow()), id, sent))]
      ensures completed == if old(pulses[id].stage) == 2 then old(completed) + 1 else old(completed)
    {
      var p := pulses[id];
      wire := wire + [PulseSent(p.path, Send(id, if p.stage == 1 then 1 else 0, sent))];
      pulses := pulses[id := p.(stage := p.stage + 1)];
      pendingSends := pendingSends - 1;
      completed := if p.stage == 2 then completed + 1 else completed;
      if p.stage + 1 == 2 { edgesSent := edgesSent + 1; }
    }

    method SendPulse(id: nat, sent: int)
      requires id in pulses && IsHead(LaneNow(), id) && PathsOk(LaneNow())
      modifies `wire, `pulses, `pendingSends, `edgesSent, `order, `byPath, `heap, `seqNo, `completed
      ensures LaneNow() == SendEvent(old(LaneNow()), id, sent)
      ensures wire == old(wire) + [PulseSent(old(pulses[id].path), SentBy(old(LaneNow()), id, sent))]
      ensures completed == if old(pulses[id].stage) == 2 then old(completed) + 1 else old(completed)
    {
      hide PathsOk, DequeOk, Unlink, StartHead, Schedule, Remove, SentBy;
      var p := pulses[id];
      PathsHead(LaneNow(), id);
      CountSend(id, sent);
      if p.stage == 0 {
        SchedulePulse(id, sent + PULSE_GAP);
      } else if p.stage == 1 {
        SchedulePulse(id, sent + PULSE_HOLD);
      } else {
        FinishPulse(id, p.path, sent);
      }
    }

    // ---------------------------------------------------------- rules

    // A forwarded frame is cached, but for a new per-cue one once the cap is reached.
    method CacheFrame(key: string, arg: Arg)
      requires Matches(cfg, key)
      modifies `cache, `cachedPerCue, `cacheDropped
      ensures RulesNow() == Forward(cfg, old(RulesNow()), key, arg).rules
    {
      hide StatusAddress, PerCue, Matches, Has, Set;
      var address := StatusAddress(key);
      if !Has(cache, address) && PerCue(key) {
        if cachedPerCue >= CACHE_CAP {
          cacheDropped := cacheDropped + 1;
          return;
        }
        cachedPerCue := cachedPerCue + 1;
      }
      cache := Set(cache, address, arg);
    }

    method ForwardFrame(key: string, arg: Arg, ghost now: int)
      modifies `state, `commands, `linkDue, `cache, `cachedPerCue, `cacheDropped
      ensures Now() == Apply(old(Now()), Forward(cfg, old(RulesNow()), key, arg), now)
    {
      ForwardPuts(Now(), cfg, key, arg, now);
      hide Forward, Matches, Issue, Apply, StateLane.PutState, StatusAddress;
      if !Matches(cfg, key) { return; }
      CacheFrame(key, arg);
      PutState(StatusAddress(key), arg, false, now);
    }

    // The edge a committed change of a cue's value asks for.
    method RequestEdge(uuid: string, prev: int, v: int, now: int)
      requires Coherent(LaneNow())
      modifies `pulses, `order, `pendingSends, `eventsDropped, `byPath, `heap, `seqNo, `commands
      ensures Now() == IssueAll(old(Now()), Edge(uuid, prev, v), now)
    {
      ghost var w := Now();
      IssueOne(w, Request(STARTED_PREFIX + uuid), now);
      IssueOne(w, Request(ENDED_PREFIX + uuid), now);
      hide Coherent, Issue;
      if !Playing(prev) && Playing(v) {
        AddPulse(STARTED_PREFIX + uuid, now);
      } else if Playing(prev) && v == 100 {
        AddPulse(ENDED_PREFIX + uuid, now);
      }
    }

    // The cue's value, and the edge it may ask for.
    method RecordCue(uuid: string, v: Option<int>, live: bool, now: int)
      requires Coherent(LaneNow())
      modifies `cueVals, `pulses, `order, `pendingSends, `eventsDropped, `byPath, `heap, `seqNo, `commands
      ensures Now() == Recording(old(Now()), uuid, v, live, now)
    {
      hide Coherent, Edge, IssueAll, Get, Set, Has;
      var prev := Get(cueVals, uuid, 0);
      var kept := if v.Some? then v.value else prev;
      cueVals := Set(cueVals, uuid, kept);
      commands := commands + [Committed(uuid, kept)];
      if live && v.Some? && now >= suppressUntil {
        RequestEdge(uuid, prev, v.value, now);
      }
    }

    method CommitFrame(key: string, arg: Arg, live: bool, now: int)
      requires Valid()
      modifies this
      ensures Now() == Apply(old(Now()), Commit(cfg, old(RulesNow()), key, arg, live, now), now)
      ensures Valid()
    {
      ApplyPulses(Now(), Commit(cfg, RulesNow(), key, arg, live, now), now);
      CommitSteps(cfg, Now(), key, arg, live, now);
      assert Coherent(LaneNow());
      hide PulsesSound, Coherent, Forward, Commit, PerCue, Apply, Recording;
      if IsCue(key) {
        RecordCue(key[4..], AsInt(arg), live, now);
      }
      ForwardFrame(key, arg, now);
    }

    method SynthResets(ghost now: int)
      modifies `state, `commands, `linkDue
      ensures Now() == IssueAll(old(Now()), RelayRules.SynthResets(cfg, old(RulesNow())), now)
    {
      hide Issue, Matches, CueAddress;
      if Matches(cfg, "cue/") {
        for i := 0 to |cueVals|
          invariant Now() == IssueAll(old(Now()), Resets(cueVals[..i]), now)
        {
          PutState(CueAddress(cueVals[i].key), Int(0), false, now);
          ResetsNext(old(Now()), cueVals, i, now);
        }
        assert cueVals[..|cueVals|] == cueVals;
      }
    }

    method DropPerCueEntries()
      modifies `cache, `cachedPerCue, `cueVals
      ensures RulesNow() == DropPerCue(old(RulesNow()))
    {
      var kept := [];
      for i := 0 to |cache|
        invariant kept == GlobalOnly(cache[..i])
      {
        assert cache[..i + 1][..i] == cache[..i];
        if !PerCueAddress(cache[i].key) { kept := kept + [cache[i]]; }
      }
      assert cache[..|cache|] == cache;
      cache, cachedPerCue, cueVals := kept, 0, [];
    }

    method CommitAll(frames: seq<Held>, now: int)
      requires Valid()
      modifies this
      ensures Now() == Apply(old(Now()), CommitHeld(cfg, old(RulesNow()), frames, now), now)
      ensures Valid()
    {
      hide PulsesSound, Commit, CommitHeld, IssueAll;
      ghost var w := Now();
      CommitNone(cfg, w, frames, now);
      for i := 0 to |frames|
        invariant Valid()
        invariant Now() == Apply(w, CommitHeld(cfg, w.rules, frames[..i], now), now)
      {
        CommitHeldNext(cfg, w, frames, i, now);
        CommitFrame(frames[i].key, frames[i].arg, false, now);
      }
      assert frames[..|frames|] == frames;
    }

    // The held frames of a project that has just loaded.
    method CommitHeldFrames(now: int)
      requires Valid()
      modifies this
      ensures var w := old(Now()).(rules := old(RulesNow()).(held := []));
              Now() == Apply(w, CommitHeld(cfg, w.rules, old(held), now), now)
      ensures Valid()
    {
      HeldCleared(Now());
      hide PulsesSound, CommitHeld, Apply;
      var frames := held;
      held := [];
      CommitAll(frames, now);
    }

    method LeaveOrEnterProject(name: string, now: int)
      requires Valid()
      modifies this
      ensures Now() == Loading(cfg, old(Now()), name, now)
    {
      hide PulsesSound, CommitHeld, Apply, IssueAll;
      if name == "" {
        SynthResets(now);
        DropPerCueEntries();
        held := [];
        commands := commands + [Forgot];
      } else {
        CommitHeldFrames(now);
      }
    }

    method OnLoadFrame(arg: Arg, now: int)
      requires Valid()
      modifies this
      ensures Now() == Apply(old(Now()), OnLoad(cfg, old(RulesNow()), arg, now), now)
      ensures Valid()
    {
      ApplyPulses(Now(), OnLoad(cfg, RulesNow(), arg, now), now);
      LoadSteps(cfg, Now(), arg, now);
      hide PulsesSound, Loading, Forward, OnLoad, Apply, Str;
      LeaveOrEnterProject(Str(arg), now);
      load := Known(Str(arg));
      ForwardFrame("load", arg, now);
    }

    // A per-cue frame is held until a project is loaded, and then committed as it comes.
    method OnPerCueFrame(key: string, arg: Arg, now: int)
      requires Valid()
      modifies this
      ensures Now() == Apply(old(Now()), PerCueOutcome(cfg, old(RulesNow()), key, arg, now), now)
    {
      hide Commit, Apply, IssueAll, PulsesSound;
      if load == Unknown || load == Known("") {
        if |held| >= HOLD_CAP {
          heldDropped := heldDropped + 1;
        } else {
          held := held + [Held(key, arg)];
        }
        NothingIssued(old(Now()), RulesNow(), now);
      } else {
        CommitFrame(key, arg, true, now);
      }
    }

    method OnFrame(address: string, arg: Arg, now: int)
      requires Valid()
      modifies this
      ensures Now() == Step(cfg, old(Now()), FrameIn(address, arg, now))
      ensures Valid()
    {
      ghost var o := RelayRules.OnFrame(cfg, RulesNow(), address, arg, now);
      ApplyPulses(Now(), o, now);
      FrameKinds(cfg, RulesNow(), address, arg, now);
      hide RelayRules.OnFrame, PulsesSound, Forward, Commit, OnLoad, IssueAll, PerCue, Apply, PerCueOutcome;
      if !(STATUS_PREFIX <= address) {
        NothingIssued(Now(), RulesNow(), now);
        return;
      }
      var key := address[|STATUS_PREFIX|..];
      if key == "load" {
        OnLoadFrame(arg, now);
      } else if PerCue(key) {
        OnPerCueFrame(key, arg, now);
      } else {
        ForwardFrame(key, arg, now);
      }
    }

    method OnEngineConnect(now: int)
      requires Valid()
      modifies this
      ensures Now() == Step(cfg, old(Now()), Connect(now))
      ensures Valid()
    {
      ghost var w := Now();
      ApplyPulses(w, OnConnect(RulesNow(), now), now);
      IssueOne(w, PutLink(true, true), now);
      hide PulsesSound, StateLane.PutState;
      connected := true;
      suppressUntil := now + EDGE_SUPPRESS;
      PutState(LINK_PATH, Int(1), true, now);
    }

    method OnEngineDisconnect(now: int)
      requires Valid()
      modifies this
      ensures Now() == Step(cfg, old(Now()), Disconnect(now))
      ensures Valid()
    {
      hide PulsesSound, StateLane.PutState, IssueAll, Issue, RelayRules.SynthResets, Apply;
      ghost var w := Now();
      ApplyPulses(w, OnDisconnect(cfg, RulesNow()), now);
      DisconnectSteps(cfg, w, now);
      connected := false;
      SynthResets(now);
      PutState(LINK_PATH, Int(0), true, now);
      ForgetEngine();
    }

    // What a lost link leaves of the engine's state.
    method ForgetEngine()
      modifies `cache, `cachedPerCue, `held, `cueVals, `load, `commands
      ensures RulesNow() == old(RulesNow()).(cache := [], cachedPerCue := 0, held := [], cueVals := [], load := Unknown)
      ensures commands == old(commands) + [Forgot]
    {
      cache := [];
      cachedPerCue := 0;
      held := [];
      cueVals := [];
      load := Unknown;
      commands := commands + [Forgot];
    }

    // ---------------------------------------------------------- dump and heartbeat

    method DumpCache(names: set<string>)
      requires Valid()
      modifies `state, `commands, `linkDue, `dumpsServed
      ensures Now() == Step(cfg, old(Now()), DumpAsked(names)) && Valid()
    {
      StepPulses(cfg, Now(), DumpAsked(names));
      ghost var w := Now();
      ghost var link := PutLink(connected, false);
      IssueAllConcat(w, [link], DumpPuts(cache, names), 0);
      IssueOne(w, link, 0);
      hide PulsesSound, StateLane.PutState, IssueAll, Issue, DumpPuts, PerCue;
      PutState(LINK_PATH, Int(if connected then 1 else 0), false, 0);
      ghost var w1 := Now();
      DumpNone(w1, cache, names);
      for i := 0 to |cache|
        invariant Now() == IssueAll(w1, DumpPuts(cache[..i], names), 0)
      {
        DumpNext(w1, cache, i, names);
        var x := cache[i];
        if !(names != {} && PerCueAddress(x.key) && CueOf(x.key[|STATUS_PREFIX|..]) !in names) {
          PutState(x.key, x.value, false, 0);
        }
      }
      assert cache[..|cache|] == cache;
      dumpsServed := dumpsServed + 1;
    }

    method SendHeartbeat()
      requires Valid()
      modifies `state, `commands, `linkDue
      ensures Now() == Step(cfg, old(Now()), Heartbeat) && Valid()
    {
      StepPulses(cfg, Now(), Heartbeat);
      hide PulsesSound;
      PutState(LINK_PATH, Int(if connected then 1 else 0), false, 0);
    }

    // ---------------------------------------------------------- drain

    method HeapTop() returns (e: Entry)
      requires Coherent(LaneNow()) && heap != {}
      ensures e == Top(heap)
    {
      TopExists(heap);
      e :| e in heap && forall f :: f in heap ==> Before(e, f);
      TopUnique(LaneNow(), e);
    }

    method PurgeHeap()
      requires Valid()
      modifies `heap
      ensures Now() == PurgeStale(old(Now())) && Valid()
    {
      hide PulsesSound, PurgeStale, Coherent;
      ghost var w := Now();
      while heap != {}
        invariant Valid() && PurgeStale(Now()) == PurgeStale(w)
        decreases |heap|
      {
        SoundIsCoherent(Now());
        var e := HeapTop();
        PurgeNext(Now(), e);
        if e.id in pulses && !pulses[e.id].dropped && pulses[e.id].stage < 3 { break; }
        heap := heap - {e};
      }
      PurgeNone(Now());
    }

    // heappop, then the pulse's send unless its entry is stale.
    method PopAndSend(e: Entry, sent: int) returns (turn: TurnKind)
      requires Coherent(LaneNow()) && e in heap
      modifies `wire, `pulses, `pendingSends, `edgesSent, `order, `byPath, `heap, `seqNo, `completed
      ensures Now() == Popped(old(Now()), e, sent)
      ensures turn == if Stale(old(LaneNow()), e) then Skipped else Sent
    {
      PopReady(LaneNow(), e);
      PoppedParts(Now(), e, sent);
      hide Coherent, PathsOk, SendEvent, SentBy, IsHead, Popped;
      heap := heap - {e};
      if e.id !in pulses || pulses[e.id].dropped || pulses[e.id].stage >= 3 { return Skipped; }
      SendPulse(e.id, sent);
      return Sent;
    }

    method SendOldestState()
      requires state != []
      modifies `wire, `state, `linkDue
      ensures wire == old(wire) + [StateSent(old(state)[0])] && state == old(state)[1..] && !linkDue
    {
      wire := wire + [StateSent(state[0])];
      state := state[1..];
      linkDue := false;
    }

    // One turn of the inner loop: what was sent, if anything.
    method TakeTurn(now: int, sent: int) returns (turn: TurnKind)
      requires Valid() && now <= sent
      modifies this
      ensures Now() == DrainStep(old(Now()), now, sent) && Valid()
      ensures turn == KindOf(old(Now()), now, sent)
    {
      TurnSteps(Now(), now, sent);
      hide PulsesSound, Coherent, Popped, DrainStep, KindOf;
      var due := false;
      if heap != {} {
        var e := HeapTop();
        due := e.due <= now;
        if due { turn := PopAndSend(e, sent); }
      }
      if !due {
        if state == [] { return Nothing; }
        SendOldestState();
        return Sent;
      }
    }

    // One pass of the drain loop, up to its sleep; the credit it has then.
    method DrainPass(credit: int, clock: nat -> int) returns (left: int)
      requires Valid() && Advancing(clock)
      modifies this
      ensures (Now(), left) == PassOnce(old(Now()), credit, cfg.rate, clock) && Valid()
    {
      hide PulsesSound;
      PurgeHeap();
      ghost var w := Now();
      var due := false;
      if heap != {} {
        SoundIsCoherent(w);
        var e := HeapTop();
        due := e.due <= clock(0);
      }
      if !due && state == [] { return Cap(cfg.rate); }
      left := SendBatch(credit, clock);
      left := Earn(left, cfg.rate);
    }

    method SendBatch(credit: int, clock: nat -> int) returns (left: int)
      requires Valid() && Advancing(clock)
      modifies this
      ensures (Now(), left) == Batch(old(Now()), credit, clock, 1) && Valid()
    {
      hide PulsesSound;
      left := credit;
      var k := 1;
      ghost var w := Now();
      while left >= COST
        invariant Valid() && 1 <= k
        invariant Batch(Now(), left, clock, k) == Batch(w, credit, clock, 1)
        decreases MeasureOf(Now())
      {
        BatchNext(Now(), left, clock, k);
        var turn := TakeTurn(clock(2 * k), clock(2 * k + 1));
        if turn == Nothing { return; }
        if turn == Sent { left := left - COST; }
        k := k + 1;
      }
    }

    // ---------------------------------------------------------- close

    // The trailing 0 of a path whose head's 1 is out.
    method SettlePath(path: string, at: int)
      requires path in byPath && byPath[path] != [] && byPath[path][0] in pulses
      requires pulses[byPath[path][0]].path == path && !pulses[byPath[path][0]].dropped
      modifies `wire, `pulses
      ensures StateWire(wire) == StateWire(old(wire)) && old(wire) <= wire
      ensures SettlesOne(old(LaneNow()), old(wire), LaneNow(), wire, path, at)
    {
      var id := byPath[path][0];
      if pulses[id].stage == 2 && !pulses[id].dropped {
        WiresNext(wire, PulseSent(path, Send(id, 0, at)));
        wire := wire + [PulseSent(pulses[id].path, Send(id, 0, at))];
        pulses := pulses[id := pulses[id].(stage := 3)];
      }
    }

    // The trailing 0 of every pulse whose 1 is out.
    method SettlePaths(at: int)
      requires Coherent(LaneNow())
      modifies `wire, `pulses
      ensures StateWire(wire) == StateWire(old(wire)) && old(wire) <= wire
      ensures forall path :: PathWire(wire, path) == Settled(old(LaneNow()), path, PathWire(old(wire), path), at)
    {
      ghost var l, before := LaneNow(), wire;
      var left := byPath.Keys;
      SettledNone(l, before, at);
      hide Coherent, StateWire, PathWire, Settled, SettledBut, HeadsAs, SettlesOne;
      while left != {}
        invariant left <= byPath.Keys && StateWire(wire) == StateWire(before) && before <= wire
        invariant HeadsAs(l, LaneNow(), left) && SettledBut(l, before, wire, left, at)
        decreases |left|
      {
        var path :| path in left;
        ghost var l1, wire1 := LaneNow(), wire;
        HeadAt(l, l1, left, path);
        SettlePath(path, at);
        SettleNext(l, before, l1, wire1, LaneNow(), wire, left, path, at);
        left := left - {path};
      }
      SettledAll(l, before, wire, at);
    }

    // close() starts with the link's last value, queued or current.
    method SendLink()
      modifies `wire, `state
      ensures wire == old(wire) + [StateSent(Item(LINK_PATH, Get(old(state), LINK_PATH, LinkArg(connected))))]
      ensures state == Without(old(state), LINK_PATH)
      ensures StateWire(wire)
              == StateWire(old(wire)) + [Item(LINK_PATH, Get(old(state), LINK_PATH, LinkArg(connected)))]
      ensures forall path :: PathWire(wire, path) == PathWire(old(wire), path)
    {
      var link := Item(LINK_PATH, Get(state, LINK_PATH, LinkArg(connected)));
      state := Without(state, LINK_PATH);
      WiresNext(wire, StateSent(link));
      wire := wire + [StateSent(link)];
    }

    // close(), once its coroutines are stopped; `budget` is how many frames the deadline leaves
    // time for.
    method Close(at: int, budget: nat)
      requires Valid()
      modifies this
      ensures StateWire(wire) == StateWire(old(wire)) + Flushed(old(Now()), budget)
      ensures |old(wire)| < |wire| && wire[..|old(wire)|] == old(wire)
              && wire[|old(wire)|] == StateSent(Flushed(old(Now()), budget)[0])
      ensures forall path :: PathWire(wire, path) == Settled(old(LaneNow()), path, PathWire(old(wire), path), at)
      ensures state == [] && heap == {} && byPath == map[] && order == [] && pendingSends == 0
    {
      SoundIsCoherent(Now());
      hide PulsesSound, Coherent, Settled, StateWire, PathWire, Without, Get, Flushed;
      ghost var w := Now();
      SendLink();
      ghost var begun, link, rest := wire, wire[|w.wire|], state;
      SettlePaths(at);
      heap, byPath, order, pendingSends := {}, map[], [], 0;
      FlushState(budget);
      state := [];
      FlushedAre(w, link, rest, budget, StateWire(w.wire));
      Extends(w.wire, link, begun, wire);
    }

    method FlushState(budget: nat)
      modifies `wire, `state
      ensures old(wire) <= wire
      ensures StateWire(wire)
              == StateWire(old(wire)) + old(state)[..if budget < |old(state)| then budget else |old(state)|]
      ensures forall path :: PathWire(wire, path) == PathWire(old(wire), path)
    {
      var n := 0;
      ghost var before, q := wire, state;
      while n < budget && state != []
        invariant n <= |q| && n <= budget && state == q[n..] && before <= wire
        invariant StateWire(wire) == StateWire(before) + q[..n]
        invariant forall path :: PathWire(wire, path) == PathWire(before, path)
      {
        WiresNext(wire, StateSent(state[0]));
        wire := wire + [StateSent(state[0])];
        state := state[1..];
        n := n + 1;
      }
    }
  }

  // What RelayRules.OnFrame makes of a per-cue frame.
  ghost function PerCueOutcome(cfg: Config, r: Rules, key: string, arg: Arg, now: int): Outcome {
    if Loaded(r.load) then Commit(cfg, r, key, arg, true, now)
    else if |r.held| >= HOLD_CAP then Outcome(r.(heldDropped := r.heldDropped + 1), [])
    else Outcome(r.(held := r.held + [Held(key, arg)]), [])
  }

  // RelayRules.OnFrame by the kind of its address.
  lemma FrameKinds(cfg: Config, r: Rules, address: string, arg: Arg, now: int)
    ensures RelayRules.OnFrame(cfg, r, address, arg, now)
            == if !(STATUS_PREFIX <= address) then Outcome(r, [])
               else
                 var key := address[|STATUS_PREFIX|..];
                 if key == "load" then OnLoad(cfg, r, arg, now)
                 else if PerCue(key) then PerCueOutcome(cfg, r, key, arg, now)
                 else Forward(cfg, r, key, arg)
  {
    hide Commit, OnLoad, Forward, PerCue;
  }

  lemma ForwardPuts(w: World, cfg: Config, key: string, arg: Arg, now: int)
    ensures var o := Forward(cfg, w.rules, key, arg);
            Apply(w, o, now)
            == if Matches(cfg, key) then Issue(w.(rules := o.rules), Put(StatusAddress(key), arg, false), now) else w
  {
    IssueOne(w, Put(StatusAddress(key), arg, false), now);
    IssueNone(w, now);
    hide StatusAddress, PerCue, Matches, Has, Set, StateLane.PutState;
  }

  lemma Extends(a: seq<Datagram>, d: Datagram, b: seq<Datagram>, c: seq<Datagram>)
    requires b == a + [d] && b <= c
    ensures |a| < |c| && c[..|a|] == a && c[|a|] == d
  {
    assert c[|a|] == b[|a|] && c[..|b|] == b;
  }

  lemma FlushedAre(w: World, link: Datagram, rest: Queue, budget: nat, sent: Queue)
    requires link == StateSent(Item(LINK_PATH, Get(w.queue, LINK_PATH, LinkArg(w.rules.connected))))
    requires rest == Without(w.queue, LINK_PATH)
    ensures Flushed(w, budget) != [] && link == StateSent(Flushed(w, budget)[0])
    ensures sent + [link.item] + rest[..if budget < |rest| then budget else |rest|] == sent + Flushed(w, budget)
  {
    hide Get, Without;
  }

  lemma PathsHead(l: Lane, id: nat)
    requires PathsOk(l) && id in l.pulses && IsHead(l, id)
    ensures Increasing(l.byPath[l.pulses[id].path])
  {}

  // What SettlePath does to the sends on every path and to the pulses.
  ghost predicate SettlesOne(l: Lane, wire: seq<Datagram>, l': Lane, wire': seq<Datagram>, path: string, at: int)
    requires path in l.byPath && l.byPath[path] != []
  {
    && l'.byPath == l.byPath
    && (forall p :: PathWire(wire', p) == if p == path then Settled(l, p, PathWire(wire, p), at) else PathWire(wire, p))
    && (forall id :: id in l.pulses && id != l.byPath[path][0] ==> id in l'.pulses && l'.pulses[id] == l.pulses[id])
  }

  // The heads of these paths are live, and as they were.
  ghost predicate HeadsAs(l: Lane, now: Lane, left: set<string>) {
    && now.byPath == l.byPath && left <= l.byPath.Keys
    && forall path :: path in left ==>
         && l.byPath[path] != [] && l.byPath[path][0] in l.pulses && l.byPath[path][0] in now.pulses
         && now.pulses[l.byPath[path][0]] == l.pulses[l.byPath[path][0]]
         && l.pulses[l.byPath[path][0]].path == path && !l.pulses[l.byPath[path][0]].dropped
  }

  // All paths but these are settled.
  ghost predicate SettledBut(l: Lane, before: seq<Datagram>, wire: seq<Datagram>, left: set<string>, at: int) {
    forall path :: PathWire(wire, path) == if path in left then PathWire(before, path)
                                           else Settled(l, path, PathWire(before, path), at)
  }

  lemma SettledNone(l: Lane, before: seq<Datagram>, at: int)
    requires Coherent(l)
    ensures HeadsAs(l, l, l.byPath.Keys) && SettledBut(l, before, before, l.byPath.Keys, at)
  {
    HeadsKnown(l);
    hide Coherent;
  }

  lemma HeadAt(l: Lane, now: Lane, left: set<string>, path: string)
    requires HeadsAs(l, now, left) && path in left
    ensures path in now.byPath && now.byPath[path] != [] && now.byPath[path][0] in now.pulses
    ensures now.pulses[now.byPath[path][0]].path == path && !now.pulses[now.byPath[path][0]].dropped
  {}

  lemma SettleNext(l: Lane, before: seq<Datagram>, l1: Lane, wire1: seq<Datagram>, l2: Lane, wire2: seq<Datagram>,
                   left: set<string>, path: string, at: int)
    requires HeadsAs(l, l1, left) && SettledBut(l, before, wire1, left, at) && path in left
    requires path in l1.byPath && l1.byPath[path] != [] && SettlesOne(l1, wire1, l2, wire2, path, at)
    ensures HeadsAs(l, l2, left - {path}) && SettledBut(l, before, wire2, left - {path}, at)
  {
    SettledSame(l, l1, path, at);
    hide Settled, PathWire;
  }

  lemma SettledAll(l: Lane, before: seq<Datagram>, wire: seq<Datagram>, at: int)
    requires SettledBut(l, before, wire, {}, at)
    ensures forall path :: PathWire(wire, path) == Settled(l, path, PathWire(before, path), at)
  {}

  lemma SettledSame(l: Lane, l': Lane, path: string, at: int)
    requires path in l.byPath && l.byPath[path] != [] && l.byPath[path][0] in l.pulses
    requires l'.byPath == l.byPath && l.byPath[path][0] in l'.pulses
    requires l'.pulses[l.byPath[path][0]] == l.pulses[l.byPath[path][0]]
    ensures forall s :: Settled(l', path, s, at) == Settled(l, path, s, at)
  {}

  lemma WiresNext(wire: seq<Datagram>, d: Datagram)
    ensures StateWire(wire + [d]) == StateWire(wire) + if d.StateSent? then [d.item] else []
    ensures forall path :: PathWire(wire + [d], path)
                           == PathWire(wire, path) + if d.PulseSent? && d.path == path then [d.send] else []
  {
    forall path { WireNext(wire, d, path); }
  }

  lemma HeadsKnown(l: Lane)
    requires Coherent(l)
    ensures forall path :: path in l.byPath ==>
              && l.byPath[path] != [] && l.byPath[path][0] in l.pulses
              && l.pulses[l.byPath[path][0]].path == path && !l.pulses[l.byPath[path][0]].dropped
  {
    forall path | path in l.byPath
      ensures l.byPath[path] != [] && l.byPath[path][0] in l.pulses
              && l.pulses[l.byPath[path][0]].path == path && !l.pulses[l.byPath[path][0]].dropped
    {
      assert DequeOk(l, path, l.byPath[path]);
      HeadFacts(l, path);
    }
  }

  /** What close() leaves, in every run: a path whose last value is 1 gets its pulse's 0, any
      other nothing, so that its last value is 0 and every 1 on it is followed by its own
      pulse's 0; and the first state frame sent is the link state as it is. */
  lemma ClosedLow(cfg: Config, events: seq<Event>, path: string, at: int, budget: nat)
    requires Legal(events)
    ensures var w := Run(cfg, events);
            var s := PathWire(w.wire, path);
            var t := Settled(w.lane, path, s, at);
            && t == (if s != [] && s[|s| - 1].value == 1 then s + [Send(s[|s| - 1].id, 0, at)] else s)
            && (t != [] ==> t[|t| - 1].value == 0)
            && (forall i :: 0 <= i < |t| && t[i].value == 1 ==>
                  i + 1 < |t| && t[i + 1].value == 0 && t[i + 1].id == t[i].id)
            && Flushed(w, budget)[0] == LinkItem(w.rules.connected)
  {
    hide PulsesSound, Coherent, Traced, Run, PathWire, Settled, Consistent, QueueSound, LinkSound, Recorded, AllEdges;
    var w := Run(cfg, events);
    RunPulses(cfg, events);
    RunSound(cfg, events);
    QueuedLink(cfg, w);
    PathTraced(w, path);
    ClosedPath(w.lane, path, PathWire(w.wire, path), at);
  }

  lemma ClosedPath(l: Lane, path: string, s: seq<Send>, at: int)
    requires Coherent(l) && Traced(l, path, s)
    ensures var t := Settled(l, path, s, at);
            && t == (if s != [] && s[|s| - 1].value == 1 then s + [Send(s[|s| - 1].id, 0, at)] else s)
            && (t != [] ==> t[|t| - 1].value == 0)
            && (forall i :: 0 <= i < |t| && t[i].value == 1 ==>
                  i + 1 < |t| && t[i + 1].value == 0 && t[i + 1].id == t[i].id)
  {
    hide Coherent, Traced;
    SettledIff(l, path, s);
    CloseSettles(l, path, s, at, Settled(l, path, s, at));
  }

  lemma PathTraced(w: World, path: string)
    requires PulsesSound(w)
    ensures Coherent(w.lane) && Traced(w.lane, path, PathWire(w.wire, path))
  {}

  // A path's 0 is owed exactly if its last value is 1.
  lemma SettledIff(l: Lane, path: string, s: seq<Send>)
    requires Coherent(l) && Traced(l, path, s)
    ensures Head(l, path).Some? && StageOf(l, Head(l, path).value) == 2 <==> s != [] && s[|s| - 1].value == 1
    ensures s != [] && s[|s| - 1].value == 1 ==> Head(l, path) == Some(s[|s| - 1].id)
  {
    if s != [] { TracedShape(l, path, s, |s| - 1); }
  }

  /** With time for the whole queue, in every run, the receiver ends with everything put. */
  lemma CloseDelivers(cfg: Config, events: seq<Event>, budget: nat)
    requires budget >= |Run(cfg, events).queue|
    ensures Receive(Received(Run(cfg, events)), Flushed(Run(cfg, events), budget)) == Final(Run(cfg, events))
  {
    var w := Run(cfg, events);
    var v, rest := LinkArg(w.rules.connected), Without(w.queue, LINK_PATH);
    RunSound(cfg, events);
    QueuedLink(cfg, w);
    WithoutShort(w.queue, LINK_PATH);
    var link := [Item(LINK_PATH, v)];
    assert Flushed(w, budget) == link + rest;
    assert LINK_PATH in Final(w) && Final(w)[LINK_PATH] == v;
    hide Run, Sound, Without;
    ReceiveConcat(Received(w), link, rest);
    assert link == [] + link;
    ReceiveOne(Received(w), [], LINK_PATH, v);
    WithoutReceive(Received(w), w.queue, LINK_PATH, v);
    ReceiveConcat(map[], StateWire(w.wire), w.queue);
    QueueReceived(cfg, events);
  }

  lemma QueueReceived(cfg: Config, events: seq<Event>)
    ensures Receive(map[], StateWire(Run(cfg, events).wire) + Run(cfg, events).queue) == Final(Run(cfg, events))
  {
    RunSound(cfg, events);
  }

  lemma {:induction false} WithoutShort(q: Queue, a: string)
    ensures |Without(q, a)| <= |q|
  {
    if q != [] { WithoutShort(q[..|q| - 1], a); }
  }

  lemma QueuedLink(cfg: Config, w: World)
    requires Sound(cfg, w)
    ensures Get(w.queue, LINK_PATH, LinkArg(w.rules.connected)) == LinkArg(w.rules.connected)
  {
    hide Recorded, AllEdges, InPutOrder, CacheMatches, CuesRemembered, Filtered, Scoped;
    ReceiveConcat(map[], StateWire(w.wire), w.queue);
    ReceiveLookup(Received(w), w.queue, LINK_PATH, LinkArg(w.rules.connected));
  }

  // The state frames close() still sends: the link state first, then the queue within its deadline.
  function Flushed(w: World, budget: nat): seq<Item<string, Arg>> {
    var rest := Without(w.queue, LINK_PATH);
    [Item(LINK_PATH, Get(w.queue, LINK_PATH, LinkArg(w.rules.connected)))]
    + rest[..if budget < |rest| then budget else |rest|]
  }

  // What a path's trace becomes: the raised head's trailing 0, at once.
  function Settled(l: Lane, path: string, s: seq<Send>, at: int): seq<Send> {
    if Head(l, path).Some? && StageOf(l, Head(l, path).value) == 2 then s + [Send(Head(l, path).value, 0, at)] else s
  }

  datatype TurnKind = Skipped | Sent | Nothing

  ghost function KindOf(w: World, now: int, sent: int): TurnKind {
    if Idle(w, now) then Nothing
    else if |DrainStep(w, now, sent).wire| > |w.wire| then Sent else Skipped
  }

  // A due entry is popped, and its pulse's next value sent unless the entry is stale.
  ghost function Popped(w: World, e: Entry, sent: int): World {
    var lane := Pop(w.lane, e);
    if Stale(w.lane, e) then w.(lane := lane)
    else
      w.(lane := SendEvent(lane, e.id, sent),
         wire := w.wire + [PulseSent(w.lane.pulses[e.id].path, SentBy(w.lane, e.id, sent))],
         completed := if w.lane.pulses[e.id].stage == 2 then w.completed + 1 else w.completed)
  }

  // One turn of the purge.
  lemma PurgeNext(w: World, e: Entry)
    requires PulsesSound(w) && w.lane.heap != {} && e == Top(w.lane.heap)
    ensures if e.id in w.lane.pulses && !w.lane.pulses[e.id].dropped && w.lane.pulses[e.id].stage < 3
            then PurgeStale(w) == w
            else var w' := w.(lane := Pop(w.lane, e));
                 PulsesSound(w') && PurgeStale(w') == PurgeStale(w) && |w'.lane.heap| < |w.lane.heap|
  {
    if !(e.id in w.lane.pulses && !w.lane.pulses[e.id].dropped && w.lane.pulses[e.id].stage < 3) {
      StalePulses(w, e);
      assert |w.lane.heap - {e}| == |w.lane.heap| - 1;
    }
    hide PulsesSound;
  }

  lemma PurgeNone(w: World)
    ensures w.lane.heap == {} ==> PurgeStale(w) == w
  {}

  // The pulse of an entry that is not stale is ready to be sent.
  lemma PopReady(l: Lane, e: Entry)
    requires Coherent(l) && e in l.heap
    ensures PathsOk(Pop(l, e)) && e.id in l.pulses && (!Stale(l, e) ==> IsHead(Pop(l, e), e.id))
  {
    PopCoherent(l, e);
  }

  lemma PoppedParts(w: World, e: Entry, sent: int)
    requires e.id in w.lane.pulses
    ensures var p, lane := w.lane.pulses[e.id], Pop(w.lane, e);
            Popped(w, e, sent)
            == if p.dropped || p.stage >= 3 then w.(lane := lane)
               else w.(lane := SendEvent(lane, e.id, sent),
                       wire := w.wire + [PulseSent(p.path, SentBy(lane, e.id, sent))],
                       completed := if p.stage == 2 then w.completed + 1 else w.completed)
  {}

  lemma IssueRequest(w: World, path: string, now: int)
    ensures Issue(w, Request(path), now)
            == w.(commands := w.commands + [Request(path)], lane := EventLane.AddPulse(w.lane, path, now))
  {}

  lemma TurnSteps(w: World, now: int, sent: int)
    requires PulsesSound(w) && now <= sent
    ensures PulsesSound(DrainStep(w, now, sent)) && Coherent(w.lane)
    ensures w.lane.heap != {} && Top(w.lane.heap).due <= now ==>
              && DrainStep(w, now, sent) == Popped(w, Top(w.lane.heap), sent)
              && KindOf(w, now, sent) == if Stale(w.lane, Top(w.lane.heap)) then Skipped else Sent
    ensures !(w.lane.heap != {} && Top(w.lane.heap).due <= now) ==>
              if w.queue == [] then DrainStep(w, now, sent) == w && KindOf(w, now, sent) == Nothing
              else && DrainStep(w, now, sent)
                      == w.(queue := w.queue[1..], wire := w.wire + [StateSent(w.queue[0])], linkDue := false)
                   && KindOf(w, now, sent) == Sent
  {
    DrainPulses(w, now, sent);
    hide PulsesSound;
  }

  lemma SoundIsCoherent(w: World)
    requires PulsesSound(w)
    ensures Coherent(w.lane)
  {}

  lemma BatchNext(w: World, credit: int, clock: nat -> int, k: nat)
    requires PulsesSound(w) && Advancing(clock) && credit >= COST
    ensures clock(2 * k) <= clock(2 * k + 1)
    ensures var w', kind := DrainStep(w, clock(2 * k), clock(2 * k + 1)), KindOf(w, clock(2 * k), clock(2 * k + 1));
            if kind == Nothing then Batch(w, credit, clock, k) == (w, credit) && w' == w
            else PulsesSound(w') && MeasureOf(w') < MeasureOf(w)
                 && Batch(w, credit, clock, k) == Batch(w', if kind == Sent then credit - COST else credit, clock, k + 1)
  {
    TurnProgress(w, clock(2 * k), clock(2 * k + 1));
    if !Idle(w, clock(2 * k)) { BatchTurn(w, clock, k); }
  }

  lemma DumpNone(w: World, cache: seq<Item<string, Arg>>, names: set<string>)
    ensures IssueAll(w, DumpPuts(cache[..0], names), 0) == w
  {}

  lemma DumpNext(w: World, cache: seq<Item<string, Arg>>, i: nat, names: set<string>)
    requires i < |cache|
    ensures var w1 := IssueAll(w, DumpPuts(cache[..i], names), 0);
            IssueAll(w, DumpPuts(cache[..i + 1], names), 0)
            == if names != {} && PerCueAddress(cache[i].key) && CueOf(cache[i].key[|STATUS_PREFIX|..]) !in names then w1
               else Issue(w1, Put(cache[i].key, cache[i].value, false), 0)
  {
    var put, rest := Put(cache[i].key, cache[i].value, false), DumpPuts(cache[..i], names);
    assert cache[..i + 1][..i] == cache[..i];
    assert (rest + [put])[..|rest|] == rest;
  }

  // The first half of a cue's commit.
  ghost function Recording(w: World, uuid: string, v: Option<int>, live: bool, now: int): World {
    var prev := Get(w.rules.cueVals, uuid, 0);
    var kept := if v.Some? then v.value else prev;
    var w1 := w.(rules := w.rules.(cueVals := Set(w.rules.cueVals, uuid, kept)),
                 commands := w.commands + [Committed(uuid, kept)]);
    if live && v.Some? && now >= w.rules.suppressUntil then IssueAll(w1, Edge(uuid, prev, v.value), now) else w1
  }

  lemma CommitSteps(cfg: Config, w: World, key: string, arg: Arg, live: bool, now: int)
    ensures var w1 := if IsCue(key) then Recording(w, key[4..], AsInt(arg), live, now) else w;
            Apply(w, Commit(cfg, w.rules, key, arg, live, now), now) == Apply(w1, Forward(cfg, w1.rules, key, arg), now)
  {
    if IsCue(key) {
      var uuid, v := key[4..], AsInt(arg);
      var prev := Get(w.rules.cueVals, uuid, 0);
      var c := Committed(uuid, if v.Some? then v.value else prev);
      var r1 := w.rules.(cueVals := Set(w.rules.cueVals, uuid, c.v));
      var edge := if live && v.Some? && now >= w.rules.suppressUntil then Edge(uuid, prev, v.value) else [];
      var f := Forward(cfg, r1, key, arg);
      hide Forward, Edge, Set, Get, AsInt;
      IssueOne(w, c, now);
      IssueAllRules(Issue(w, c, now), r1, edge, now);
      IssueAllConcat(w, [c], edge, now);
      ApplyTwice(w, r1, [c] + edge, f.rules, f.cmds, now);
      assert Recording(w, uuid, v, live, now).rules == r1;
    }
  }

  lemma ResetsNext(w: World, cues: seq<Item<string, int>>, i: nat, now: int)
    requires i < |cues|
    ensures IssueAll(w, Resets(cues[..i + 1]), now)
            == Issue(IssueAll(w, Resets(cues[..i]), now), Put(CueAddress(cues[i].key), Int(0), false), now)
  {
    var put := Put(CueAddress(cues[i].key), Int(0), false);
    assert cues[..i + 1][..i] == cues[..i];
    assert (Resets(cues[..i]) + [put])[..|Resets(cues[..i])|] == Resets(cues[..i]);
  }

  lemma HeldCleared(w: World)
    ensures PulsesSound(w) ==> PulsesSound(w.(rules := w.rules.(held := [])))
  {}

  lemma CommitNone(cfg: Config, w: World, frames: seq<Held>, now: int)
    ensures Apply(w, CommitHeld(cfg, w.rules, frames[..0], now), now) == w
  {}

  lemma CommitHeldNext(cfg: Config, w: World, frames: seq<Held>, i: nat, now: int)
    requires i < |frames|
    ensures var o := CommitHeld(cfg, w.rules, frames[..i], now);
            Apply(w, CommitHeld(cfg, w.rules, frames[..i + 1], now), now)
            == Apply(Apply(w, o, now), Commit(cfg, o.rules, frames[i].key, frames[i].arg, false, now), now)
  {
    var o := CommitHeld(cfg, w.rules, frames[..i], now);
    var c := Commit(cfg, o.rules, frames[i].key, frames[i].arg, false, now);
    assert frames[..i + 1][..i] == frames[..i];
    ApplyTwice(w, o.rules, o.cmds, c.rules, c.cmds, now);
  }

  // What a load does to the relay before its own frame is forwarded.
  ghost function Loading(cfg: Config, w: World, name: string, now: int): World {
    if name == "" then
      var w1 := IssueAll(w, RelayRules.SynthResets(cfg, w.rules), now);
      w1.(rules := DropPerCue(w.rules).(held := []), commands := w1.commands + [Forgot])
    else
      Apply(w.(rules := w.rules.(held := [])), CommitHeld(cfg, w.rules.(held := []), w.rules.held, now), now)
  }

  lemma LoadSteps(cfg: Config, w: World, arg: Arg, now: int)
    ensures var w1 := Loading(cfg, w, Str(arg), now);
            var r1 := w1.rules.(load := Known(Str(arg)));
            Apply(w, OnLoad(cfg, w.rules, arg, now), now) == Apply(w1.(rules := r1), Forward(cfg, r1, "load", arg), now)
  {
    var w1 := Loading(cfg, w, Str(arg), now);
    var r1 := w1.rules.(load := Known(Str(arg)));
    var f := Forward(cfg, r1, "load", arg);
    hide Forward, CommitHeld, Str, GlobalOnly;
    if Str(arg) == "" {
      var resets := RelayRules.SynthResets(cfg, w.rules);
      IssueAllConcat(w, resets, [Forgot], now);
      IssueOne(IssueAll(w, resets, now), Forgot, now);
      ApplyTwice(w, r1, resets + [Forgot], f.rules, f.cmds, now);
    } else {
      var o := CommitHeld(cfg, w.rules.(held := []), w.rules.held, now);
      IssueAllRules(w, w.rules.(held := []), o.cmds, now);
      ApplyTwice(w, r1, o.cmds, f.rules, f.cmds, now);
    }
  }

  lemma NothingIssued(w: World, r: Rules, now: int)
    ensures Apply(w, Outcome(r, []), now) == w.(rules := r)
  {}

  ghost function Forgetting(w: World): World {
    w.(rules := w.rules.(cache := [], cachedPerCue := 0, held := [], cueVals := [], load := Unknown),
       commands := w.commands + [Forgot])
  }

  lemma DisconnectSteps(cfg: Config, w: World, now: int)
    ensures var w0 := w.(rules := w.rules.(connected := false));
            var w1 := Issue(IssueAll(w0, RelayRules.SynthResets(cfg, w0.rules), now), PutLink(false, true), now);
            Apply(w, OnDisconnect(cfg, w.rules), now) == Forgetting(w1)
  {
    var resets, link := RelayRules.SynthResets(cfg, w.rules), PutLink(false, true);
    IssueAllRules(w, w.rules.(connected := false), resets, now);
    IssueAllConcat(w, resets, [link, Forgot], now);
    assert [link, Forgot] == [link] + [Forgot];
    IssueAllConcat(IssueAll(w, resets, now), [link], [Forgot], now);
    IssueOne(IssueAll(w, resets, now), link, now);
    IssueOne(Issue(IssueAll(w, resets, now), link, now), Forgot, now);
    IssueAllKeepsRules(w, resets, now);
  }
}
