/** Runs of the whole relay: the rules, both lanes and the wire, with engine events, dumps,
    heartbeats and single drain sends interleaved in any order. */
module RelayRun {
  import opened OrderedDict
  import opened Osc
  import opened StateLane
  import opened EventLane
  import opened PulseTrace
  import opened RelayRules

  datatype Datagram =
    | StateSent(item: Item<string, Arg>)
    | PulseSent(path: string, send: Send)

  // commands: everything the rules issued; wire: everything sent; completed: pulses wholly
  // sent; linkDue: the link changed and no state frame has gone out since.
  datatype World = World(
    rules: Rules,
    queue: Queue,
    lane: Lane,
    commands: seq<Command>,
    wire: seq<Datagram>,
    completed: nat,
    linkDue: bool
  )

  datatype Event =
    | Connect(now: int)
    | Disconnect(now: int)
    | FrameIn(address: string, arg: Arg, now: int)
    | DumpAsked(names: set<string>)
    | Heartbeat
    | Purge
    | DrainOne(now: int, sent: int)

  // Two readings of a monotonic clock in one step never go back.
  predicate Timed(e: Event) {
    e.DrainOne? ==> e.now <= e.sent
  }

  // start(): the link state is queued before the engine client starts.
  function Start(): World {
    Issue(World(INITIAL, [], EMPTY, [], [], 0, false), PutLink(false, true), 0)
  }

  // One command reaches its lane.
  function Issue(w: World, c: Command, now: int): World {
    var w1 := w.(commands := w.commands + [c]);
    match c
    case Put(address, arg, head) =>
      w1.(queue := PutState(w.queue, address, arg, head), linkDue := w.linkDue || head)
    case Request(path) => w1.(lane := AddPulse(w.lane, path, now))
    case Committed(_, _) => w1
    case Forgot => w1
  }

  function IssueAll(w: World, cmds: seq<Command>, now: int): World {
    if cmds == [] then w
    else Issue(IssueAll(w, cmds[..|cmds| - 1], now), cmds[|cmds| - 1], now)
  }

  lemma IssueOne(w: World, c: Command, now: int)
    ensures IssueAll(w, [c], now) == Issue(w, c, now)
  {
    assert [c][..0] == [];
  }

  lemma {:induction false} IssueAllKeepsRules(w: World, cmds: seq<Command>, now: int)
    ensures IssueAll(w, cmds, now).rules == w.rules
  {
    if cmds != [] { IssueAllKeepsRules(w, cmds[..|cmds| - 1], now); }
  }

  lemma {:induction false} Issued(w: World, cmds: seq<Command>, now: int)
    ensures IssueAll(w, cmds, now).commands == w.commands + cmds
  {
    if cmds == [] {
      assert w.commands + cmds == w.commands;
    } else {
      var n := |cmds| - 1;
      Issued(w, cmds[..n], now);
      assert cmds == cmds[..n] + [cmds[n]];
    }
  }

  function Apply(w: World, o: Outcome, now: int): World {
    IssueAll(w, o.cmds, now).(rules := o.rules)
  }

  // One turn of the inner loop of OscRelay._drain: a due event first (stale entries are
  // skipped), else the oldest state frame, else nothing.
  ghost function DrainStep(w: World, now: int, sent: int): World {
    if w.lane.heap != {} && Top(w.lane.heap).due <= now then
      var e := Top(w.lane.heap);
      var lane := Pop(w.lane, e);
      if Stale(w.lane, e) then w.(lane := lane)
      else
        w.(lane := SendEvent(lane, e.id, sent),
           wire := w.wire + [PulseSent(w.lane.pulses[e.id].path, SentBy(w.lane, e.id, sent))],
           completed := if w.lane.pulses[e.id].stage == 2 then w.completed + 1 else w.completed)
    else if w.queue != [] then
      w.(queue := w.queue[1..], wire := w.wire + [StateSent(w.queue[0])], linkDue := false)
    else w
  }

  predicate Stale(l: Lane, e: Entry) {
    e.id !in l.pulses || !Live(l.pulses[e.id])
  }

  // What the outer loop of OscRelay._drain does first: stale entries at the top leave.
  ghost function PurgeStale(w: World): World
    decreases |w.lane.heap|
  {
    if w.lane.heap == {} || !Stale(w.lane, Top(w.lane.heap)) then w
    else
      assert |w.lane.heap - {Top(w.lane.heap)}| == |w.lane.heap| - 1;
      PurgeStale(w.(lane := Pop(w.lane, Top(w.lane.heap))))
  }

  ghost function Step(cfg: Config, w: World, e: Event): World {
    match e
    case Connect(now) => Apply(w, OnConnect(w.rules, now), now)
    case Disconnect(now) => Apply(w, OnDisconnect(cfg, w.rules), now)
    case FrameIn(address, arg, now) => Apply(w, OnFrame(cfg, w.rules, address, arg, now), now)
    case DumpAsked(names) => IssueAll(w, Dump(w.rules, names), 0)
    case Heartbeat => Issue(w, PutLink(w.rules.connected, false), 0)
    case Purge => PurgeStale(w)
    case DrainOne(now, sent) => DrainStep(w, now, sent)
  }

  ghost function Run(cfg: Config, events: seq<Event>): World {
    if events == [] then Start() else Step(cfg, Run(cfg, events[..|events| - 1]), events[|events| - 1])
  }

  lemma RunNext(cfg: Config, events: seq<Event>, e: Event)
    ensures Run(cfg, events + [e]) == Step(cfg, Run(cfg, events), e)
  {
    assert (events + [e])[..|events|] == events;
  }

  ghost predicate Legal(events: seq<Event>) {
    forall i :: 0 <= i < |events| ==> Timed(events[i])
  }

  // ------------------------------------------------------------ the wire

  // The state frames sent, and the values sent on one pulse path.
  function StateWire(wire: seq<Datagram>): seq<Item<string, Arg>> {
    if wire == [] then []
    else
      var rest, d := StateWire(wire[..|wire| - 1]), wire[|wire| - 1];
      if d.StateSent? then rest + [d.item] else rest
  }

  function PathWire(wire: seq<Datagram>, path: string): seq<Send> {
    if wire == [] then []
    else
      var rest, d := PathWire(wire[..|wire| - 1], path), wire[|wire| - 1];
      if d.PulseSent? && d.path == path then rest + [d.send] else rest
  }

  lemma WireNext(wire: seq<Datagram>, d: Datagram, path: string)
    ensures StateWire(wire + [d]) == StateWire(wire) + if d.StateSent? then [d.item] else []
    ensures PathWire(wire + [d], path)
            == PathWire(wire, path) + if d.PulseSent? && d.path == path then [d.send] else []
  {
    assert (wire + [d])[..|wire|] == wire;
  }

  // What the receiver has, and what it will have once the state lane is drained.
  function Received(w: World): map<string, Arg> {
    Receive(map[], StateWire(w.wire))
  }

  function Final(w: World): map<string, Arg> {
    View(map[], w.commands)
  }

  // ------------------------------------------------------------ pulses

  function Requests(cmds: seq<Command>): nat {
    if cmds == [] then 0
    else Requests(cmds[..|cmds| - 1]) + if cmds[|cmds| - 1].Request? then 1 else 0
  }

  ghost predicate PulsesSound(w: World) {
    && Coherent(w.lane)
    && Accounted(w.lane, Requests(w.commands), w.completed)
    && forall path :: Traced(w.lane, path, PathWire(w.wire, path))
  }

  lemma IssuePulses(w: World, c: Command, now: int)
    requires PulsesSound(w)
    ensures PulsesSound(Issue(w, c, now))
  {
    var w' := Issue(w, c, now);
    assert w'.commands[..|w.commands|] == w.commands;
    hide Coherent, Accounted, Traced, AddPulse, PutState;
    if c.Request? {
      AddPulseCoherent(w.lane, c.path, now);
      AddPulseAccounted(w.lane, c.path, now, Requests(w.commands), w.completed);
      forall path ensures Traced(w'.lane, path, PathWire(w'.wire, path)) {
        AddPulseTraced(w.lane, c.path, now, path, PathWire(w.wire, path));
      }
    }
  }

  lemma {:induction false} IssueAllPulses(w: World, cmds: seq<Command>, now: int)
    requires PulsesSound(w)
    ensures PulsesSound(IssueAll(w, cmds, now))
  {
    hide PulsesSound, Issue;
    if cmds != [] {
      IssueAllPulses(w, cmds[..|cmds| - 1], now);
      IssuePulses(IssueAll(w, cmds[..|cmds| - 1], now), cmds[|cmds| - 1], now);
    }
  }

  lemma SendPulses(w: World, e: Entry, now: int, sent: int)
    requires PulsesSound(w) && e in w.lane.heap && e.due <= now <= sent
    requires e.id in w.lane.pulses && Live(w.lane.pulses[e.id])
    ensures var p := w.lane.pulses[e.id];
            PulsesSound(w.(lane := SendEvent(Pop(w.lane, e), e.id, sent),
                           wire := w.wire + [PulseSent(p.path, SentBy(w.lane, e.id, sent))],
                           completed := if p.stage == 2 then w.completed + 1 else w.completed))
  {
    var p, l1, l2 := w.lane.pulses[e.id], Pop(w.lane, e), SendEvent(Pop(w.lane, e), e.id, sent);
    var d := PulseSent(p.path, SentBy(w.lane, e.id, sent));
    PopCoherent(w.lane, e);
    assert IsHead(l1, e.id);
    SendEventCoherent(l1, e.id, sent);
    SendAccounted(l1, e.id, sent, Requests(w.commands), w.completed);
    forall path ensures Traced(l2, path, PathWire(w.wire + [d], path)) {
      WireNext(w.wire, d, path);
      SendTraced(w.lane, e, now, sent, path, PathWire(w.wire, path));
      assert PathWire(w.wire, path) + [] == PathWire(w.wire, path);
    }
  }

  lemma StalePulses(w: World, e: Entry)
    requires PulsesSound(w) && e in w.lane.heap && Stale(w.lane, e)
    ensures PulsesSound(w.(lane := Pop(w.lane, e)))
  {
    PopCoherent(w.lane, e);
    forall path ensures Traced(Pop(w.lane, e), path, PathWire(w.wire, path)) {
      StalePopTraced(w.lane, e, path, PathWire(w.wire, path));
    }
  }

  lemma DrainPulses(w: World, now: int, sent: int)
    requires PulsesSound(w) && now <= sent
    ensures PulsesSound(DrainStep(w, now, sent))
  {
    hide PulsesSound;
    if w.lane.heap != {} && Top(w.lane.heap).due <= now {
      var e := Top(w.lane.heap);
      if Stale(w.lane, e) { StalePulses(w, e); }
      else { SendPulses(w, e, now, sent); }
    } else if w.queue != [] {
      StateSendPulses(w, w.queue[0], w.queue[1..]);
    }
  }

  lemma StateSendPulses(w: World, x: Item<string, Arg>, rest: Queue)
    requires PulsesSound(w)
    ensures PulsesSound(w.(queue := rest, wire := w.wire + [StateSent(x)], linkDue := false))
  {
    forall path ensures PathWire(w.wire + [StateSent(x)], path) == PathWire(w.wire, path) {
      WireNext(w.wire, StateSent(x), path);
      assert PathWire(w.wire, path) + [] == PathWire(w.wire, path);
    }
  }

  lemma {:induction false} PurgePulses(w: World)
    requires PulsesSound(w)
    ensures PulsesSound(PurgeStale(w))
    decreases |w.lane.heap|
  {
    hide PulsesSound;
    if w.lane.heap != {} && Stale(w.lane, Top(w.lane.heap)) {
      var e := Top(w.lane.heap);
      assert |w.lane.heap - {e}| == |w.lane.heap| - 1;
      StalePulses(w, e);
      PurgePulses(w.(lane := Pop(w.lane, e)));
    }
  }

  // Purging touches nothing but the heap.
  lemma {:induction false} PurgeKeeps(w: World)
    ensures PurgeStale(w) == w.(lane := w.lane.(heap := PurgeStale(w).lane.heap))
    ensures PurgeStale(w).lane.heap <= w.lane.heap
    decreases |w.lane.heap|
  {
    if w.lane.heap != {} && Stale(w.lane, Top(w.lane.heap)) {
      var e := Top(w.lane.heap);
      assert |w.lane.heap - {e}| == |w.lane.heap| - 1;
      PurgeKeeps(w.(lane := Pop(w.lane, e)));
    }
  }

  lemma StepPulses(cfg: Config, w: World, e: Event)
    requires PulsesSound(w) && Timed(e)
    ensures PulsesSound(Step(cfg, w, e))
  {
    hide PulsesSound, Issue, OnFrame, OnConnect, OnDisconnect, Dump, DrainStep;
    match e
    case Connect(now) => ApplyPulses(w, OnConnect(w.rules, now), now);
    case Disconnect(now) => ApplyPulses(w, OnDisconnect(cfg, w.rules), now);
    case FrameIn(address, arg, now) => ApplyPulses(w, OnFrame(cfg, w.rules, address, arg, now), now);
    case DumpAsked(names) => IssueAllPulses(w, Dump(w.rules, names), 0);
    case Heartbeat => IssuePulses(w, PutLink(w.rules.connected, false), 0);
    case Purge => PurgePulses(w);
    case DrainOne(now, sent) => DrainPulses(w, now, sent);
  }

  lemma ApplyPulses(w: World, o: Outcome, now: int)
    requires PulsesSound(w)
    ensures PulsesSound(Apply(w, o, now))
  {
    IssueAllPulses(w, o.cmds, now);
  }

  lemma StartPulses()
    ensures PulsesSound(Start())
  {
    var none := World(INITIAL, [], EMPTY, [], [], 0, false);
    assert PulsesSound(none) by {
      forall path ensures Traced(EMPTY, path, PathWire([], path)) {}
    }
    IssuePulses(none, PutLink(false, true), 0);
  }

  /** The event lane is sound in every reachable state. */
  lemma {:induction false} RunPulses(cfg: Config, events: seq<Event>)
    requires Legal(events)
    ensures PulsesSound(Run(cfg, events))
  {
    hide PulsesSound, Step, Start;
    if events == [] {
      StartPulses();
    } else {
      RunPulses(cfg, events[..|events| - 1]);
      StepPulses(cfg, Run(cfg, events[..|events| - 1]), events[|events| - 1]);
    }
  }

  // ------------------------------------------------------------ state frames

  ghost predicate QueueSound(w: World) {
    && Distinct(w.queue)
    && Receive(map[], StateWire(w.wire) + w.queue) == Final(w)
    && InPutOrder(w.queue, Puts(w.commands))
  }

  // A put to the head is the link state, and a put of the link state has this value.
  ghost predicate WellPut(c: Command, connected: bool) {
    c.Put? ==> (c.head ==> c.address == LINK_PATH) && (c.address == LINK_PATH ==> c.arg == LinkArg(connected))
  }

  ghost predicate LinkSound(w: World, connected: bool) {
    w.linkDue ==> LinkFirst(w.queue, connected)
  }

  lemma IssueQueue(w: World, c: Command, now: int, connected: bool)
    requires QueueSound(w) && WellPut(c, connected)
    ensures QueueSound(Issue(w, c, now))
  {
    var sent := StateWire(w.wire);
    ViewConcat(map[], w.commands, [c]);
    ViewOne(Final(w), c);
    PutsConcat(w.commands, [c]);
    PutsOne(c);
    if c.Put? {
      PutStateDistinct(w.queue, c.address, c.arg, c.head);
      ReceiveConcat(map[], sent, w.queue);
      ReceiveConcat(map[], sent, PutState(w.queue, c.address, c.arg, c.head));
      PutStateIsDirectSend(Receive(map[], sent), w.queue, c.address, c.arg, c.head);
      PutStateInOrder(w.queue, Puts(w.commands), c.address, c.arg, c.head);
    } else {
      assert Puts(w.commands) + [] == Puts(w.commands);
    }
  }

  lemma IssueLink(w: World, c: Command, now: int, connected: bool)
    requires LinkSound(w, connected) && WellPut(c, connected)
    ensures LinkSound(Issue(w, c, now), connected)
  {
    if c.Put? && w.linkDue {
      PutStateKeepsLinkFirst(w.queue, connected, c.address, c.arg, c.head);
    }
  }

  ghost predicate AllWellPut(cmds: seq<Command>, connected: bool) {
    forall i :: 0 <= i < |cmds| ==> WellPut(cmds[i], connected)
  }

  lemma {:induction false} IssueAllQueue(w: World, cmds: seq<Command>, now: int, connected: bool)
    requires QueueSound(w) && LinkSound(w, connected) && AllWellPut(cmds, connected)
    ensures var w' := IssueAll(w, cmds, now);
            QueueSound(w') && LinkSound(w', connected) && w'.commands == w.commands + cmds && w'.rules == w.rules
            && w'.wire == w.wire && (w.linkDue ==> w'.linkDue)
  {
    hide QueueSound, LinkSound, WellPut;
    if cmds == [] {
      assert w.commands + cmds == w.commands;
    } else {
      var n := |cmds| - 1;
      IssueAllQueue(w, cmds[..n], now, connected);
      IssueQueue(IssueAll(w, cmds[..n], now), cmds[n], now, connected);
      IssueLink(IssueAll(w, cmds[..n], now), cmds[n], now, connected);
      assert cmds == cmds[..n] + [cmds[n]];
    }
  }

  lemma StateSendQueue(w: World)
    requires QueueSound(w) && w.queue != []
    ensures QueueSound(w.(queue := w.queue[1..], wire := w.wire + [StateSent(w.queue[0])], linkDue := false))
  {
    PopWire(w.wire, w.queue);
    PopInOrder(w.queue, Puts(w.commands));
    hide InPutOrder, StateWire, View;
  }

  lemma PopWire(wire: seq<Datagram>, queue: Queue)
    requires queue != []
    ensures StateWire(wire + [StateSent(queue[0])]) + queue[1..] == StateWire(wire) + queue
  {
    WireNext(wire, StateSent(queue[0]), "");
  }

  lemma PulseSendQueue(w: World, lane: Lane, path: string, send: Send, completed: nat, connected: bool)
    requires QueueSound(w) && LinkSound(w, connected)
    ensures var w' := w.(lane := lane, wire := w.wire + [PulseSent(path, send)], completed := completed);
            QueueSound(w') && LinkSound(w', connected)
  {
    WireNext(w.wire, PulseSent(path, send), "");
    assert StateWire(w.wire) + [] == StateWire(w.wire);
  }

  lemma DrainQueue(w: World, now: int, sent: int)
    requires QueueSound(w) && LinkSound(w, w.rules.connected)
    ensures var w' := DrainStep(w, now, sent);
            QueueSound(w') && LinkSound(w', w.rules.connected) && w'.rules == w.rules && w'.commands == w.commands
  {
    var w' := DrainStep(w, now, sent);
    if w.lane.heap != {} && Top(w.lane.heap).due <= now {
      var e := Top(w.lane.heap);
      if !Stale(w.lane, e) {
        PulseSendQueue(w, w'.lane, w.lane.pulses[e.id].path, SentBy(w.lane, e.id, sent), w'.completed, w.rules.connected);
      } else {
        hide InPutOrder, Distinct;
      }
    } else if w.queue != [] {
      StateSendQueue(w);
    }
  }

  // ------------------------------------------------------------ what the rules put

  lemma StatusPut(address: string, arg: Arg, connected: bool)
    requires STATUS_PREFIX <= address
    ensures WellPut(Put(address, arg, false), connected)
  {
    assert address[1] == 'e' && LINK_PATH[1] == 'c';
  }

  lemma CommitPuts(cfg: Config, r: Rules, key: string, arg: Arg, live: bool, now: int, connected: bool)
    ensures AllWellPut(Forward(cfg, r, key, arg).cmds, connected)
    ensures AllWellPut(Commit(cfg, r, key, arg, live, now).cmds, connected)
  {
    StatusPut(StatusAddress(key), arg, connected);
  }

  lemma {:induction false} CommitHeldPuts(cfg: Config, r: Rules, held: seq<Held>, now: int, connected: bool)
    ensures AllWellPut(CommitHeld(cfg, r, held, now).cmds, connected)
  {
    if held != [] {
      var o, h := CommitHeld(cfg, r, held[..|held| - 1], now), held[|held| - 1];
      CommitHeldPuts(cfg, r, held[..|held| - 1], now, connected);
      hide WellPut, Commit;
      CommitPuts(cfg, o.rules, h.key, h.arg, false, now, connected);
    }
  }

  lemma {:induction false} ResetPuts(cues: seq<Item<string, int>>, connected: bool)
    ensures AllWellPut(Resets(cues), connected)
  {
    if cues != [] {
      ResetPuts(cues[..|cues| - 1], connected);
      StatusPut(CueAddress(cues[|cues| - 1].key), Int(0), connected);
    }
  }

  lemma OnFramePuts(cfg: Config, r: Rules, address: string, arg: Arg, now: int, connected: bool)
    ensures AllWellPut(OnFrame(cfg, r, address, arg, now).cmds, connected)
  {
    ResetPuts(r.cueVals, connected);
    CommitHeldPuts(cfg, r.(held := []), r.held, now, connected);
    hide WellPut, Forward, Commit, PerCue;
    if STATUS_PREFIX <= address {
      var key, name := address[|STATUS_PREFIX|..], Str(arg);
      var r1 := if name == "" then DropPerCue(r).(held := [])
                else CommitHeld(cfg, r.(held := []), r.held, now).rules;
      CommitPuts(cfg, r1.(load := Known(name)), "load", arg, true, now, connected);
      CommitPuts(cfg, r, key, arg, true, now, connected);
      ForgotIsWellPut(connected);
    }
  }

  lemma ForgotIsWellPut(connected: bool)
    ensures WellPut(Forgot, connected)
  {}

  lemma {:induction false} DumpPutsWell(cache: seq<Item<string, Arg>>, names: set<string>, v: map<string, Arg>, connected: bool)
    requires forall i :: 0 <= i < |cache| ==> CachedAsPut(cache[i], v)
    ensures AllWellPut(DumpPuts(cache, names), connected)
  {
    if cache != [] {
      var s, last := cache[..|cache| - 1], cache[|cache| - 1];
      assert forall i :: 0 <= i < |s| ==> s[i] == cache[i];
      DumpPutsWell(s, names, v, connected);
      assert CachedAsPut(last, v);
      StatusPut(last.key, last.value, connected);
    }
  }
}
