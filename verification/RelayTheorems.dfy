/** What holds of every run of the relay. */
module RelayTheorems {
  import opened OrderedDict
  import opened Osc
  import opened StateLane
  import opened EventLane
  import opened PulseTrace
  import opened RelayRules
  import opened CueEdges
  import opened RelayRun

  ghost predicate Sound(cfg: Config, w: World) {
    && Consistent(cfg, w.rules, Final(w))
    && Recorded(w.rules.cueVals, w.commands) && AllEdges(w.commands)
    && QueueSound(w)
    && LinkSound(w, w.rules.connected)
  }

  // ------------------------------------------------------------ every step

  lemma ApplySound(cfg: Config, w: World, o: Outcome, now: int)
    requires QueueSound(w) && AllWellPut(o.cmds, o.rules.connected) && LinkSound(w, o.rules.connected)
    requires Consistent(cfg, o.rules, View(Final(w), o.cmds))
    requires Recorded(o.rules.cueVals, w.commands + o.cmds) && AllEdges(w.commands + o.cmds)
    ensures Sound(cfg, Apply(w, o, now))
  {
    hide QueueSound, LinkSound, Consistent, Recorded, AllEdges, AllWellPut;
    IssueAllQueue(w, o.cmds, now, o.rules.connected);
    ViewConcat(map[], w.commands, o.cmds);
    var w1 := IssueAll(w, o.cmds, now);
    SameLanes(w1, o.rules);
  }

  lemma SameLanes(w: World, rules: Rules)
    ensures QueueSound(w) ==> QueueSound(w.(rules := rules))
    ensures forall c :: LinkSound(w, c) ==> LinkSound(w.(rules := rules), c)
  {}

  lemma FrameSound(cfg: Config, w: World, address: string, arg: Arg, now: int)
    requires Sound(cfg, w)
    ensures Sound(cfg, Step(cfg, w, FrameIn(address, arg, now)))
  {
    var o := OnFrame(cfg, w.rules, address, arg, now);
    FrameKeepsConnected(cfg, w.rules, address, arg, now);
    hide QueueSound, LinkSound, Consistent, Recorded, AllEdges, AllWellPut, OnFrame;
    OnFrameConsistent(cfg, w.rules, address, arg, now, Final(w));
    OnFrameHistory(cfg, w.rules, address, arg, now, w.commands);
    OnFramePuts(cfg, w.rules, address, arg, now, w.rules.connected);
    ApplySound(cfg, w, o, now);
  }

  lemma FrameKeepsConnected(cfg: Config, r: Rules, address: string, arg: Arg, now: int)
    ensures OnFrame(cfg, r, address, arg, now).rules.connected == r.connected
  {
    CommitHeldScope(cfg, r.(held := []), r.held, now);
    hide PerCue, IsCue, Matches, CommitHeld, Set, Has;
  }

  // Issuing puts of the values already put last changes nothing that is not queued.
  lemma RequeueSound(cfg: Config, w: World, cmds: seq<Command>)
    requires Sound(cfg, w) && AllWellPut(cmds, w.rules.connected) && OnlyPuts(cmds)
    requires View(Final(w), cmds) == Final(w)
    ensures Sound(cfg, IssueAll(w, cmds, 0)) && Final(IssueAll(w, cmds, 0)) == Final(w)
  {
    PutsKeepHistory(w.commands, cmds, w.rules.cueVals);
    ViewConcat(map[], w.commands, cmds);
    hide QueueSound, LinkSound, Consistent, Recorded, AllEdges, AllWellPut;
    IssueAllQueue(w, cmds, 0, w.rules.connected);
  }

  lemma DumpSound(cfg: Config, w: World, names: set<string>)
    requires Sound(cfg, w)
    ensures Sound(cfg, Step(cfg, w, DumpAsked(names)))
    ensures Final(Step(cfg, w, DumpAsked(names))) == Final(w)
  {
    hide QueueSound, LinkSound, Recorded, AllEdges, Scoped, CuesRemembered, Filtered, View;
    DumpKeepsView(cfg, w.rules, names, Final(w));
    DumpPutsWell(w.rules.cache, names, Final(w), w.rules.connected);
    DumpArePuts(w.rules.cache, names);
    hide Sound, Consistent, DumpPuts;
    RequeueSound(cfg, w, Dump(w.rules, names));
  }

  lemma HeartbeatSound(cfg: Config, w: World)
    requires Sound(cfg, w)
    ensures Sound(cfg, Step(cfg, w, Heartbeat))
    ensures Final(Step(cfg, w, Heartbeat)) == Final(w)
  {
    var c := PutLink(w.rules.connected, false);
    HeartbeatView(cfg, w, c);
    IssueOne(w, c, 0);
    hide Sound, View, Final, Issue, IssueAll;
    RequeueSound(cfg, w, [c]);
  }

  lemma HeartbeatView(cfg: Config, w: World, c: Command)
    requires Sound(cfg, w) && c == PutLink(w.rules.connected, false)
    ensures View(Final(w), [c]) == Final(w) && AllWellPut([c], w.rules.connected) && OnlyPuts([c])
  {
    hide QueueSound, LinkSound, Recorded, AllEdges;
    DumpKeepsView(cfg, w.rules, {}, Final(w));
  }

  lemma ConnectSound(cfg: Config, w: World, now: int)
    requires Sound(cfg, w)
    ensures Sound(cfg, Step(cfg, w, Connect(now)))
    ensures Step(cfg, w, Connect(now)).linkDue
  {
    var o := OnConnect(w.rules, now);
    var c := PutLink(true, true);
    OnConnectConsistent(cfg, w.rules, now, Final(w));
    PutsKeepHistory(w.commands, o.cmds, w.rules.cueVals);
    assert [c][..0] == [];
    LinkChangeSound(cfg, w, [], c, [], o, now);
  }

  lemma DisconnectSound(cfg: Config, w: World, now: int)
    requires Sound(cfg, w)
    ensures Sound(cfg, Step(cfg, w, Disconnect(now)))
    ensures Step(cfg, w, Disconnect(now)).linkDue
  {
    var o := OnDisconnect(cfg, w.rules);
    OnDisconnectConsistent(cfg, w.rules, Final(w));
    OnDisconnectHistory(cfg, w.rules, w.commands);
    ResetPuts(w.rules.cueVals, w.rules.connected);
    LinkChangeSound(cfg, w, SynthResets(cfg, w.rules), PutLink(false, true), [Forgot], o, now);
  }

  // A link change goes to the head, whatever was queued before it.
  lemma LinkChangeSound(cfg: Config, w: World, before: seq<Command>, link: Command, after: seq<Command>,
                        o: Outcome, now: int)
    requires Sound(cfg, w) && AllWellPut(before, w.rules.connected)
    requires link == PutLink(o.rules.connected, true) && (after == [] || after == [Forgot])
    requires o.cmds == before + [link] + after
    requires Consistent(cfg, o.rules, View(Final(w), o.cmds))
    requires Recorded(o.rules.cueVals, w.commands + o.cmds) && AllEdges(w.commands + o.cmds)
    ensures Sound(cfg, Apply(w, o, now)) && Apply(w, o, now).linkDue
  {
    hide QueueSound, Consistent, Recorded, AllEdges, AllWellPut, IssueAll, View;
    var w1 := IssueAll(w, before, now);
    var w2 := Issue(w1, link, now);
    IssueAllQueue(w, before, now, w.rules.connected);
    IssueQueue(w1, link, now, o.rules.connected);
    assert LinkSound(w2, o.rules.connected);
    IssueAllSplit(w, before, link, after, now);
    if after == [Forgot] { IssueQueue(w2, Forgot, now, o.rules.connected); }
    ViewConcat(map[], w.commands, o.cmds);
    assert w.commands + before + [link] + after == w.commands + o.cmds;
    assert w.commands + before + [link] + [] == w.commands + before + [link];
    assert IssueAll(w, o.cmds, now).commands == w.commands + o.cmds;
    SameLanes(IssueAll(w, o.cmds, now), o.rules);
  }

  lemma IssueAllSplit(w: World, before: seq<Command>, link: Command, after: seq<Command>, now: int)
    requires after == [] || after == [Forgot]
    ensures var w2 := Issue(IssueAll(w, before, now), link, now);
            IssueAll(w, before + [link] + after, now) == if after == [] then w2 else Issue(w2, Forgot, now)
  {
    assert (before + [link])[..|before|] == before;
    if after == [] {
      assert before + [link] + after == before + [link];
    } else {
      assert (before + [link] + after)[..|before| + 1] == before + [link];
    }
  }

  lemma StepSound(cfg: Config, w: World, e: Event)
    requires Sound(cfg, w)
    ensures Sound(cfg, Step(cfg, w, e))
  {
    match e
    case Connect(now) => ConnectSound(cfg, w, now);
    case Disconnect(now) => DisconnectSound(cfg, w, now);
    case FrameIn(address, arg, now) => FrameSound(cfg, w, address, arg, now);
    case DumpAsked(names) => DumpSound(cfg, w, names);
    case Heartbeat => HeartbeatSound(cfg, w);
    case Purge => PurgeKeeps(w);
    case DrainOne(now, sent) => DrainQueue(w, now, sent);
  }

  lemma StartSound(cfg: Config)
    ensures Sound(cfg, Start())
  {
    var c := PutLink(false, true);
    StartQueue(c);
    StartHistory(c);
    StartConsistent(cfg, c);
    hide QueueSound, LinkSound, Consistent, Recorded, AllEdges, PutLink, Final;
  }

  lemma StartHistory(c: Command)
    requires c == PutLink(false, true)
    ensures Recorded(INITIAL.cueVals, [c]) && AllEdges([c])
  {
    PutsKeepHistory([], [c], []);
    assert [] + [c] == [c];
  }

  lemma StartConsistent(cfg: Config, c: Command)
    requires c == PutLink(false, true)
    ensures Consistent(cfg, INITIAL, Final(Start()))
  {
    StartQueue(c);
    PutLinkConsistent(cfg, INITIAL, map[], false, true);
    hide QueueSound, LinkSound, Consistent, PutLink;
  }

  lemma StartQueue(c: Command)
    requires c == PutLink(false, true)
    ensures QueueSound(Start()) && LinkSound(Start(), false) && Start().commands == [c]
  {
    var none := World(INITIAL, [], EMPTY, [], [], 0, false);
    assert Final(none) == map[];
    IssueQueue(none, c, 0, false);
    IssueLink(none, c, 0, false);
  }

  lemma {:induction false} RunSound(cfg: Config, events: seq<Event>)
    ensures Sound(cfg, Run(cfg, events))
  {
    hide Sound, Step, Start;
    if events == [] {
      StartSound(cfg);
    } else {
      RunSound(cfg, events[..|events| - 1]);
      StepSound(cfg, Run(cfg, events[..|events| - 1]), events[|events| - 1]);
    }
  }

  // ------------------------------------------------------------ the state lane

  /** The coalescing lane refines sending everything directly: for every address the last
      value put is the queued one if one is queued, else the last value sent. */
  lemma LaneRefinesDirectSending(cfg: Config, events: seq<Event>, address: string)
    ensures var w := Run(cfg, events);
            && (address in Final(w) <==> address in Received(w) || Has(w.queue, address))
            && (address in Final(w) ==>
                  Final(w)[address] == if Has(w.queue, address) then Get(w.queue, address, NoArg)
                                       else Received(w)[address])
    ensures Run(cfg, events).queue == [] ==> Final(Run(cfg, events)) == Received(Run(cfg, events))
  {
    var w := Run(cfg, events);
    RunSound(cfg, events);
    ReceiveConcat(map[], StateWire(w.wire), w.queue);
    ReceiveKeys(Received(w), w.queue, address);
    if address in Final(w) { ReceiveLookup(Received(w), w.queue, address, NoArg); }
  }

  /** Queued state frames other than the link state stand in the order of their last puts, each
      with the value of that put. */
  lemma QueueIsInPutOrder(cfg: Config, events: seq<Event>, i: nat)
    requires i < |Run(cfg, events).queue|
    ensures var w := Run(cfg, events);
            var puts := Puts(w.commands);
            && 0 <= LastPut(puts, w.queue[i].key) && puts[LastPut(puts, w.queue[i].key)] == w.queue[i]
            && (w.queue[0].key != LINK_PATH && w.queue[i].key != LINK_PATH && i > 0 ==>
                  LastPut(puts, w.queue[0].key) < LastPut(puts, w.queue[i].key))
  {
    RunSound(cfg, events);
    var w := Run(cfg, events);
    assert IsLastPut(w.queue[i], Puts(w.commands));
    assert i > 0 ==> PutBefore(w.queue[0].key, w.queue[i].key, Puts(w.commands));
  }

  // The link stays due until a state frame goes out.
  lemma LinkStaysDue(cfg: Config, w: World, e: Event)
    requires Sound(cfg, w) && w.linkDue && StateWire(Step(cfg, w, e).wire) == StateWire(w.wire)
    ensures Step(cfg, w, e).linkDue
  {
    match e
    case Connect(now) => ConnectSound(cfg, w, now);
    case Disconnect(now) => DisconnectSound(cfg, w, now);
    case FrameIn(address, arg, now) => IssueAllDue(w, OnFrame(cfg, w.rules, address, arg, now).cmds, now);
    case DumpAsked(names) => IssueAllDue(w, Dump(w.rules, names), 0);
    case Heartbeat =>
    case Purge => PurgeKeeps(w);
    case DrainOne(now, sent) =>
      if w.queue != [] { WireNext(w.wire, StateSent(w.queue[0]), ""); }
  }

  lemma {:induction false} IssueAllDue(w: World, cmds: seq<Command>, now: int)
    ensures w.linkDue ==> IssueAll(w, cmds, now).linkDue
    ensures IssueAll(w, cmds, now).wire == w.wire
  {
    if cmds != [] { IssueAllDue(w, cmds[..|cmds| - 1], now); }
  }

  lemma StateWireGrows(cfg: Config, w: World, e: Event)
    ensures StateWire(w.wire) <= StateWire(Step(cfg, w, e).wire)
  {
    match e
    case Connect(now) => IssueAllDue(w, OnConnect(w.rules, now).cmds, now);
    case Disconnect(now) => IssueAllDue(w, OnDisconnect(cfg, w.rules).cmds, now);
    case FrameIn(address, arg, now) => IssueAllDue(w, OnFrame(cfg, w.rules, address, arg, now).cmds, now);
    case DumpAsked(names) => IssueAllDue(w, Dump(w.rules, names), 0);
    case Heartbeat =>
    case Purge => PurgeKeeps(w);
    case DrainOne(now, sent) =>
      var w' := DrainStep(w, now, sent);
      if w'.wire != w.wire { WireNext(w.wire, w'.wire[|w.wire|], ""); assert w'.wire == w.wire + [w'.wire[|w.wire|]]; }
  }

  // `rest` sends no state frame.
  lemma {:induction false} LinkDueSince(cfg: Config, before: seq<Event>, change: Event, rest: seq<Event>)
    requires change.Connect? || change.Disconnect?
    requires StateWire(Run(cfg, before + [change] + rest).wire) == StateWire(Run(cfg, before + [change]).wire)
    ensures Run(cfg, before + [change] + rest).linkDue
  {
    hide Sound, Step, Run, StateWire;
    if rest == [] {
      assert before + [change] + rest == before + [change];
      RunNext(cfg, before, change);
      RunSound(cfg, before);
      if change.Connect? { ConnectSound(cfg, Run(cfg, before), change.now); }
      else { DisconnectSound(cfg, Run(cfg, before), change.now); }
    } else {
      var n := |rest| - 1;
      var prev := before + [change] + rest[..n];
      assert before + [change] + rest == prev + [rest[n]];
      RunNext(cfg, prev, rest[n]);
      StateWireGrows(cfg, Run(cfg, prev), rest[n]);
      StateWireKept(cfg, before + [change], rest[..n]);
      LinkDueSince(cfg, before, change, rest[..n]);
      RunSound(cfg, prev);
      LinkStaysDue(cfg, Run(cfg, prev), rest[n]);
    }
  }

  lemma {:induction false} StateWireKept(cfg: Config, before: seq<Event>, rest: seq<Event>)
    ensures StateWire(Run(cfg, before).wire) <= StateWire(Run(cfg, before + rest).wire)
  {
    if rest == [] {
      assert before + rest == before;
    } else {
      var n := |rest| - 1;
      assert before + rest == before + rest[..n] + [rest[n]];
      RunNext(cfg, before + rest[..n], rest[n]);
      StateWireKept(cfg, before, rest[..n]);
      StateWireGrows(cfg, Run(cfg, before + rest[..n]), rest[n]);
    }
  }

  /** After a connect or disconnect, whatever is queued or happens in between, the next state
      frame on the wire is the link state with the value the link then has. */
  lemma LinkChangeGoesFirst(cfg: Config, before: seq<Event>, change: Event, rest: seq<Event>, now: int, sent: int)
    requires change.Connect? || change.Disconnect?
    requires StateWire(Run(cfg, before + [change] + rest).wire) == StateWire(Run(cfg, before + [change]).wire)
    ensures var w := Run(cfg, before + [change] + rest);
            var w' := Step(cfg, w, DrainOne(now, sent));
            StateWire(w'.wire) == StateWire(w.wire)
            || StateWire(w'.wire) == StateWire(w.wire) + [LinkItem(w.rules.connected)]
  {
    var w := Run(cfg, before + [change] + rest);
    LinkDueSince(cfg, before, change, rest);
    RunSound(cfg, before + [change] + rest);
    var w' := DrainStep(w, now, sent);
    if w'.wire != w.wire {
      var d := w'.wire[|w.wire|];
      assert w'.wire == w.wire + [d];
      WireNext(w.wire, d, "");
    }
  }

  // ------------------------------------------------------------ resets and dumps

  /** With "cue/" forwarded, whenever no project is loaded in the relay's view, whatever came
      before, no cue is left with a value other than the reset; once the state lane is drained
      that is the last datagram each cue's address got. */
  lemma ResetsComplete(cfg: Config, events: seq<Event>, uuid: string)
    requires Matches(cfg, "cue/") && !Loaded(Run(cfg, events).rules.load)
    ensures var w := Run(cfg, events);
            && (CueAddress(uuid) in Final(w) ==> Final(w)[CueAddress(uuid)] == Int(0))
            && (w.queue == [] && CueAddress(uuid) in Received(w) ==> Received(w)[CueAddress(uuid)] == Int(0))
  {
    RunSound(cfg, events);
    LaneRefinesDirectSending(cfg, events, CueAddress(uuid));
    assert !Unreset(uuid, Final(Run(cfg, events)));
  }

  lemma FrameView(cfg: Config, w: World, address: string, arg: Arg, now: int)
    requires Sound(cfg, w)
    ensures Final(Step(cfg, w, FrameIn(address, arg, now)))
            == View(Final(w), OnFrame(cfg, w.rules, address, arg, now).cmds)
  {
    var o := OnFrame(cfg, w.rules, address, arg, now);
    hide QueueSound, LinkSound, Consistent, Recorded, AllEdges, AllWellPut, OnFrame;
    OnFramePuts(cfg, w.rules, address, arg, now, w.rules.connected);
    IssueAllQueue(w, o.cmds, now, w.rules.connected);
    ViewConcat(map[], w.commands, o.cmds);
  }

  // A cue forwarded by its exact key, without "cue/": it plays, the project is unloaded.
  function PlaysThenUnloads(uuid: string): seq<Event> {
    [FrameIn(StatusAddress("load"), Text("x", None), 0), FrameIn(CueAddress(uuid), Int(1), 0),
     FrameIn(StatusAddress("load"), Text("", None), 0)]
  }

  lemma CueLeftPlaying(cfg: Config, uuid: string)
    requires Matches(cfg, CueKey(uuid)) && !Matches(cfg, "cue/")
    ensures var w := Run(cfg, PlaysThenUnloads(uuid));
            !Loaded(w.rules.load) && CueAddress(uuid) in Final(w) && Final(w)[CueAddress(uuid)] == Int(1)
  {
    var e := PlaysThenUnloads(uuid);
    var w1, w2 := Run(cfg, [e[0]]), Run(cfg, [e[0], e[1]]);
    assert [] + [e[0]] == [e[0]] && [e[0]] + [e[1]] == [e[0], e[1]] && [e[0], e[1]] + [e[2]] == e;
    RunNext(cfg, [], e[0]);
    RunNext(cfg, [e[0]], e[1]);
    RunNext(cfg, [e[0], e[1]], e[2]);
    RunSound(cfg, [e[0]]);
    RunSound(cfg, [e[0], e[1]]);
    LoadedView(cfg);
    hide Sound, Run, Final, Step;
    PlayedView(cfg, w1, uuid);
    UnloadView(cfg, w2, uuid);
  }

  lemma LoadedView(cfg: Config)
    ensures Step(cfg, Start(), FrameIn(StatusAddress("load"), Text("x", None), 0)).rules.load == Known("x")
  {
    StatusAddressFacts("load");
    LoadIsNotPerCue();
    assert Start().rules == INITIAL;
  }

  lemma PlayedView(cfg: Config, w: World, uuid: string)
    requires Sound(cfg, w) && Loaded(w.rules.load) && Matches(cfg, CueKey(uuid))
    ensures var w' := Step(cfg, w, FrameIn(CueAddress(uuid), Int(1), 0));
            CueAddress(uuid) in Final(w') && Final(w')[CueAddress(uuid)] == Int(1)
  {
    StatusAddressFacts(CueKey(uuid));
    CueAddressFacts(uuid);
    hide Sound, Final;
    FrameView(cfg, w, CueAddress(uuid), Int(1), 0);
    CommitView(cfg, w.rules, CueKey(uuid), Int(1), true, 0, Final(w));
  }

  lemma UnloadView(cfg: Config, w: World, uuid: string)
    requires Sound(cfg, w) && !Matches(cfg, "cue/") && CueAddress(uuid) in Final(w)
    ensures var w' := Step(cfg, w, FrameIn(StatusAddress("load"), Text("", None), 0));
            !Loaded(w'.rules.load) && CueAddress(uuid) in Final(w')
            && Final(w')[CueAddress(uuid)] == Final(w)[CueAddress(uuid)]
  {
    UnloadRules(cfg, w.rules, Final(w), uuid);
    hide Sound, Final, OnFrame, View, CueAddress;
    FrameView(cfg, w, StatusAddress("load"), Text("", None), 0);
  }

  lemma UnloadRules(cfg: Config, r: Rules, v: map<string, Arg>, uuid: string)
    requires !Matches(cfg, "cue/") && CueAddress(uuid) in v
    ensures var o := OnFrame(cfg, r, StatusAddress("load"), Text("", None), 0);
            !Loaded(o.rules.load) && CueAddress(uuid) in View(v, o.cmds)
            && View(v, o.cmds)[CueAddress(uuid)] == v[CueAddress(uuid)]
  {
    StatusAddressFacts("load");
    StatusAddressFacts(CueKey(uuid));
    CueAddressFacts(uuid);
    var r1 := DropPerCue(r).(held := [], load := Known(""));
    var f := Forward(cfg, r1, "load", Text("", None));
    ForwardView(cfg, r1, "load", Text("", None), v);
    ViewConcat(v, [Forgot], f.cmds);
    ViewOne(v, Forgot);
    assert [] + [Forgot] == [Forgot];
  }

  /** Resets are complete in every run exactly when "cue/" is forwarded or no cue's status is:
      the reset rule asks for "cue/" itself, and a cue forwarded by a narrower key keeps its
      last value when its project goes. */
  lemma ResetsCompleteIff(cfg: Config)
    ensures (forall events, uuid :: LeavesNoCue(cfg, events, uuid))
            <==> (Matches(cfg, "cue/") || forall uuid :: !Matches(cfg, CueKey(uuid)))
  {
    if Matches(cfg, "cue/") {
      forall events, uuid ensures LeavesNoCue(cfg, events, uuid) {
        if !Loaded(Run(cfg, events).rules.load) { ResetsComplete(cfg, events, uuid); }
      }
    } else if uuid :| Matches(cfg, CueKey(uuid)) {
      CueLeftPlaying(cfg, uuid);
      assert !LeavesNoCue(cfg, PlaysThenUnloads(uuid), uuid);
    } else {
      forall events, uuid ensures LeavesNoCue(cfg, events, uuid) {
        RunSound(cfg, events);
        StatusAddressFacts(CueKey(uuid));
      }
    }
  }

  ghost predicate LeavesNoCue(cfg: Config, events: seq<Event>, uuid: string) {
    var w := Run(cfg, events);
    !Loaded(w.rules.load) && CueAddress(uuid) in Final(w) ==> Final(w)[CueAddress(uuid)] == Int(0)
  }

  /** A dump or a heartbeat never changes what the receiver ends up with. */
  lemma DumpsChangeNothing(cfg: Config, events: seq<Event>, names: set<string>)
    ensures Final(Run(cfg, events + [DumpAsked(names)])) == Final(Run(cfg, events))
    ensures Final(Run(cfg, events + [Heartbeat])) == Final(Run(cfg, events))
  {
    RunSound(cfg, events);
    assert (events + [DumpAsked(names)])[..|events|] == events;
    assert (events + [Heartbeat])[..|events|] == events;
    DumpSound(cfg, Run(cfg, events), names);
    HeartbeatSound(cfg, Run(cfg, events));
  }

  /** Every cached frame is the last put for its address, and the last link put is the link. */
  lemma CacheIsLastPut(cfg: Config, events: seq<Event>, i: nat)
    requires i < |Run(cfg, events).rules.cache|
    ensures var w := Run(cfg, events);
            && w.rules.cache[i].key in Final(w) && Final(w)[w.rules.cache[i].key] == w.rules.cache[i].value
            && LINK_PATH in Final(w) && Final(w)[LINK_PATH] == LinkArg(w.rules.connected)
  {
    RunSound(cfg, events);
    var w := Run(cfg, events);
    assert CachedAsPut(w.rules.cache[i], Final(w));
  }

  // ------------------------------------------------------------ pulses

  /** On every pulse path of every run: a 1 goes out only 60 ms or more after its own
      pulse's leading 0, which it directly follows, and its own pulse's trailing 0 directly
      follows it, 150 ms or more later, unless the path's head still owes it. */
  lemma PulseShape(cfg: Config, events: seq<Event>, path: string, i: nat)
    requires Legal(events) && i < |PathWire(Run(cfg, events).wire, path)|
    ensures var w := Run(cfg, events);
            var s := PathWire(w.wire, path);
            && (s[i].value == 0 || s[i].value == 1)
            && (s[i].value == 1 ==> 0 < i && s[i - 1].value == 0 && s[i - 1].id == s[i].id
                                    && s[i].at >= s[i - 1].at + 60_000)
            && (s[i].value == 1 && i + 1 < |s| ==>
                  s[i + 1].value == 0 && s[i + 1].id == s[i].id && s[i + 1].at >= s[i].at + 150_000)
            && (s[i].value == 1 && i + 1 == |s| ==>
                  Head(w.lane, path) == Some(s[i].id) && StageOf(w.lane, s[i].id) == 2)
  {
    RunPulses(cfg, events);
    TracedShape(Run(cfg, events).lane, path, PathWire(Run(cfg, events).wire, path), i);
  }

  /** Conservation: pulse requests are completed, queued or counted as dropped; raised 1s are
      counted; the counter of pending sends is what the queued pulses owe, within the cap. */
  lemma PulsesConserved(cfg: Config, events: seq<Event>)
    requires Legal(events)
    ensures var w := Run(cfg, events);
            && Requests(w.commands) == w.completed + |w.lane.order| + w.lane.dropped
            && w.lane.edges == w.completed + Total(w.lane.order, w.lane.pulses, RAISED)
            && w.lane.pending == Total(w.lane.order, w.lane.pulses, OWED)
            && |w.lane.order| <= w.lane.pending <= 6000
  {
    RunPulses(cfg, events);
    var l := Run(cfg, events).lane;
    OwedBounds(l.order, l.pulses);
  }

  /** Start and end requests for a cue alternate with its committed values, in every run. */
  lemma EdgesAlternate(cfg: Config, events: seq<Event>, u: string, i: nat, j: nat) returns (k: nat)
    requires i < j < |Run(cfg, events).commands|
    requires var cmds := Run(cfg, events).commands;
             cmds[i] == cmds[j] && (cmds[i] == Request(ENDED_PREFIX + u) || cmds[i] == Request(STARTED_PREFIX + u))
    ensures var cmds := Run(cfg, events).commands;
            && i < k < j
            && (cmds[i] == Request(ENDED_PREFIX + u) ==>
                  cmds[k].Committed? && cmds[k].uuid == u && Playing(cmds[k].v))
            && (cmds[i] == Request(STARTED_PREFIX + u) ==>
                  cmds[k] == Forgot || (cmds[k].Committed? && cmds[k].uuid == u && !Playing(cmds[k].v)))
  {
    var cmds := Run(cfg, events).commands;
    RunSound(cfg, events);
    PulsePaths(u, u);
    if cmds[i] == Request(ENDED_PREFIX + u) { k := EndsAlternate(cmds, u, i, j); }
    else { k := StartsAlternate(cmds, u, i, j); }
  }
}
