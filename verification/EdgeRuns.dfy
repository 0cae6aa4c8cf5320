/** When exactly an edge pulse is requested, in every run. */
module EdgeRuns {
  import opened OrderedDict
  import opened Osc
  import opened RelayRules
  import opened CueEdges
  import opened LoadOrder
  import opened RelayRun
  import opened History

  // The paths pulses are requested on, in order.
  function Pulses(cmds: seq<Command>): seq<string> {
    if cmds == [] then []
    else
      var rest, c := Pulses(cmds[..|cmds| - 1]), cmds[|cmds| - 1];
      if c.Request? then rest + [c.path] else rest
  }

  // The pulse an event asks for: a cue's frame, with a project and out of suppression, that
  // turns the cue's value from outside 1..99 into it, or from inside it to 100.
  function EdgeOf(before: seq<Event>, e: Event): seq<string> {
    if e.FrameIn? && "/engine/status/cue/" <= e.address && HasProject(before) && e.now >= SuppressedUntil(before) then
      var u := e.address[19..];
      var prev, v := CueValue(before, u), CueValue(before + [e], u);
      if !(1 <= prev <= 99) && 1 <= v <= 99 then ["/cuems/bridge/cue_started/" + u]
      else if 1 <= prev <= 99 && v == 100 then ["/cuems/bridge/cue_ended/" + u]
      else []
    else []
  }

  function AllAsked(events: seq<Event>): seq<string> {
    if events == [] then []
    else AllAsked(events[..|events| - 1]) + EdgeOf(events[..|events| - 1], events[|events| - 1])
  }

  // ------------------------------------------------------------ what commands request

  lemma {:induction false} PulsesConcat(a: seq<Command>, b: seq<Command>)
    ensures Pulses(a + b) == Pulses(a) + Pulses(b)
  {
    if b == [] {
      assert a + b == a;
    } else {
      assert (a + b)[..|a + b| - 1] == a + b[..|b| - 1];
      PulsesConcat(a, b[..|b| - 1]);
    }
  }

  lemma {:induction false} NoPulses(cmds: seq<Command>)
    requires NoPulse(cmds)
    ensures Pulses(cmds) == []
  {
    if cmds != [] { NoPulses(cmds[..|cmds| - 1]); }
  }

  lemma PulseOne(path: string)
    ensures Pulses([Request(path)]) == [path]
  {
    assert [Request(path)][..0] == [];
  }

  lemma CommitPulses(cfg: Config, r: Rules, u: string, arg: Arg, now: int)
    ensures Pulses(Commit(cfg, r, "cue/" + u, arg, true, now).cmds)
            == var prev := Get(r.cueVals, u, 0);
               var v := ValueOr(arg, prev);
               if now < r.suppressUntil then []
               else if !(1 <= prev <= 99) && 1 <= v <= 99 then ["/cuems/bridge/cue_started/" + u]
               else if 1 <= prev <= 99 && v == 100 then ["/cuems/bridge/cue_ended/" + u]
               else []
  {
    var prev := Get(r.cueVals, u, 0);
    var kept := if AsInt(arg).Some? then AsInt(arg).value else prev;
    var f := Forward(cfg, r.(cueVals := Set(r.cueVals, u, kept)), "cue/" + u, arg).cmds;
    var edge := if AsInt(arg).Some? && now >= r.suppressUntil then Edge(u, prev, AsInt(arg).value) else [];
    assert IsCue("cue/" + u) && ("cue/" + u)[4..] == u;
    assert Commit(cfg, r, "cue/" + u, arg, true, now).cmds == [Committed(u, kept)] + edge + f;
    assert OnlyPuts(f);
    hide Commit, Forward, Set, Get, IsCue, Pulses, OnlyPuts;
    EdgeBetween(u, kept, edge, f);
    if edge != [] { PulseOne(edge[0].path); }
  }

  lemma EdgeBetween(u: string, v: int, edge: seq<Command>, puts: seq<Command>)
    requires OnlyPuts(puts) && (edge == [] || (edge == [edge[0]] && edge[0].Request?))
    ensures Pulses([Committed(u, v)] + edge + puts) == if edge == [] then [] else [edge[0].path]
  {
    PulsesConcat([Committed(u, v)] + edge, puts);
    PulsesConcat([Committed(u, v)], edge);
    NoPulses([Committed(u, v)]);
    NoPulses(puts);
    if edge == [] { NoPulses(edge); } else { PulseOne(edge[0].path); }
  }

  // ------------------------------------------------------------ every event

  lemma FramePulses(cfg: Config, r: Rules, address: string, arg: Arg, now: int, events: seq<Event>)
    requires Told(r, events)
    ensures Pulses(OnFrame(cfg, r, address, arg, now).cmds) == EdgeOf(events, FrameIn(address, arg, now))
  {
    var e := FrameIn(address, arg, now);
    assert (events + [e])[..|events|] == events;
    PerCueMeans(address);
    Under("cue/", "/engine/status/cue/", address);
    if STATUS_PREFIX <= address {
      var key := address[15..];
      assert address == STATUS_PREFIX + key;
      hide PerCue, Forward, Has, Get;
      if key == "load" {
        assert !("cue/" <= key) by { assert key[0] == 'l'; }
        LoadPulses(cfg, r, arg, now);
      } else if IsCue(key) {
        var u := key[4..];
        assert key == "cue/" + u && u == address[19..];
        CueAddressMeans(key, u);
        CommitPulses(cfg, r, u, arg, now);
        assert PerCue(key);
        if Loaded(r.load) {} else {}
      } else {
        OtherPulses(cfg, r, key, arg, now);
      }
    }
  }

  lemma LoadPulses(cfg: Config, r: Rules, arg: Arg, now: int)
    ensures Pulses(OnLoad(cfg, r, arg, now).cmds) == []
  {
    var name := Str(arg);
    var o := if name == "" then Outcome(DropPerCue(r).(held := []), SynthResets(cfg, r) + [Forgot])
             else CommitHeld(cfg, r.(held := []), r.held, now);
    ResetsArePuts(r.cueVals);
    HeldRequestsNothing(cfg, r.(held := []), r.held, now);
    NoPulses(o.cmds + Forward(cfg, o.rules.(load := Known(name)), "load", arg).cmds);
  }

  lemma OtherPulses(cfg: Config, r: Rules, key: string, arg: Arg, now: int)
    requires !IsCue(key)
    ensures Pulses(Forward(cfg, r, key, arg).cmds) == [] == Pulses(Commit(cfg, r, key, arg, true, now).cmds)
  {
    NoPulses(Forward(cfg, r, key, arg).cmds);
  }

  /** An event requests a pulse exactly if it is a cue's frame that comes live, unsuppressed and
      across the edge; and then it is that cue's start or end. */
  lemma EdgeIffChange(cfg: Config, events: seq<Event>, e: Event)
    ensures var w, w' := Run(cfg, events), Run(cfg, events + [e]);
            w.commands <= w'.commands && Pulses(w'.commands[|w.commands|..]) == EdgeOf(events, e)
  {
    var w := Run(cfg, events);
    RulesTold(cfg, events);
    RunNext(cfg, events, e);
    hide Run, Told, OnFrame, Dump, DumpPuts, EdgeOf;
    var cmds := match e
      case Connect(now) => OnConnect(w.rules, now).cmds
      case Disconnect(now) => OnDisconnect(cfg, w.rules).cmds
      case FrameIn(address, arg, now) => OnFrame(cfg, w.rules, address, arg, now).cmds
      case DumpAsked(names) => Dump(w.rules, names)
      case Heartbeat => [PutLink(w.rules.connected, false)]
      case _ => [];
    StepIssues(cfg, w, e, cmds);
    assert Step(cfg, w, e).commands[|w.commands|..] == cmds;
    QuietEvents(cfg, w, events, e);
    if e.FrameIn? { FramePulses(cfg, w.rules, e.address, e.arg, e.now, events); }
  }

  lemma StepIssues(cfg: Config, w: World, e: Event, cmds: seq<Command>)
    requires cmds == match e
                     case Connect(now) => OnConnect(w.rules, now).cmds
                     case Disconnect(now) => OnDisconnect(cfg, w.rules).cmds
                     case FrameIn(address, arg, now) => OnFrame(cfg, w.rules, address, arg, now).cmds
                     case DumpAsked(names) => Dump(w.rules, names)
                     case Heartbeat => [PutLink(w.rules.connected, false)]
                     case _ => []
    ensures Step(cfg, w, e).commands == w.commands + cmds
  {
    hide OnConnect, OnDisconnect, OnFrame, Dump, IssueAll;
    match e
    case Connect(now) => Issued(w, cmds, now);
    case Disconnect(now) => Issued(w, cmds, now);
    case FrameIn(_, _, now) => Issued(w, cmds, now);
    case DumpAsked(names) => Issued(w, cmds, 0);
    case Heartbeat =>
    case Purge => PurgeKeeps(w);
    case DrainOne(now, sent) =>
  }

  lemma QuietEvents(cfg: Config, w: World, events: seq<Event>, e: Event)
    ensures Pulses(OnConnect(w.rules, 0).cmds) == [] == Pulses(OnDisconnect(cfg, w.rules).cmds)
    ensures forall names :: Pulses(Dump(w.rules, names)) == []
    ensures Pulses([PutLink(w.rules.connected, false)]) == []
    ensures !e.FrameIn? ==> EdgeOf(events, e) == []
  {
    NoPulses([PutLink(true, true)]);
    NoPulses([PutLink(w.rules.connected, false)]);
    ResetsArePuts(w.rules.cueVals);
    NoPulses(OnDisconnect(cfg, w.rules).cmds);
    forall names ensures Pulses(Dump(w.rules, names)) == [] {
      DumpArePuts(w.rules.cache, names);
      NoPulses(Dump(w.rules, names));
    }
  }

  /** In every run the pulses requested are, in order, those its events ask for. */
  lemma {:induction false} EdgesTold(cfg: Config, events: seq<Event>)
    ensures Pulses(Run(cfg, events).commands) == AllAsked(events)
  {
    if events == [] {
      NoPulses(Start().commands);
    } else {
      var n := |events| - 1;
      EdgesTold(cfg, events[..n]);
      assert events[..n] + [events[n]] == events;
      hide Pulses, EdgeOf, Run;
      EdgeIffChange(cfg, events[..n], events[n]);
      PulsesGrow(Run(cfg, events[..n]).commands, Run(cfg, events).commands);
    }
  }

  lemma PulsesGrow(a: seq<Command>, b: seq<Command>)
    requires a <= b
    ensures Pulses(b) == Pulses(a) + Pulses(b[|a|..])
  {
    assert b == a + b[|a|..];
    PulsesConcat(a, b[|a|..]);
  }

  /** The suppression lasts two seconds from the last connect, whatever comes after it; so the
      engine's late-join dump requests no pulse. */
  lemma SuppressedAfterConnect(cfg: Config, before: seq<Event>, at: int, rest: seq<Event>)
    requires forall i :: 0 <= i < |rest| ==> !rest[i].Connect?
    ensures Run(cfg, before + [Connect(at)] + rest).rules.suppressUntil == at + 2_000_000
  {
    RulesTold(cfg, before + [Connect(at)] + rest);
    LastConnect(before, at, rest);
  }

  lemma {:induction false} LastConnect(before: seq<Event>, at: int, rest: seq<Event>)
    requires forall i :: 0 <= i < |rest| ==> !rest[i].Connect?
    ensures SuppressedUntil(before + [Connect(at)] + rest) == at + 2_000_000
  {
    if rest == [] {
      assert before + [Connect(at)] + rest == before + [Connect(at)];
    } else {
      var n := |rest| - 1;
      assert (before + [Connect(at)] + rest)[..|before| + 1 + n] == before + [Connect(at)] + rest[..n];
      LastConnect(before, at, rest[..n]);
    }
  }
}
