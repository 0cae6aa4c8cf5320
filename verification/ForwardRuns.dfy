/** What each event does to what the receiver ends up with, told from the configured keys and
    the events alone. */
module ForwardRuns {
  import opened OrderedDict
  import opened Osc
  import opened RelayRules
  import opened RelayRun
  import opened RelayTheorems
  import opened History

  // One of the configured keys, or below one that ends in a slash.
  predicate Listed(keys: seq<string>, key: string) {
    key in keys || exists k :: k in keys && k != "" && k[|k| - 1] == '/' && k <= key
  }

  lemma ListedMeans(cfg: Config, key: string)
    ensures Matches(cfg, key) <==> Listed(cfg.keys, key)
  {
    if Matches(cfg, key) {
      var k :| k in cfg.keys && MatchesKey(k, key);
      if EndsInSlash(k) { assert k != "" && k[|k| - 1] == '/' && k <= key; }
    }
    if key in cfg.keys { assert MatchesKey(key, key); }
    if k :| k in cfg.keys && k != "" && k[|k| - 1] == '/' && k <= key { assert MatchesKey(k, key); }
  }

  // The view once these held frames are committed, in order.
  function AfterHeld(keys: seq<string>, held: seq<Held>, v: map<string, Arg>): map<string, Arg> {
    if held == [] then v
    else
      var h, w := held[|held| - 1], AfterHeld(keys, held[..|held| - 1], v);
      if Listed(keys, h.key) then w["/engine/status/" + h.key := h.arg] else w
  }

  lemma {:induction false} HeldView(cfg: Config, r: Rules, held: seq<Held>, now: int, v: map<string, Arg>)
    ensures View(v, CommitHeld(cfg, r, held, now).cmds) == AfterHeld(cfg.keys, held, v)
  {
    if held == [] {
      assert Puts([]) == [];
    } else {
      var n := |held| - 1;
      var o, h := CommitHeld(cfg, r, held[..n], now), held[n];
      hide View, Commit, Matches, Listed;
      HeldView(cfg, r, held[..n], now, v);
      ListedMeans(cfg, h.key);
      CommitView(cfg, o.rules, h.key, h.arg, false, now, View(v, o.cmds));
      ViewConcat(v, o.cmds, Commit(cfg, o.rules, h.key, h.arg, false, now).cmds);
    }
  }

  lemma RunFrame(cfg: Config, events: seq<Event>, address: string, arg: Arg, now: int)
    ensures Final(Run(cfg, events + [FrameIn(address, arg, now)]))
            == View(Final(Run(cfg, events)), OnFrame(cfg, Run(cfg, events).rules, address, arg, now).cmds)
  {
    hide Run, Final, View, OnFrame, Step, Sound;
    RunSound(cfg, events);
    RunNext(cfg, events, FrameIn(address, arg, now));
    FrameView(cfg, Run(cfg, events), address, arg, now);
  }

  /** A status frame that is not `load`, and is either not per-cue or comes with a project, sets
      its address to its own argument, if its key is listed; otherwise it changes nothing. */
  lemma FrameForwarded(cfg: Config, events: seq<Event>, key: string, arg: Arg, now: int)
    requires key != "load" && (IsPerCue("/engine/status/" + key) ==> HasProject(events))
    ensures var a, v := "/engine/status/" + key, Final(Run(cfg, events));
            Final(Run(cfg, events + [FrameIn(a, arg, now)])) == if Listed(cfg.keys, key) then v[a := arg] else v
  {
    var a, r, v := "/engine/status/" + key, Run(cfg, events).rules, Final(Run(cfg, events));
    assert a[15..] == key;
    PerCueMeans(a);
    RulesTold(cfg, events);
    hide Run, Final, View, Matches, Listed, Commit, Forward, PerCue, IsPerCue, HasProject;
    RunFrame(cfg, events, a, arg, now);
    ListedMeans(cfg, key);
    ForwardView(cfg, r, key, arg, v);
    CommitView(cfg, r, key, arg, true, now, v);
  }

  /** A per-cue frame that comes without a project, and a frame outside the engine's status,
      change nothing for now. */
  lemma FrameWaits(cfg: Config, events: seq<Event>, address: string, arg: Arg, now: int)
    requires !("/engine/status/" <= address) || (IsPerCue(address) && !HasProject(events))
    ensures Final(Run(cfg, events + [FrameIn(address, arg, now)])) == Final(Run(cfg, events))
  {
    var r := Run(cfg, events).rules;
    PerCueMeans(address);
    RulesTold(cfg, events);
    LoadIsNotPerCue();
    RunFrame(cfg, events, address, arg, now);
    assert Puts([]) == [];
    hide Run, Final, Matches, PerCue, IsPerCue, HasProject;
    if STATUS_PREFIX <= address { assert OnFrame(cfg, r, address, arg, now).cmds == []; }
  }

  lemma LoadAddress(cfg: Config, r: Rules, arg: Arg, now: int)
    ensures StatusAddress("load") == "/engine/status/load"
    ensures OnFrame(cfg, r, "/engine/status/load", arg, now) == OnLoad(cfg, r, arg, now)
  {
    PerCueMeans("/engine/status/load");
    assert STATUS_PREFIX + "load" == "/engine/status/load";
    hide OnLoad, PerCue;
  }

  /** A project's `load` commits every frame held since the last one, in order, and is then
      forwarded itself. */
  lemma HeldForwarded(cfg: Config, events: seq<Event>, arg: Arg, now: int)
    requires !Blank(arg)
    ensures var v := AfterHeld(cfg.keys, Waiting(events), Final(Run(cfg, events)));
            Final(Run(cfg, events + [FrameIn("/engine/status/load", arg, now)]))
            == if Listed(cfg.keys, "load") then v["/engine/status/load" := arg] else v
  {
    var r, v := Run(cfg, events).rules, Final(Run(cfg, events));
    RulesTold(cfg, events);
    BlankMeans(arg);
    LoadAddress(cfg, r, arg, now);
    RunFrame(cfg, events, "/engine/status/load", arg, now);
    hide Run, Final, View, Matches, Listed, Blank, Str, CommitHeld, Forward, AfterHeld, OnFrame, StatusAddress;
    var o := CommitHeld(cfg, r.(held := []), r.held, now);
    var r1 := o.rules.(load := Known(Str(arg)));
    HeldView(cfg, r.(held := []), r.held, now, v);
    ListedMeans(cfg, "load");
    ForwardView(cfg, r1, "load", arg, View(v, o.cmds));
    ViewConcat(v, o.cmds, Forward(cfg, r1, "load", arg).cmds);
  }

  // ------------------------------------------------------------ the project goes

  predicate IsCueAddress(a: string) {
    "/engine/status/cue/" <= a
  }

  lemma {:induction false} ResetsKeep(cues: seq<Item<string, int>>, v: map<string, Arg>)
    ensures var w := View(v, Resets(cues));
            && (forall a :: a in v ==> a in w)
            && (forall a :: a in w && !IsCueAddress(a) ==> a in v && w[a] == v[a])
  {
    if cues == [] {
      assert Puts([]) == [];
    } else {
      var s, u := cues[..|cues| - 1], cues[|cues| - 1].key;
      ResetsKeep(s, v);
      var put := Put(CueAddress(u), Int(0), false);
      ViewConcat(v, Resets(s), [put]);
      ViewOne(View(v, Resets(s)), put);
      CueAddressMeans(CueKey(u), u);
      assert CueAddress(u) == "/engine/status/cue/" + u;
    }
  }

  // `w` is `v` with every cue at 0, if cues are listed.
  ghost predicate CuesReset(keys: seq<string>, v: map<string, Arg>, w: map<string, Arg>) {
    && (forall a :: a in v ==> a in w)
    && (forall a :: a in w && !(IsCueAddress(a) && Listed(keys, "cue/")) ==> a in v && w[a] == v[a])
    && (Listed(keys, "cue/") ==> forall a :: a in w && IsCueAddress(a) ==> w[a] == Int(0))
  }

  lemma SynthView(cfg: Config, r: Rules, v: map<string, Arg>)
    requires CuesRemembered(cfg, r.cueVals, v)
    ensures CuesReset(cfg.keys, v, View(v, SynthResets(cfg, r)))
  {
    ListedMeans(cfg, "cue/");
    hide Matches, Listed, Resets, View;
    if Matches(cfg, "cue/") {
      ResetsKeep(r.cueVals, v);
      ResetsView(r.cueVals, v);
      forall a | a in View(v, Resets(r.cueVals)) && IsCueAddress(a) ensures View(v, Resets(r.cueVals))[a] == Int(0) {
        CueAddressMeans(a[15..], a[19..]);
        assert a == CueAddress(a[19..]);
        assert !Unreset(a[19..], View(v, Resets(r.cueVals)));
      }
    } else {
      ViewNone(v);
    }
  }

  lemma ViewNone(v: map<string, Arg>)
    ensures View(v, []) == v
  {
    assert Puts([]) == [];
  }

  /** A `load` without a project resets every cue and is then forwarded itself. */
  lemma UnloadForwarded(cfg: Config, events: seq<Event>, arg: Arg, now: int) returns (w: map<string, Arg>)
    requires Blank(arg)
    ensures CuesReset(cfg.keys, Final(Run(cfg, events)), w)
    ensures Final(Run(cfg, events + [FrameIn("/engine/status/load", arg, now)]))
            == if Listed(cfg.keys, "load") then w["/engine/status/load" := arg] else w
  {
    var r, v := Run(cfg, events).rules, Final(Run(cfg, events));
    RunSound(cfg, events);
    LoadAddress(cfg, r, arg, now);
    RunFrame(cfg, events, "/engine/status/load", arg, now);
    SynthView(cfg, r, v);
    hide Run, Final, View, Listed, OnFrame, OnLoad, CuesReset, Sound, Blank;
    w := View(v, SynthResets(cfg, r));
    UnloadView(cfg, r, arg, now, v);
  }

  lemma UnloadView(cfg: Config, r: Rules, arg: Arg, now: int, v: map<string, Arg>)
    requires Blank(arg)
    ensures var w := View(v, SynthResets(cfg, r));
            View(v, OnLoad(cfg, r, arg, now).cmds)
            == if Listed(cfg.keys, "load") then w["/engine/status/load" := arg] else w
  {
    BlankMeans(arg);
    LoadAddress(cfg, r, arg, now);
    ListedMeans(cfg, "load");
    hide View, Matches, Listed, Blank, Str, SynthResets, Forward, DropPerCue, OnFrame, StatusAddress;
    var w := View(v, SynthResets(cfg, r));
    var r1 := DropPerCue(r).(held := [], load := Known(Str(arg)));
    ViewConcat(v, SynthResets(cfg, r), [Forgot]);
    ViewOne(w, Forgot);
    ForwardView(cfg, r1, "load", arg, w);
    ViewConcat(v, SynthResets(cfg, r) + [Forgot], Forward(cfg, r1, "load", arg).cmds);
  }

  // ------------------------------------------------------------ the link

  /** The relay starts with the link state 0. */
  lemma StartForwarded(cfg: Config)
    ensures Final(Run(cfg, [])) == map["/cuems/bridge/engine_connected" := Int(0)]
  {
    ViewOne(map[], PutLink(false, true));
    assert Start().commands == [PutLink(false, true)];
  }

  lemma RunLink(cfg: Config, events: seq<Event>, e: Event)
    requires e.Connect? || e.Disconnect?
    ensures var w := Run(cfg, events);
            Final(Run(cfg, events + [e]))
            == View(Final(w), (if e.Connect? then OnConnect(w.rules, e.now) else OnDisconnect(cfg, w.rules)).cmds)
  {
    var w := Run(cfg, events);
    RunNext(cfg, events, e);
    hide Run, OnConnect, OnDisconnect, IssueAll, View;
    var o := if e.Connect? then OnConnect(w.rules, e.now) else OnDisconnect(cfg, w.rules);
    Issued(w, o.cmds, e.now);
    ViewConcat(map[], w.commands, o.cmds);
  }

  /** A connect sets the link state to 1 and leaves the rest. */
  lemma ConnectForwarded(cfg: Config, events: seq<Event>, now: int)
    ensures Final(Run(cfg, events + [Connect(now)]))
            == Final(Run(cfg, events))["/cuems/bridge/engine_connected" := Int(1)]
  {
    RunLink(cfg, events, Connect(now));
    hide Run, Final;
    ViewOne(Final(Run(cfg, events)), PutLink(true, true));
  }

  /** A link drop resets every cue and sets the link state to 0. */
  lemma DisconnectForwarded(cfg: Config, events: seq<Event>, now: int) returns (w: map<string, Arg>)
    ensures CuesReset(cfg.keys, Final(Run(cfg, events)), w)
    ensures Final(Run(cfg, events + [Disconnect(now)])) == w["/cuems/bridge/engine_connected" := Int(0)]
  {
    var r, v := Run(cfg, events).rules, Final(Run(cfg, events));
    RunSound(cfg, events);
    RunLink(cfg, events, Disconnect(now));
    SynthView(cfg, r, v);
    hide Run, Final, View, SynthResets, CuesReset, Sound;
    w := View(v, SynthResets(cfg, r));
    var last := [PutLink(false, true), Forgot];
    ViewConcat(v, SynthResets(cfg, r), last);
    assert last == [PutLink(false, true)] + [Forgot];
    ViewConcat(w, [PutLink(false, true)], [Forgot]);
    ViewOne(w, PutLink(false, true));
    ViewOne(View(w, [PutLink(false, true)]), Forgot);
  }

  // ------------------------------------------------------------ everything else

  /** Nothing else changes what the receiver ends up with. */
  lemma OthersForwardNothing(cfg: Config, events: seq<Event>, e: Event)
    requires !e.Connect? && !e.Disconnect? && !e.FrameIn?
    ensures Final(Run(cfg, events + [e])) == Final(Run(cfg, events))
  {
    var w := Run(cfg, events);
    RunNext(cfg, events, e);
    RunSound(cfg, events);
    match e
    case DumpAsked(names) => DumpSound(cfg, w, names);
    case Heartbeat => HeartbeatSound(cfg, w);
    case Purge => PurgeKeeps(w);
    case DrainOne(now, sent) => DrainQueue(w, now, sent);
  }
}
