/** What the relay's rules remember, told from the events alone. */
module History {
  import opened OrderedDict
  import opened Osc
  import opened RelayRules
  import opened CueEdges
  import opened RelayRun

  // ------------------------------------------------------------ reading the events

  predicate IsLoad(e: Event) {
    e.FrameIn? && e.address == "/engine/status/load"
  }

  // No project.
  predicate Blank(arg: Arg) {
    arg == NoArg || (arg.Text? && arg.s == "")
  }

  predicate IsPerCue(address: string) {
    || "/engine/status/cue/" <= address
    || "/engine/status/cue_enabled/" <= address
    || "/engine/status/cue_name/" <= address
  }

  // The last `load` since the link last dropped names a project.
  predicate HasProject(events: seq<Event>) {
    events != []
    && var e, before := events[|events| - 1], events[..|events| - 1];
       !e.Disconnect? && if IsLoad(e) then !Blank(e.arg) else HasProject(before)
  }

  // The first 20000 per-cue frames since the last `load` or link drop, while there is no project.
  function Waiting(events: seq<Event>): seq<Held> {
    if events == [] then []
    else
      var e, before := events[|events| - 1], events[..|events| - 1];
      if e.Disconnect? || IsLoad(e) then []
      else if e.FrameIn? && IsPerCue(e.address) && !HasProject(before) && |Waiting(before)| < 20000 then
        Waiting(before) + [Held(e.address[15..], e.arg)]
      else Waiting(before)
  }

  // What a frame makes of a cue's value.
  function ValueOr(arg: Arg, prev: int): int {
    if arg.Int? then arg.n
    else if arg.Text? && arg.number.Some? then arg.number.value
    else prev
  }

  function HeldValue(held: seq<Held>, u: string, prev: int): int {
    if held == [] then prev
    else
      var h, v := held[|held| - 1], HeldValue(held[..|held| - 1], u, prev);
      if h.key == "cue/" + u then ValueOr(h.arg, v) else v
  }

  // A cue's value: that of its last readable frame, held ones counting from the `load` on; 0
  // before any, and once the project goes or the link drops.
  function CueValue(events: seq<Event>, u: string): int {
    if events == [] then 0
    else
      var e, before := events[|events| - 1], events[..|events| - 1];
      if e.Disconnect? || (IsLoad(e) && Blank(e.arg)) then 0
      else if IsLoad(e) then HeldValue(Waiting(before), u, CueValue(before, u))
      else if e.FrameIn? && e.address == "/engine/status/cue/" + u && HasProject(before) then
        ValueOr(e.arg, CueValue(before, u))
      else CueValue(before, u)
  }

  predicate LinkUp(events: seq<Event>) {
    events != []
    && var e := events[|events| - 1];
       !e.Disconnect? && (e.Connect? || LinkUp(events[..|events| - 1]))
  }

  // Two seconds after the last connect.
  function SuppressedUntil(events: seq<Event>): int {
    if events == [] then 0
    else if events[|events| - 1].Connect? then events[|events| - 1].now + 2_000_000
    else SuppressedUntil(events[..|events| - 1])
  }

  // ------------------------------------------------------------ addresses

  lemma PrefixSplit(p: string, q: string, a: string)
    ensures p + q <= a <==> p <= a && q <= a[|p|..]
  {
    if p <= a && q <= a[|p|..] {
      assert a == p + a[|p|..];
      assert a[..|p + q|] == p + q;
    }
    if p + q <= a {
      assert a[..|p|] == (p + q)[..|p|];
      assert a[|p|..][..|q|] == (p + q)[|p|..];
    }
  }

  lemma Under(q: string, full: string, address: string)
    requires STATUS_PREFIX + q == full
    ensures full <= address <==> STATUS_PREFIX <= address && q <= address[15..]
    ensures address == full <==> STATUS_PREFIX <= address && address[15..] == q
  {
    assert |STATUS_PREFIX| == 15;
    PrefixSplit(STATUS_PREFIX, q, address);
    assert full[15..] == q;
    if STATUS_PREFIX <= address { assert address == STATUS_PREFIX + address[15..]; }
  }

  lemma PerCueMeans(address: string)
    ensures IsPerCue(address) <==> STATUS_PREFIX <= address && PerCue(address[15..])
    ensures address == "/engine/status/load" <==> STATUS_PREFIX <= address && address[15..] == "load"
  {
    Under("cue/", "/engine/status/cue/", address);
    Under("cue_enabled/", "/engine/status/cue_enabled/", address);
    Under("cue_name/", "/engine/status/cue_name/", address);
    Under("load", "/engine/status/load", address);
  }

  lemma BlankMeans(arg: Arg)
    ensures Blank(arg) <==> Str(arg) == ""
  {}

  lemma CueAddressMeans(key: string, u: string)
    ensures IsCue(key) && key[4..] == u <==> key == "cue/" + u
    ensures STATUS_PREFIX + key == "/engine/status/cue/" + u <==> key == "cue/" + u
  {
    assert STATUS_PREFIX + ("cue/" + u) == "/engine/status/cue/" + u;
    assert (STATUS_PREFIX + key)[15..] == key;
    assert ("/engine/status/cue/" + u)[15..] == "cue/" + u;
    if IsCue(key) { assert key == "cue/" + key[4..]; }
  }

  // ------------------------------------------------------------ the rules follow the events

  ghost predicate CuesTold(cues: seq<Item<string, int>>, events: seq<Event>) {
    Distinct(cues) && forall u :: Get(cues, u, 0) == CueValue(events, u)
  }

  ghost predicate Told(r: Rules, events: seq<Event>) {
    && (Loaded(r.load) <==> HasProject(events))
    && r.held == Waiting(events)
    && r.connected == LinkUp(events)
    && r.suppressUntil == SuppressedUntil(events)
    && CuesTold(r.cueVals, events)
  }

  lemma CommitValue(cfg: Config, r: Rules, key: string, arg: Arg, live: bool, now: int, u: string)
    requires Distinct(r.cueVals)
    ensures var cues, prev := Commit(cfg, r, key, arg, live, now).rules.cueVals, Get(r.cueVals, u, 0);
            Distinct(cues) && Get(cues, u, 0) == if key == "cue/" + u then ValueOr(arg, prev) else prev
  {
    CueAddressMeans(key, u);
    if IsCue(key) {
      var prev := Get(r.cueVals, key[4..], 0);
      SetDistinct(r.cueVals, key[4..], ValueOr(arg, prev));
      SetGet(r.cueVals, key[4..], ValueOr(arg, prev), u, 0);
    }
    hide Set, Get, Has, Matches, PerCue;
  }

  lemma {:induction false} CommitHeldValue(cfg: Config, r: Rules, held: seq<Held>, now: int, u: string)
    requires Distinct(r.cueVals)
    ensures var cues := CommitHeld(cfg, r, held, now).rules.cueVals;
            Distinct(cues) && Get(cues, u, 0) == HeldValue(held, u, Get(r.cueVals, u, 0))
  {
    hide Commit, Get, ValueOr;
    if held != [] {
      var n := |held| - 1;
      CommitHeldValue(cfg, r, held[..n], now, u);
      CommitValue(cfg, CommitHeld(cfg, r, held[..n], now).rules, held[n].key, held[n].arg, false, now, u);
    }
  }

  // Which rules a step leaves.
  lemma StepRules(cfg: Config, w: World, e: Event)
    ensures Step(cfg, w, e).rules
            == match e
               case Connect(now) => OnConnect(w.rules, now).rules
               case Disconnect(_) => OnDisconnect(cfg, w.rules).rules
               case FrameIn(address, arg, now) => OnFrame(cfg, w.rules, address, arg, now).rules
               case _ => w.rules
  {
    hide OnConnect, OnDisconnect, OnFrame, Dump;
    match e
    case Connect(now) =>
    case Disconnect(now) =>
    case FrameIn(address, arg, now) =>
    case DumpAsked(names) => IssueAllKeepsRules(w, Dump(w.rules, names), 0);
    case Heartbeat =>
    case Purge => PurgeKeeps(w);
    case DrainOne(now, sent) =>
  }

  // A `load` frame.
  lemma LoadTold(cfg: Config, r: Rules, arg: Arg, now: int, events: seq<Event>)
    requires Told(r, events)
    ensures Told(OnLoad(cfg, r, arg, now).rules, events + [FrameIn("/engine/status/load", arg, now)])
  {
    assert (events + [FrameIn("/engine/status/load", arg, now)])[..|events|] == events;
    LoadRules(cfg, r, arg, now);
    LoadCues(cfg, r, arg, now, events);
    hide Blank, OnLoad, CuesTold;
  }

  lemma LoadRules(cfg: Config, r: Rules, arg: Arg, now: int)
    ensures var r1 := OnLoad(cfg, r, arg, now).rules;
            && (Loaded(r1.load) <==> !Blank(arg)) && r1.held == []
            && r1.connected == r.connected && r1.suppressUntil == r.suppressUntil
  {
    BlankMeans(arg);
    CommitHeldScope(cfg, r.(held := []), r.held, now);
    hide Blank, Str, CommitHeld, GlobalOnly, Has, Matches, PerCue, Set;
    if Blank(arg) {} else {}
  }

  lemma LoadCues(cfg: Config, r: Rules, arg: Arg, now: int, events: seq<Event>)
    requires CuesTold(r.cueVals, events) && r.held == Waiting(events)
    ensures CuesTold(OnLoad(cfg, r, arg, now).rules.cueVals, events + [FrameIn("/engine/status/load", arg, now)])
  {
    var next := events + [FrameIn("/engine/status/load", arg, now)];
    assert next[..|events|] == events;
    BlankMeans(arg);
    var cues := OnLoad(cfg, r, arg, now).rules.cueVals;
    hide Blank, Str, CommitHeld, Get, GlobalOnly, Has, Matches, PerCue, Set;
    if Blank(arg) {
      assert cues == [];
      forall u ensures Get(cues, u, 0) == CueValue(next, u) { EmptyGet(u); }
    } else {
      assert cues == CommitHeld(cfg, r.(held := []), r.held, now).rules.cueVals;
      CommitHeldValue(cfg, r.(held := []), r.held, now, "");
      forall u ensures Get(cues, u, 0) == CueValue(next, u) { CommitHeldValue(cfg, r.(held := []), r.held, now, u); }
    }
  }

  lemma EmptyGet(u: string)
    ensures Get<string, int>([], u, 0) == 0
  {}

  // Any other frame.
  lemma FrameTold(cfg: Config, r: Rules, address: string, arg: Arg, now: int, events: seq<Event>)
    requires Told(r, events) && address != "/engine/status/load"
    ensures Told(OnFrame(cfg, r, address, arg, now).rules, events + [FrameIn(address, arg, now)])
  {
    assert (events + [FrameIn(address, arg, now)])[..|events|] == events;
    OtherFrameRules(cfg, r, address, arg, now);
    OtherFrameCues(cfg, r, address, arg, now, events);
    hide IsPerCue, OnFrame, CuesTold, LinkUp, SuppressedUntil;
    LinkKept(events, FrameIn(address, arg, now));
  }

  lemma LinkKept(events: seq<Event>, e: Event)
    requires !e.Connect? && !e.Disconnect?
    ensures LinkUp(events + [e]) == LinkUp(events) && SuppressedUntil(events + [e]) == SuppressedUntil(events)
  {
    assert (events + [e])[..|events|] == events;
  }

  lemma OtherFrameCues(cfg: Config, r: Rules, address: string, arg: Arg, now: int, events: seq<Event>)
    requires Told(r, events) && address != "/engine/status/load"
    ensures CuesTold(OnFrame(cfg, r, address, arg, now).rules.cueVals, events + [FrameIn(address, arg, now)])
  {
    OtherFrameValue(cfg, r, address, arg, now, events, "");
    hide OnFrame, Get, CueValue, Told;
    var cues := OnFrame(cfg, r, address, arg, now).rules.cueVals;
    forall u ensures Get(cues, u, 0) == CueValue(events + [FrameIn(address, arg, now)], u) {
      OtherFrameValue(cfg, r, address, arg, now, events, u);
    }
  }

  lemma OtherFrameRules(cfg: Config, r: Rules, address: string, arg: Arg, now: int)
    requires address != "/engine/status/load"
    ensures var r1 := OnFrame(cfg, r, address, arg, now).rules;
            && r1.load == r.load && r1.connected == r.connected && r1.suppressUntil == r.suppressUntil
            && r1.held == r.held + if IsPerCue(address) && !Loaded(r.load) && |r.held| < 20000
                                   then [Held(address[15..], arg)] else []
  {
    PerCueMeans(address);
    hide PerCue, IsPerCue, Has, Matches, Set;
    if IsPerCue(address) {} else {}
  }

  lemma OtherFrameValue(cfg: Config, r: Rules, address: string, arg: Arg, now: int, events: seq<Event>, u: string)
    requires Told(r, events) && address != "/engine/status/load"
    ensures var cues := OnFrame(cfg, r, address, arg, now).rules.cueVals;
            Distinct(cues) && Get(cues, u, 0) == CueValue(events + [FrameIn(address, arg, now)], u)
  {
    assert (events + [FrameIn(address, arg, now)])[..|events|] == events;
    PerCueMeans(address);
    if STATUS_PREFIX <= address {
      var key := address[15..];
      assert address == STATUS_PREFIX + key;
      CueAddressMeans(key, u);
      CommitValue(cfg, r, key, arg, true, now, u);
      hide Commit, Get, Set, Has, Matches, ValueOr;
      if key == "cue/" + u { assert PerCue(key); }
    } else {
      assert STATUS_PREFIX + ("cue/" + u) == "/engine/status/cue/" + u;
    }
  }

  lemma StepTold(cfg: Config, w: World, e: Event, events: seq<Event>)
    requires Told(w.rules, events)
    ensures Told(Step(cfg, w, e).rules, events + [e])
  {
    var next := events + [e];
    assert next[..|events|] == events;
    StepRules(cfg, w, e);
    match e
    case FrameIn(address, arg, now) =>
      PerCueMeans(address);
      hide Told, OnLoad, Commit, Forward, PerCue, IsPerCue, Step;
      if address == "/engine/status/load" { LoadTold(cfg, w.rules, arg, now, events); }
      else { FrameTold(cfg, w.rules, address, arg, now, events); }
    case Disconnect(now) =>
      forall u ensures Get<string, int>([], u, 0) == CueValue(next, u) { EmptyGet(u); }
      hide Step;
    case _ =>
      hide Step, Get;
      assert forall u :: CueValue(next, u) == CueValue(events, u);
  }

  /** In every run the rules' load, hold buffer, link, suppression and cue values are what the
      events say: in particular exactly the first HOLD_CAP frames that came without a project
      are held. */
  lemma {:induction false} RulesTold(cfg: Config, events: seq<Event>)
    ensures Told(Run(cfg, events).rules, events)
  {
    hide Step;
    if events == [] {
      assert Start().rules == INITIAL;
    } else {
      var n := |events| - 1;
      RulesTold(cfg, events[..n]);
      hide Told;
      StepTold(cfg, Run(cfg, events[..n]), events[n], events[..n]);
      assert events[..n] + [events[n]] == events;
    }
  }
}
