/** Exactly which addresses each event leaves in the cache, and which a dump re-queues. */
module CacheSteps {
  import opened OrderedDict
  import opened Osc
  import opened StateLane
  import opened RelayRules
  import opened RelayRun
  import opened RelayTheorems
  import opened History
  import opened ForwardRuns
  import opened CacheRuns

  // ------------------------------------------------------------ the count of per-cue entries

  function PerCueEntries(cache: seq<Item<string, Arg>>): nat {
    if cache == [] then 0
    else PerCueEntries(cache[..|cache| - 1]) + if IsPerCue(cache[|cache| - 1].key) then 1 else 0
  }

  ghost predicate Counted(r: Rules) {
    r.cachedPerCue == PerCueEntries(r.cache)
  }

  lemma {:induction false} EntriesSameKeys(a: seq<Item<string, Arg>>, b: seq<Item<string, Arg>>)
    requires |a| == |b| && forall i :: 0 <= i < |a| ==> a[i].key == b[i].key
    ensures PerCueEntries(a) == PerCueEntries(b)
  {
    if a != [] { EntriesSameKeys(a[..|a| - 1], b[..|b| - 1]); }
  }

  lemma EntriesSet(cache: seq<Item<string, Arg>>, a: string, arg: Arg)
    ensures PerCueEntries(Set(cache, a, arg))
            == PerCueEntries(cache) + if !Has(cache, a) && IsPerCue(a) then 1 else 0
  {
    hide IsPerCue;
    if Has(cache, a) {
      EntriesSameKeys(cache, Set(cache, a, arg));
    } else {
      assert (cache + [Item(a, arg)])[..|cache|] == cache;
    }
  }

  lemma {:induction false} EntriesNone(cache: seq<Item<string, Arg>>)
    requires forall i :: 0 <= i < |cache| ==> !IsPerCue(cache[i].key)
    ensures PerCueEntries(cache) == 0
  {
    if cache != [] { EntriesNone(cache[..|cache| - 1]); }
  }

  lemma AddressMeans(key: string)
    ensures IsPerCue(StatusAddress(key)) <==> PerCue(key)
  {
    PerCueMeans(StatusAddress(key));
    assert StatusAddress(key)[15..] == key;
    hide PerCue, IsPerCue;
  }

  // ------------------------------------------------------------ forwarding and committing

  // What forwarding a frame with this key leaves cached.
  ghost predicate CachedWith(cfg: Config, r: Rules, r': Rules, key: string, a: string) {
    Has(r'.cache, a) <==>
      Has(r.cache, a) || (a == "/engine/status/" + key && Listed(cfg.keys, key)
                          && (IsPerCue(a) ==> PerCueEntries(r.cache) < 20_000))
  }

  lemma ForwardHas(cfg: Config, r: Rules, key: string, arg: Arg, a: string)
    requires Counted(r)
    ensures var r' := Forward(cfg, r, key, arg).rules; Counted(r') && CachedWith(cfg, r, r', key, a)
  {
    AddressMeans(key);
    ListedMeans(cfg, key);
    SetHas(r.cache, StatusAddress(key), arg, a);
    EntriesSet(r.cache, StatusAddress(key), arg);
    hide Set, Has, Matches, PerCue, IsPerCue, Listed, PerCueEntries;
    if Matches(cfg, key) {} else {}
  }

  lemma CommitHas(cfg: Config, r: Rules, key: string, arg: Arg, live: bool, now: int, a: string)
    requires Counted(r)
    ensures var r' := Commit(cfg, r, key, arg, live, now).rules; Counted(r') && CachedWith(cfg, r, r', key, a)
  {
    if IsCue(key) {
      var prev := Get(r.cueVals, key[4..], 0);
      var kept := if AsInt(arg).Some? then AsInt(arg).value else prev;
      ForwardHas(cfg, r.(cueVals := Set(r.cueVals, key[4..], kept)), key, arg, a);
    } else {
      ForwardHas(cfg, r, key, arg, a);
    }
    hide Forward, Set, Get, Has, Listed, IsPerCue, PerCueEntries;
  }

  // A held frame whose key is listed.
  ghost predicate HeldAt(keys: seq<string>, held: seq<Held>, a: string) {
    exists i :: 0 <= i < |held| && a == "/engine/status/" + held[i].key && Listed(keys, held[i].key)
  }

  lemma {:induction false} CommitHeldHas(cfg: Config, r: Rules, held: seq<Held>, now: int, a: string)
    requires Counted(r) && r.cachedPerCue + |held| <= 20_000
    ensures var r' := CommitHeld(cfg, r, held, now).rules;
            Counted(r') && (Has(r'.cache, a) <==> Has(r.cache, a) || HeldAt(cfg.keys, held, a))
  {
    if held != [] {
      var n := |held| - 1;
      var o, h := CommitHeld(cfg, r, held[..n], now), held[n];
      hide Commit, Has, Listed, IsPerCue, PerCueEntries;
      CommitHeldHas(cfg, r, held[..n], now, a);
      CommitHeldCount(cfg, r, held[..n], now);
      CommitHas(cfg, o.rules, h.key, h.arg, false, now, a);
      assert held == held[..n] + [h];
      if HeldAt(cfg.keys, held[..n], a) {
        var i :| 0 <= i < n && a == "/engine/status/" + held[..n][i].key && Listed(cfg.keys, held[..n][i].key);
        assert held[i] == held[..n][i];
      }
      if HeldAt(cfg.keys, held, a) {
        var i :| 0 <= i < |held| && a == "/engine/status/" + held[i].key && Listed(cfg.keys, held[i].key);
        if i < n { assert held[..n][i] == held[i]; }
      }
    }
  }

  lemma DropHas(cache: seq<Item<string, Arg>>, a: string)
    requires forall i :: 0 <= i < |cache| ==> STATUS_PREFIX <= cache[i].key
    ensures Has(GlobalOnly(cache), a) <==> Has(cache, a) && !IsPerCue(a)
    ensures PerCueEntries(GlobalOnly(cache)) == 0
  {
    var g := GlobalOnly(cache);
    forall i | 0 <= i < |g| ensures g[i] in cache && !IsPerCue(g[i].key) {
      GlobalOnlyMember(cache, g[i]);
      PerCueMeans(g[i].key);
    }
    EntriesNone(g);
    PerCueMeans(a);
    hide IsPerCue, PerCue, PerCueEntries;
    if Has(g, a) { HasElement(cache, g[Find(g, a)]); }
    if Has(cache, a) && !IsPerCue(a) { DropKeepsGlobal(cache, a); }
  }

  // ------------------------------------------------------------ every event

  // What an event leaves cached.
  ghost predicate CachedAfter(keys: seq<string>, before: seq<Event>, r: Rules, e: Event, a: string) {
    var had, load := Has(r.cache, a), a == "/engine/status/load" && Listed(keys, "load");
    if e.Disconnect? then false
    else if !e.FrameIn? then had
    else if IsLoad(e) then
      (if Blank(e.arg) then had && !IsPerCue(a) else had || HeldAt(keys, Waiting(before), a)) || load
    else
      || had
      || (a == e.address && "/engine/status/" <= a && Listed(keys, a[15..])
          && (IsPerCue(a) ==> HasProject(before) && PerCueEntries(r.cache) < 20_000))
  }

  lemma LoadHas(cfg: Config, r: Rules, arg: Arg, now: int, a: string)
    requires Counted(r) && (Blank(arg) || r.held == [] || r.cachedPerCue + |r.held| <= 20_000)
    requires forall i :: 0 <= i < |r.cache| ==> STATUS_PREFIX <= r.cache[i].key
    ensures var r' := OnLoad(cfg, r, arg, now).rules;
            Counted(r')
            && (Has(r'.cache, a) <==>
                  (if Blank(arg) then Has(r.cache, a) && !IsPerCue(a)
                   else Has(r.cache, a) || HeldAt(cfg.keys, r.held, a))
                  || (a == "/engine/status/load" && Listed(cfg.keys, "load")))
  {
    BlankMeans(arg);
    PerCueMeans("/engine/status/load");
    LoadIsNotPerCue();
    hide Has, Forward, CommitHeld, GlobalOnly, Str, SynthResets, Blank, Listed, PerCueEntries, IsPerCue, PerCue;
    if Blank(arg) {
      DropHas(r.cache, a);
      ForwardHas(cfg, DropPerCue(r).(held := [], load := Known(Str(arg))), "load", arg, a);
    } else {
      if r.held == [] { NothingHeld(cfg, r.(held := []), now, a); }
      else { CommitHeldHas(cfg, r.(held := []), r.held, now, a); }
      ForwardHas(cfg, CommitHeld(cfg, r.(held := []), r.held, now).rules.(load := Known(Str(arg))), "load", arg, a);
    }
  }

  lemma NothingHeld(cfg: Config, r: Rules, now: int, a: string)
    ensures CommitHeld(cfg, r, [], now).rules == r && !HeldAt(cfg.keys, [], a)
  {}

  lemma OtherFrameHas(cfg: Config, r: Rules, address: string, arg: Arg, now: int, a: string)
    requires Counted(r) && address != "/engine/status/load"
    ensures var r' := OnFrame(cfg, r, address, arg, now).rules;
            Counted(r')
            && (Has(r'.cache, a) <==>
                  Has(r.cache, a)
                  || (a == address && "/engine/status/" <= a && Listed(cfg.keys, a[15..])
                      && (IsPerCue(a) ==> Loaded(r.load) && PerCueEntries(r.cache) < 20_000)))
  {
    PerCueMeans(address);
    hide Has, Forward, Commit, Listed, PerCueEntries, IsPerCue, PerCue;
    if STATUS_PREFIX <= address {
      var key := address[15..];
      assert address == "/engine/status/" + key;
      if PerCue(key) {
        if Loaded(r.load) { CommitHas(cfg, r, key, arg, true, now, a); }
      } else {
        ForwardHas(cfg, r, key, arg, a);
      }
    }
  }

  lemma StepHas(cfg: Config, w: World, events: seq<Event>, e: Event, a: string)
    requires Told(w.rules, events) && Sound(cfg, w) && Counted(w.rules)
    ensures var r' := Step(cfg, w, e).rules;
            Counted(r') && (Has(r'.cache, a) <==> CachedAfter(cfg.keys, events, w.rules, e, a))
  {
    StepRules(cfg, w, e);
    CacheFits(cfg, w);
    hide Step, OnLoad, Sound, CommitHeld, Has, Listed, PerCueEntries, IsPerCue, HeldAt;
    if e.FrameIn? {
      if IsLoad(e) {
        LoadAddress(cfg, w.rules, e.arg, e.now);
        LoadHas(cfg, w.rules, e.arg, e.now, a);
      } else {
        OtherFrameHas(cfg, w.rules, e.address, e.arg, e.now, a);
      }
    } else if e.Disconnect? {
      NoEntries(a);
    }
  }

  lemma NoEntries(a: string)
    ensures !Has<string, Arg>([], a) && PerCueEntries([]) == 0
  {}

  lemma CacheFits(cfg: Config, w: World)
    requires Sound(cfg, w)
    ensures w.rules.held == [] || w.rules.cachedPerCue + |w.rules.held| <= 20_000
    ensures forall i :: 0 <= i < |w.rules.cache| ==> STATUS_PREFIX <= w.rules.cache[i].key
  {
    assert forall i :: 0 <= i < |w.rules.cache| ==> CachedAsPut(w.rules.cache[i], Final(w));
  }

  lemma {:induction false} CountKept(cfg: Config, events: seq<Event>)
    ensures Counted(Run(cfg, events).rules)
  {
    if events == [] {
      NoEntries("");
    } else {
      var n := |events| - 1;
      CountKept(cfg, events[..n]);
      RulesTold(cfg, events[..n]);
      RunSound(cfg, events[..n]);
      hide Step, Sound, Told;
      StepHas(cfg, Run(cfg, events[..n]), events[..n], events[n], "");
    }
  }

  /** In every run an event caches exactly the listed frames it forwards, the held ones when a
      project is loaded, a new per-cue address only while fewer than CACHE_CAP are cached; an
      unload keeps what is not per-cue, and a link drop nothing. */
  lemma CacheIff(cfg: Config, events: seq<Event>, e: Event, a: string)
    ensures Has(Run(cfg, events + [e]).rules.cache, a)
            <==> CachedAfter(cfg.keys, events, Run(cfg, events).rules, e, a)
  {
    CountKept(cfg, events);
    RulesTold(cfg, events);
    RunSound(cfg, events);
    RunNext(cfg, events, e);
    hide Run, Sound, Told, Step, CachedAfter, Counted;
    StepHas(cfg, Run(cfg, events), events, e, a);
  }

  // ------------------------------------------------------------ dumps

  // With cue names known, a per-cue address only for a named cue.
  predicate Wanted(a: string, names: set<string>) {
    names == {} || !IsPerCue(a)
    || exists u :: u in names && (a == "/engine/status/cue/" + u || a == "/engine/status/cue_enabled/" + u
                                  || a == "/engine/status/cue_name/" + u)
  }

  lemma WantedMeans(a: string, names: set<string>)
    requires STATUS_PREFIX <= a
    ensures Wanted(a, names) <==> Named(a, names)
  {
    PerCueMeans(a);
    var key := a[15..];
    assert a == STATUS_PREFIX + key;
    if IsPerCue(a) {
      forall u ensures CueOf(key) == u <==> a == "/engine/status/cue/" + u || a == "/engine/status/cue_enabled/" + u
                                            || a == "/engine/status/cue_name/" + u {
        CueOfMeans(key, u);
      }
      hide CueOf, PerCue, IsPerCue;
    }
  }

  lemma CueOfMeans(key: string, u: string)
    requires PerCue(key)
    ensures var a := STATUS_PREFIX + key;
            CueOf(key) == u <==> a == "/engine/status/cue/" + u || a == "/engine/status/cue_enabled/" + u
                                 || a == "/engine/status/cue_name/" + u
  {
    var a := STATUS_PREFIX + key;
    assert a[15..] == key;
    assert ("/engine/status/cue/" + u)[15..] == "cue/" + u;
    assert ("/engine/status/cue_enabled/" + u)[15..] == "cue_enabled/" + u;
    assert ("/engine/status/cue_name/" + u)[15..] == "cue_name/" + u;
    assert ("cue/" + u)[3] == '/' && ("cue_enabled/" + u)[3] == '_' == ("cue_name/" + u)[3];
    assert ("cue_enabled/" + u)[4] == 'e' && ("cue_name/" + u)[4] == 'n';
    assert STATUS_PREFIX + ("cue/" + u) == "/engine/status/cue/" + u;
    assert STATUS_PREFIX + ("cue_enabled/" + u) == "/engine/status/cue_enabled/" + u;
    assert STATUS_PREFIX + ("cue_name/" + u) == "/engine/status/cue_name/" + u;
    if "cue/" <= key { assert key == "cue/" + CueOf(key); }
    else if "cue_enabled/" <= key { assert key == "cue_enabled/" + CueOf(key); }
    else { assert key == "cue_name/" + CueOf(key); }
  }

  ghost predicate PutsTo(cmds: seq<Command>, a: string) {
    exists i :: 0 <= i < |cmds| && cmds[i].Put? && cmds[i].address == a
  }

  lemma PutsToLast(cmds: seq<Command>, a: string)
    requires cmds != []
    ensures PutsTo(cmds, a)
            <==> PutsTo(cmds[..|cmds| - 1], a) || (cmds[|cmds| - 1].Put? && cmds[|cmds| - 1].address == a)
  {
    var s := cmds[..|cmds| - 1];
    if i :| 0 <= i < |s| && s[i].Put? && s[i].address == a { assert cmds[i] == s[i]; }
    if i :| 0 <= i < |cmds| && cmds[i].Put? && cmds[i].address == a { if i < |s| { assert s[i] == cmds[i]; } }
  }

  lemma {:induction false} QueuedIff(w: World, cmds: seq<Command>, now: int, a: string)
    ensures Has(IssueAll(w, cmds, now).queue, a) <==> Has(w.queue, a) || PutsTo(cmds, a)
  {
    if cmds != [] {
      var n := |cmds| - 1;
      var c, w1 := cmds[n], IssueAll(w, cmds[..n], now);
      hide Has, PutState, PutsTo;
      QueuedIff(w, cmds[..n], now, a);
      PutsToLast(cmds, a);
      if c.Put? { PutStateHas(w1.queue, c.address, c.arg, c.head, a); }
    }
  }

  lemma {:induction false} DumpPutsTo(cache: seq<Item<string, Arg>>, names: set<string>, a: string)
    ensures PutsTo(DumpPuts(cache, names), a) <==> Has(cache, a) && Named(a, names)
  {
    if cache != [] {
      var s, last := cache[..|cache| - 1], cache[|cache| - 1];
      var d := DumpPuts(cache, names);
      DumpPutsTo(s, names, a);
      HasLast(cache, a);
      hide Has, PutsTo, PerCueAddress, CueOf;
      if d != DumpPuts(s, names) {
        assert d[..|d| - 1] == DumpPuts(s, names);
        PutsToLast(d, a);
      }
    }
  }

  /** A dump queues exactly the link state and the cached addresses that are wanted, beside what
      is queued already; a heartbeat the link state alone. */
  lemma DumpExactly(cfg: Config, events: seq<Event>, names: set<string>, a: string)
    ensures var w := Run(cfg, events);
            && (Has(Run(cfg, events + [DumpAsked(names)]).queue, a)
                <==> Has(w.queue, a) || a == "/cuems/bridge/engine_connected"
                     || (Has(w.rules.cache, a) && Wanted(a, names)))
            && (Has(Run(cfg, events + [Heartbeat]).queue, a)
                <==> Has(w.queue, a) || a == "/cuems/bridge/engine_connected")
  {
    var w := Run(cfg, events);
    RunSound(cfg, events);
    CacheFits(cfg, w);
    RunNext(cfg, events, DumpAsked(names));
    RunNext(cfg, events, Heartbeat);
    PutStateHas(w.queue, LINK_PATH, LinkArg(w.rules.connected), false, a);
    var link, d := PutLink(w.rules.connected, false), DumpPuts(w.rules.cache, names);
    hide Run, Sound, Named, Wanted, DumpPuts, IssueAll, PutState;
    DumpPutsTo(w.rules.cache, names, a);
    QueuedIff(w, [link] + d, 0, a);
    LinkAlso(link, d, a);
    if Has(w.rules.cache, a) { WantedMeans(a, names); }
  }

  lemma LinkAlso(link: Command, d: seq<Command>, a: string)
    requires link.Put?
    ensures PutsTo([link] + d, a) <==> link.address == a || PutsTo(d, a)
  {
    var all := [link] + d;
    assert all[0] == link;
    if i :| 0 <= i < |d| && d[i].Put? && d[i].address == a { assert all[i + 1] == d[i]; }
    if i :| 0 <= i < |all| && all[i].Put? && all[i].address == a { if i > 0 { assert d[i - 1] == all[i]; } }
  }
}
