/** What the cache holds, in every run, and so what a late joiner's dump re-sends. */
module CacheRuns {
  import opened OrderedDict
  import opened Osc
  import opened StateLane
  import opened RelayRules
  import opened RelayRun
  import opened RelayTheorems
  import opened History

  // ------------------------------------------------------------ the rules keep entries

  lemma ForwardKeeps(cfg: Config, r: Rules, key: string, arg: Arg, a: string)
    requires Has(r.cache, a)
    ensures Has(Forward(cfg, r, key, arg).rules.cache, a)
  {
    SetHas(r.cache, StatusAddress(key), arg, a);
    hide Set, Has, Matches, PerCue, StatusAddress;
  }

  // A forwarded frame is cached, unless it is a new per-cue one and the cache is full.
  lemma ForwardCaches(cfg: Config, r: Rules, key: string, arg: Arg)
    requires Matches(cfg, key)
    ensures var o := Forward(cfg, r, key, arg);
            Has(o.rules.cache, StatusAddress(key))
            <==> Has(r.cache, StatusAddress(key)) || !PerCue(key) || r.cachedPerCue < CACHE_CAP
  {
    SetHas(r.cache, StatusAddress(key), arg, StatusAddress(key));
    hide Set, Has, Matches, PerCue, StatusAddress;
  }

  lemma CommitKeeps(cfg: Config, r: Rules, key: string, arg: Arg, live: bool, now: int, a: string)
    requires Has(r.cache, a)
    ensures Has(Commit(cfg, r, key, arg, live, now).rules.cache, a)
  {
    var prev := if IsCue(key) then Get(r.cueVals, key[4..], 0) else 0;
    var kept := if AsInt(arg).Some? then AsInt(arg).value else prev;
    if IsCue(key) {
      ForwardKeeps(cfg, r.(cueVals := Set(r.cueVals, key[4..], kept)), key, arg, a);
    } else {
      ForwardKeeps(cfg, r, key, arg, a);
    }
    hide Forward, Set, Get, Has;
  }

  lemma {:induction false} CommitHeldKeeps(cfg: Config, r: Rules, held: seq<Held>, now: int, a: string)
    requires Has(r.cache, a)
    ensures Has(CommitHeld(cfg, r, held, now).rules.cache, a)
  {
    hide Commit, Has;
    if held != [] {
      var o, last := CommitHeld(cfg, r, held[..|held| - 1], now), held[|held| - 1];
      CommitHeldKeeps(cfg, r, held[..|held| - 1], now, a);
      CommitKeeps(cfg, o.rules, last.key, last.arg, false, now, a);
    }
  }

  lemma DropKeepsGlobal(cache: seq<Item<string, Arg>>, a: string)
    requires Has(cache, a) && !PerCueAddress(a)
    ensures Has(GlobalOnly(cache), a)
  {
    var x := cache[Find(cache, a)];
    GlobalOnlyMember(cache, x);
    assert x in GlobalOnly(cache);
    HasElement(GlobalOnly(cache), x);
  }

  lemma OnLoadKeeps(cfg: Config, r: Rules, arg: Arg, now: int, a: string)
    requires Has(r.cache, a) && (PerCueAddress(a) ==> Str(arg) != "")
    ensures Has(OnLoad(cfg, r, arg, now).rules.cache, a)
  {
    hide Has, Forward, CommitHeld, GlobalOnly, PerCueAddress, Str, SynthResets;
    if Str(arg) == "" {
      DropKeepsGlobal(r.cache, a);
      ForwardKeeps(cfg, DropPerCue(r).(held := [], load := Known(Str(arg))), "load", arg, a);
    } else {
      CommitHeldKeeps(cfg, r.(held := []), r.held, now, a);
      ForwardKeeps(cfg, CommitHeld(cfg, r.(held := []), r.held, now).rules.(load := Known(Str(arg))), "load", arg, a);
    }
  }

  predicate Unloads(e: Event) {
    e.FrameIn? && e.address == StatusAddress("load") && Str(e.arg) == ""
  }

  lemma OnFrameKeeps(cfg: Config, r: Rules, address: string, arg: Arg, now: int, a: string)
    requires Has(r.cache, a) && (PerCueAddress(a) ==> !Unloads(FrameIn(address, arg, now)))
    ensures Has(OnFrame(cfg, r, address, arg, now).rules.cache, a)
  {
    if STATUS_PREFIX <= address {
      var key := address[|STATUS_PREFIX|..];
      StatusAddressOf(address);
      hide Has, Forward, Commit, OnLoad, PerCueAddress, PerCue, Str;
      if key == "load" {
        OnLoadKeeps(cfg, r, arg, now, a);
      } else if PerCue(key) {
        CommitKeeps(cfg, r, key, arg, true, now, a);
      } else {
        ForwardKeeps(cfg, r, key, arg, a);
      }
    }
  }

  // ------------------------------------------------------------ over runs

  /** An entry stays in the cache until the link drops or, if it is per-cue, the project is
      unloaded. */
  lemma {:induction false} StaysCached(cfg: Config, before: seq<Event>, rest: seq<Event>, a: string)
    requires Has(Run(cfg, before).rules.cache, a)
    requires forall i :: 0 <= i < |rest| ==> !rest[i].Disconnect? && (PerCueAddress(a) ==> !Unloads(rest[i]))
    ensures Has(Run(cfg, before + rest).rules.cache, a)
  {
    hide Step, Has, OnFrame, Unloads, PerCueAddress;
    if rest == [] {
      assert before + rest == before;
    } else {
      var n := |rest| - 1;
      var prev := before + rest[..n];
      assert before + rest == prev + [rest[n]];
      StaysCached(cfg, before, rest[..n], a);
      RunNext(cfg, prev, rest[n]);
      StepRules(cfg, Run(cfg, prev), rest[n]);
      if rest[n].FrameIn? {
        OnFrameKeeps(cfg, Run(cfg, prev).rules, rest[n].address, rest[n].arg, rest[n].now, a);
      }
    }
  }

  // A dump asked for with these cue names re-sends this address.
  predicate Named(a: string, names: set<string>) {
    names == {} || !PerCueAddress(a) || CueOf(a[|STATUS_PREFIX|..]) in names
  }

  lemma {:induction false} DumpPutsAll(cache: seq<Item<string, Arg>>, names: set<string>, a: string) returns (i: nat)
    requires Has(cache, a) && Named(a, names)
    ensures i < |DumpPuts(cache, names)|
    ensures DumpPuts(cache, names)[i].Put? && DumpPuts(cache, names)[i].address == a
  {
    var s, last := cache[..|cache| - 1], cache[|cache| - 1];
    if last.key == a {
      i := |DumpPuts(s, names)|;
    } else {
      HasLast(cache, a);
      i := DumpPutsAll(s, names, a);
    }
  }

  lemma PutStateHas(q: Queue, address: string, arg: Arg, head: bool, a: string)
    ensures Has(PutState(q, address, arg, head), a) <==> Has(q, a) || a == address
  {
    if address == LINK_PATH && Has(q, address) && !head {
      SetHas(q, address, arg, a);
    } else {
      WithoutHas(q, address, a);
      AddedHas(Without(q, address), address, arg, a);
    }
  }

  lemma AddedHas(q: Queue, address: string, arg: Arg, a: string)
    ensures Has(q + [Item(address, arg)], a) <==> Has(q, a) || a == address
    ensures Has([Item(address, arg)] + q, a) <==> Has(q, a) || a == address
  {
    var x := Item(address, arg);
    if Has(q, a) {
      assert (q + [x])[Find(q, a)].key == a && ([x] + q)[Find(q, a) + 1].key == a;
    }
    if a == address { assert (q + [x])[|q|].key == a && ([x] + q)[0].key == a; }
    if Has([x] + q, a) && a != address {
      var i := Find([x] + q, a);
      assert q[i - 1].key == a;
    }
    if Has(q + [x], a) && a != address {
      var i := Find(q + [x], a);
      assert q[i].key == a;
    }
  }

  // Whatever is put is queued once all is put.
  lemma {:induction false} PutIsQueued(w: World, cmds: seq<Command>, now: int, a: string, i: nat)
    requires i < |cmds| && cmds[i].Put? && cmds[i].address == a
    ensures Has(IssueAll(w, cmds, now).queue, a)
  {
    var n := |cmds| - 1;
    var c, w1 := cmds[n], IssueAll(w, cmds[..n], now);
    hide Has, PutState;
    if i < n { PutIsQueued(w, cmds[..n], now, a, i); }
    if c.Put? { PutStateHas(w1.queue, c.address, c.arg, c.head, a); }
  }

  /** A dump re-queues every cached entry that the engine's cue names allow, each with the
      last value put for its address. */
  lemma DumpReplays(cfg: Config, events: seq<Event>, names: set<string>, a: string)
    requires Has(Run(cfg, events).rules.cache, a) && Named(a, names)
    ensures var w' := Run(cfg, events + [DumpAsked(names)]);
            Has(w'.queue, a) && a in Final(w') && Get(w'.queue, a, NoArg) == Final(w')[a]
    ensures Final(Run(cfg, events + [DumpAsked(names)])) == Final(Run(cfg, events))
  {
    var w := Run(cfg, events);
    RunNext(cfg, events, DumpAsked(names));
    DumpsChangeNothing(cfg, events, names);
    LaneRefinesDirectSending(cfg, events + [DumpAsked(names)], a);
    var i := DumpPutsAll(w.rules.cache, names, a);
    hide Has, Run, Final, DumpPuts, Named, Get;
    PutIsQueued(w, Dump(w.rules, names), 0, a, i + 1);
  }

  /** A late joiner gets every forwarded value that is not per-cue: whatever came since, short
      of a link drop, a dump re-queues its address with its last value. */
  lemma LateJoinerGets(cfg: Config, before: seq<Event>, key: string, arg: Arg, now: int, rest: seq<Event>,
                       names: set<string>)
    requires Matches(cfg, key) && !PerCue(key) && forall i :: 0 <= i < |rest| ==> !rest[i].Disconnect?
    ensures var a := StatusAddress(key);
            var w' := Run(cfg, before + [FrameIn(a, arg, now)] + rest + [DumpAsked(names)]);
            Has(w'.queue, a) && a in Final(w') && Get(w'.queue, a, NoArg) == Final(w')[a]
  {
    var a, e := StatusAddress(key), FrameIn(StatusAddress(key), arg, now);
    StatusAddressFacts(key);
    assert !PerCueAddress(a);
    RunNext(cfg, before, e);
    StepRules(cfg, Run(cfg, before), e);
    GlobalFrameCaches(cfg, Run(cfg, before).rules, key, arg, now);
    hide Has, Run, Final, OnFrame, StatusAddress, PerCueAddress, PerCue, Unloads, Get;
    StaysCached(cfg, before + [e], rest, a);
    NamedGlobal(a, names);
    hide Named;
    DumpReplays(cfg, before + [e] + rest, names, a);
  }

  lemma NamedGlobal(a: string, names: set<string>)
    requires !PerCueAddress(a)
    ensures Named(a, names)
  {}

  lemma GlobalFrameCaches(cfg: Config, r: Rules, key: string, arg: Arg, now: int)
    requires Matches(cfg, key) && !PerCue(key)
    ensures Has(OnFrame(cfg, r, StatusAddress(key), arg, now).rules.cache, StatusAddress(key))
  {
    StatusAddressFacts(key);
    hide Has, Forward, Matches, PerCue, CommitHeld, DropPerCue;
    if key == "load" {
      var o := if Str(arg) == "" then DropPerCue(r).(held := []) else CommitHeld(cfg, r.(held := []), r.held, now).rules;
      ForwardCaches(cfg, o.(load := Known(Str(arg))), "load", arg);
    } else {
      ForwardCaches(cfg, r, key, arg);
    }
  }

  /** The same for per-cue values that came with the project loaded, short of an unload, for
      cues the engine still names, unless the address was new and the cache full. */
  lemma LateJoinerGetsCue(cfg: Config, before: seq<Event>, key: string, arg: Arg, now: int, rest: seq<Event>,
                          names: set<string>)
    requires Matches(cfg, key) && PerCue(key) && (names == {} || CueOf(key) in names)
    requires Loaded(Run(cfg, before).rules.load)
    requires Has(Run(cfg, before).rules.cache, StatusAddress(key)) || Run(cfg, before).rules.cachedPerCue < CACHE_CAP
    requires forall i :: 0 <= i < |rest| ==> !rest[i].Disconnect? && !Unloads(rest[i])
    ensures var a := StatusAddress(key);
            var w' := Run(cfg, before + [FrameIn(a, arg, now)] + rest + [DumpAsked(names)]);
            Has(w'.queue, a) && a in Final(w') && Get(w'.queue, a, NoArg) == Final(w')[a]
  {
    var a, e := StatusAddress(key), FrameIn(StatusAddress(key), arg, now);
    StatusAddressFacts(key);
    assert Named(a, names);
    RunNext(cfg, before, e);
    StepRules(cfg, Run(cfg, before), e);
    CueFrameCaches(cfg, Run(cfg, before).rules, key, arg, now);
    hide Has, Run, Final, OnFrame, StatusAddress, PerCueAddress, PerCue, Unloads, Get, Named, CueOf;
    StaysCached(cfg, before + [e], rest, a);
    DumpReplays(cfg, before + [e] + rest, names, a);
  }

  lemma CueFrameCaches(cfg: Config, r: Rules, key: string, arg: Arg, now: int)
    requires Matches(cfg, key) && PerCue(key) && Loaded(r.load)
    requires Has(r.cache, StatusAddress(key)) || r.cachedPerCue < CACHE_CAP
    ensures Has(OnFrame(cfg, r, StatusAddress(key), arg, now).rules.cache, StatusAddress(key))
  {
    StatusAddressFacts(key);
    LoadIsNotPerCue();
    var prev := if IsCue(key) then Get(r.cueVals, key[4..], 0) else 0;
    var kept := if AsInt(arg).Some? then AsInt(arg).value else prev;
    hide Has, Forward, Matches, PerCue, Set, Get;
    if IsCue(key) {
      ForwardCaches(cfg, r.(cueVals := Set(r.cueVals, key[4..], kept)), key, arg);
    } else {
      ForwardCaches(cfg, r, key, arg);
    }
  }

  // Committing held frames caches them all while there is room for as many.
  lemma {:induction false} CommitHeldCaches(cfg: Config, r: Rules, held: seq<Held>, now: int, i: nat)
    requires r.cachedPerCue + |held| <= CACHE_CAP && i < |held| && Matches(cfg, held[i].key)
    ensures Has(CommitHeld(cfg, r, held, now).rules.cache, StatusAddress(held[i].key))
  {
    var n := |held| - 1;
    var o, last := CommitHeld(cfg, r, held[..n], now), held[n];
    CommitHeldCount(cfg, r, held[..n], now);
    hide Commit, Has, Matches;
    if i < n {
      CommitHeldCaches(cfg, r, held[..n], now, i);
      CommitKeeps(cfg, o.rules, last.key, last.arg, false, now, StatusAddress(held[i].key));
    } else {
      CommitCaches(cfg, o.rules, last.key, last.arg, now);
    }
  }

  lemma CommitCaches(cfg: Config, r: Rules, key: string, arg: Arg, now: int)
    requires Matches(cfg, key) && r.cachedPerCue < CACHE_CAP
    ensures Has(Commit(cfg, r, key, arg, false, now).rules.cache, StatusAddress(key))
  {
    var prev := if IsCue(key) then Get(r.cueVals, key[4..], 0) else 0;
    var kept := if AsInt(arg).Some? then AsInt(arg).value else prev;
    hide Has, Forward, Matches, PerCue, Set, Get;
    if IsCue(key) {
      ForwardCaches(cfg, r.(cueVals := Set(r.cueVals, key[4..], kept)), key, arg);
    } else {
      ForwardCaches(cfg, r, key, arg);
    }
  }

  lemma {:induction false} CommitHeldCount(cfg: Config, r: Rules, held: seq<Held>, now: int)
    ensures CommitHeld(cfg, r, held, now).rules.cachedPerCue <= r.cachedPerCue + |held|
  {
    if held != [] {
      var o, last := CommitHeld(cfg, r, held[..|held| - 1], now), held[|held| - 1];
      CommitHeldCount(cfg, r, held[..|held| - 1], now);
      CommitCount(cfg, o.rules, last.key, last.arg, now);
      hide Commit;
    }
  }

  lemma CommitCount(cfg: Config, r: Rules, key: string, arg: Arg, now: int)
    ensures Commit(cfg, r, key, arg, false, now).rules.cachedPerCue <= r.cachedPerCue + 1
  {
    hide Has, Matches, PerCue, Set, Get;
    if IsCue(key) {} else {}
  }

  // The held frames fit the cache, which is without per-cue entries while they are held.
  lemma HeldFrameCaches(cfg: Config, w: World, i: nat, name: Arg, now: int)
    requires Sound(cfg, w) && i < |w.rules.held| && Matches(cfg, w.rules.held[i].key) && Str(name) != ""
    ensures Has(OnFrame(cfg, w.rules, StatusAddress("load"), name, now).rules.cache, StatusAddress(w.rules.held[i].key))
    ensures PerCue(w.rules.held[i].key)
  {
    var r := w.rules;
    StatusAddressFacts("load");
    assert !Loaded(r.load) && r.cachedPerCue == 0 && |r.held| <= HOLD_CAP;
    hide Has, Forward, Matches, PerCue, CommitHeld, Sound, StatusAddress;
    CommitHeldCaches(cfg, r.(held := []), r.held, now, i);
    ForwardKeeps(cfg, CommitHeld(cfg, r.(held := []), r.held, now).rules.(load := Known(Str(name))), "load", name,
                 StatusAddress(r.held[i].key));
  }

  /** And the same, with no room needed, for every per-cue value that was held when its project
      was loaded. */
  lemma LateJoinerGetsHeld(cfg: Config, before: seq<Event>, i: nat, name: Arg, now: int, rest: seq<Event>,
                           names: set<string>)
    requires i < |Run(cfg, before).rules.held| && Matches(cfg, Run(cfg, before).rules.held[i].key)
    requires Str(name) != "" && forall k :: 0 <= k < |rest| ==> !rest[k].Disconnect? && !Unloads(rest[k])
    requires PerCue(Run(cfg, before).rules.held[i].key)
             && (names == {} || CueOf(Run(cfg, before).rules.held[i].key) in names)
    ensures var a := StatusAddress(Run(cfg, before).rules.held[i].key);
            var w' := Run(cfg, before + [FrameIn(StatusAddress("load"), name, now)] + rest + [DumpAsked(names)]);
            Has(w'.queue, a) && a in Final(w') && Get(w'.queue, a, NoArg) == Final(w')[a]
  {
    var w, e := Run(cfg, before), FrameIn(StatusAddress("load"), name, now);
    var a := StatusAddress(w.rules.held[i].key);
    StatusAddressFacts(w.rules.held[i].key);
    assert Named(a, names);
    RunSound(cfg, before);
    RunNext(cfg, before, e);
    StepRules(cfg, w, e);
    HeldFrameCaches(cfg, w, i, name, now);
    hide Has, Run, Final, OnFrame, StatusAddress, PerCueAddress, PerCue, Unloads, Get, Named, CueOf, Sound;
    StaysCached(cfg, before + [e], rest, a);
    DumpReplays(cfg, before + [e] + rest, names, a);
  }
}
