/** Both engine load orders end alike: per-cue frames held before a `load` are worth the
    same frames sent after it. */
module LoadOrder {
  import opened OrderedDict
  import opened Osc
  import opened RelayRules
  import opened CueEdges

  // What the hold buffer takes of a burst, and how many frames it loses.
  function Kept(burst: seq<Held>): seq<Held> {
    if |burst| <= HOLD_CAP then burst else burst[..HOLD_CAP]
  }

  function Lost(burst: seq<Held>): nat {
    if |burst| <= HOLD_CAP then 0 else |burst| - HOLD_CAP
  }

  // A burst of per-cue frames through on_frame, one by one.
  function Feed(cfg: Config, r: Rules, burst: seq<Held>, now: int): Outcome {
    if burst == [] then Outcome(r, [])
    else
      var o := Feed(cfg, r, burst[..|burst| - 1], now);
      var h := burst[|burst| - 1];
      var c := OnFrame(cfg, o.rules, StatusAddress(h.key), h.arg, now);
      Outcome(c.rules, o.cmds + c.cmds)
  }

  // The burst, then the load; and the load, then the burst.
  function BurstThenLoad(cfg: Config, r: Rules, burst: seq<Held>, name: Arg, now: int): Outcome {
    var b := Feed(cfg, r, burst, now);
    var l := OnFrame(cfg, b.rules, StatusAddress("load"), name, now);
    Outcome(l.rules, b.cmds + l.cmds)
  }

  function LoadThenBurst(cfg: Config, r: Rules, burst: seq<Held>, name: Arg, now: int): Outcome {
    var l := OnFrame(cfg, r, StatusAddress("load"), name, now);
    var b := Feed(cfg, l.rules, burst, now);
    Outcome(b.rules, l.cmds + b.cmds)
  }

  function AsMap(cache: seq<Item<string, Arg>>): map<string, Arg> {
    Receive(map[], cache)
  }

  // Equal but for the iteration order of the cache and the count of frames not held.
  ghost predicate SameRules(a: Rules, b: Rules) {
    && a == b.(cache := a.cache, heldDropped := a.heldDropped)
    && AsMap(a.cache) == AsMap(b.cache)
  }

  ghost predicate AllPerCue(burst: seq<Held>) {
    forall i :: 0 <= i < |burst| ==> PerCue(burst[i].key)
  }

  // ------------------------------------------------------------ holding

  lemma HoldFrame(cfg: Config, r: Rules, h: Held, now: int)
    requires !Loaded(r.load) && PerCue(h.key)
    ensures OnFrame(cfg, r, StatusAddress(h.key), h.arg, now)
            == Outcome(if |r.held| >= HOLD_CAP then r.(heldDropped := r.heldDropped + 1)
                       else r.(held := r.held + [h]), [])
  {
    StatusAddressFacts(h.key);
    LoadIsNotPerCue();
  }

  lemma {:induction false} FeedHolds(cfg: Config, r: Rules, burst: seq<Held>, now: int)
    requires !Loaded(r.load) && r.held == [] && AllPerCue(burst)
    ensures Feed(cfg, r, burst, now)
            == Outcome(r.(held := Kept(burst), heldDropped := r.heldDropped + Lost(burst)), [])
  {
    hide OnFrame, PerCue, StatusAddress;
    if burst != [] {
      var n := |burst| - 1;
      FeedHolds(cfg, r, burst[..n], now);
      HoldFrame(cfg, Feed(cfg, r, burst[..n], now).rules, burst[n], now);
      if n < HOLD_CAP {
        assert burst[..n] + [burst[n]] == burst;
      } else {
        assert burst[..n][..HOLD_CAP] == burst[..HOLD_CAP];
      }
    }
  }

  // ------------------------------------------------------------ committing

  // `b` is `a` with the load frame forwarded.
  ghost predicate Ahead(cfg: Config, a: Rules, b: Rules, name: Arg, va: map<string, Arg>, vb: map<string, Arg>) {
    AheadRules(a, b, name) && AheadCache(cfg, a, b, name) && vb == WithLoad(cfg, va, name)
  }

  ghost function WithLoad(cfg: Config, v: map<string, Arg>, name: Arg): map<string, Arg> {
    if Matches(cfg, "load") then v[StatusAddress("load") := name] else v
  }

  ghost predicate AheadRules(a: Rules, b: Rules, name: Arg) {
    b == a.(cache := b.cache, load := Known(Str(name)), held := b.held, heldDropped := b.heldDropped)
  }

  ghost predicate AheadCache(cfg: Config, a: Rules, b: Rules, name: Arg) {
    Distinct(a.cache) && Distinct(b.cache) && AsMap(b.cache) == WithLoad(cfg, AsMap(a.cache), name)
  }

  // A new per-cue address that the full cache does not take.
  ghost predicate Full(r: Rules, key: string) {
    StatusAddress(key) !in AsMap(r.cache) && PerCue(key) && r.cachedPerCue >= CACHE_CAP
  }

  // The counters after forwarding.
  ghost function Counted(cfg: Config, r: Rules, key: string): Rules {
    if !Matches(cfg, key) then r
    else if Full(r, key) then r.(cacheDropped := r.cacheDropped + 1)
    else if PerCue(key) && StatusAddress(key) !in AsMap(r.cache) then r.(cachedPerCue := r.cachedPerCue + 1)
    else r
  }

  lemma ForwardAsMap(cfg: Config, r: Rules, key: string, arg: Arg)
    requires Distinct(r.cache)
    ensures var r' := Forward(cfg, r, key, arg).rules;
            && Distinct(r'.cache)
            && r' == Counted(cfg, r, key).(cache := r'.cache)
            && AsMap(r'.cache) == if Matches(cfg, key) && !Full(r, key) then AsMap(r.cache)[StatusAddress(key) := arg]
                                  else AsMap(r.cache)
  {
    var addr := StatusAddress(key);
    ReceiveKeys(map[], r.cache, addr);
    SetDistinct(r.cache, addr, arg);
    SetReceive(map[], r.cache, addr, arg);
  }

  lemma ForwardAhead(cfg: Config, a: Rules, b: Rules, name: Arg, key: string, arg: Arg,
                     va: map<string, Arg>, vb: map<string, Arg>)
    requires Ahead(cfg, a, b, name, va, vb) && PerCue(key)
    ensures var oa, ob := Forward(cfg, a, key, arg), Forward(cfg, b, key, arg);
            Ahead(cfg, oa.rules, ob.rules, name, View(va, oa.cmds), View(vb, ob.cmds))
  {
    ForwardView(cfg, a, key, arg, va);
    ForwardView(cfg, b, key, arg, vb);
    WithLoadCommutes(cfg, va, name, key, arg);
    hide Forward, StatusAddress, View, Matches, AheadRules, AheadCache, WithLoad, PerCue;
    ForwardAheadCache(cfg, a, b, name, key, arg);
  }

  lemma WithLoadCommutes(cfg: Config, v: map<string, Arg>, name: Arg, key: string, arg: Arg)
    requires PerCue(key)
    ensures WithLoad(cfg, v, name)[StatusAddress(key) := arg] == WithLoad(cfg, v[StatusAddress(key) := arg], name)
    ensures StatusAddress(key) in WithLoad(cfg, v, name) <==> StatusAddress(key) in v
  {
    StatusAddressFacts(key);
    StatusAddressFacts("load");
    LoadIsNotPerCue();
  }

  lemma ForwardAheadCache(cfg: Config, a: Rules, b: Rules, name: Arg, key: string, arg: Arg)
    requires AheadRules(a, b, name) && AheadCache(cfg, a, b, name) && PerCue(key)
    ensures var oa, ob := Forward(cfg, a, key, arg), Forward(cfg, b, key, arg);
            AheadRules(oa.rules, ob.rules, name) && AheadCache(cfg, oa.rules, ob.rules, name)
  {
    WithLoadCommutes(cfg, AsMap(a.cache), name, key, arg);
    assert Full(a, key) == Full(b, key);
    hide Forward, PerCue, AsMap, StatusAddress, Distinct, Matches, WithLoad, Full;
    ForwardAsMap(cfg, a, key, arg);
    ForwardAsMap(cfg, b, key, arg);
  }

  lemma CommitAhead(cfg: Config, a: Rules, b: Rules, name: Arg, h: Held, now: int,
                    va: map<string, Arg>, vb: map<string, Arg>)
    requires Ahead(cfg, a, b, name, va, vb) && PerCue(h.key)
    ensures var oa, ob := Commit(cfg, a, h.key, h.arg, false, now), Commit(cfg, b, h.key, h.arg, true, now);
            Ahead(cfg, oa.rules, ob.rules, name, View(va, oa.cmds), View(vb, ob.cmds))
  {
    CommitView(cfg, a, h.key, h.arg, false, now, va);
    CommitView(cfg, b, h.key, h.arg, true, now, vb);
    ForwardView(cfg, a, h.key, h.arg, va);
    ForwardView(cfg, b, h.key, h.arg, vb);
    if IsCue(h.key) {
      var v := AsInt(h.arg);
      var kept := if v.Some? then v.value else Get(a.cueVals, h.key[4..], 0);
      var cues := Set(a.cueVals, h.key[4..], kept);
      ForwardView(cfg, a.(cueVals := cues), h.key, h.arg, va);
      ForwardView(cfg, b.(cueVals := cues), h.key, h.arg, vb);
      ForwardAhead(cfg, a.(cueVals := cues), b.(cueVals := cues), name, h.key, h.arg, va, vb);
    } else {
      ForwardAhead(cfg, a, b, name, h.key, h.arg, va, vb);
    }
  }

  lemma LiveFrame(cfg: Config, r: Rules, h: Held, now: int)
    requires Loaded(r.load) && PerCue(h.key)
    ensures OnFrame(cfg, r, StatusAddress(h.key), h.arg, now) == Commit(cfg, r, h.key, h.arg, true, now)
    ensures SameScope(r, Commit(cfg, r, h.key, h.arg, true, now).rules)
  {
    StatusAddressFacts(h.key);
    LoadIsNotPerCue();
  }

  lemma {:induction false} BurstAhead(cfg: Config, a: Rules, b: Rules, name: Arg, burst: seq<Held>, now: int,
                                      va: map<string, Arg>, vb: map<string, Arg>)
    requires Ahead(cfg, a, b, name, va, vb) && AllPerCue(burst) && Str(name) != ""
    ensures var oa, ob := CommitHeld(cfg, a, burst, now), Feed(cfg, b, burst, now);
            Ahead(cfg, oa.rules, ob.rules, name, View(va, oa.cmds), View(vb, ob.cmds))
            && ob.rules.held == b.held && ob.rules.heldDropped == b.heldDropped
  {
    if burst == [] {
      assert Puts([]) == [];
    } else {
      var n := |burst| - 1;
      var h := burst[n];
      BurstAhead(cfg, a, b, name, burst[..n], now, va, vb);
      var oa, ob := CommitHeld(cfg, a, burst[..n], now), Feed(cfg, b, burst[..n], now);
      LiveFrame(cfg, ob.rules, h, now);
      hide Commit, OnFrame, View, PerCue;
      CommitAhead(cfg, oa.rules, ob.rules, name, h, now, View(va, oa.cmds), View(vb, ob.cmds));
      ViewConcat(va, oa.cmds, Commit(cfg, oa.rules, h.key, h.arg, false, now).cmds);
      ViewConcat(vb, ob.cmds, Commit(cfg, ob.rules, h.key, h.arg, true, now).cmds);
    }
  }

  /** From an unloaded relay with nothing held, a burst of per-cue frames before a project's
      `load` leaves the cache, the cue values and the receiver's final view as the same frames
      after that `load` would, but for those past HOLD_CAP, which are lost; and the held order
      requests no pulse. */
  lemma LoadOrderEquivalence(cfg: Config, r: Rules, burst: seq<Held>, name: Arg, now: int, v: map<string, Arg>)
    requires !Loaded(r.load) && r.held == [] && Distinct(r.cache)
    requires AllPerCue(burst) && Str(name) != ""
    ensures var held, live := BurstThenLoad(cfg, r, burst, name, now), LoadThenBurst(cfg, r, Kept(burst), name, now);
            && SameRules(held.rules, live.rules)
            && View(v, held.cmds) == View(v, live.cmds)
            && NoPulse(held.cmds)
            && held.rules.heldDropped == r.heldDropped + Lost(burst)
  {
    var kept := Kept(burst);
    var r1 := r.(heldDropped := r.heldDropped + Lost(burst));
    assert AllPerCue(kept);
    var live := Forward(cfg, r.(load := Known(Str(name))), "load", name);
    FeedHolds(cfg, r, burst, now);
    HeldOrder(cfg, r1, r, burst, kept, name, now);
    LiveOrder(cfg, r, kept, name, now);
    AheadOfNothing(cfg, r, r1, name, v);
    hide *;
    BurstAhead(cfg, r1, live.rules, name, kept, now, v, View(v, live.cmds));
    HeldRequestsNothing(cfg, r1, kept, now);
    AheadCatchesUp(cfg, r1, live, name, kept, now, v);
    HeldOrderCounts(cfg, r1, kept, name, now);
  }

  lemma HeldOrder(cfg: Config, r1: Rules, r: Rules, burst: seq<Held>, kept: seq<Held>, name: Arg, now: int)
    requires Feed(cfg, r, burst, now) == Outcome(r1.(held := kept), []) && r1.held == [] && Str(name) != ""
    ensures var a := CommitHeld(cfg, r1, kept, now);
            var f := Forward(cfg, a.rules.(load := Known(Str(name))), "load", name);
            BurstThenLoad(cfg, r, burst, name, now) == Outcome(f.rules, a.cmds + f.cmds)
  {
    hide OnFrame, CommitHeld, Forward, Feed, Str, StatusAddress;
    assert r1.(held := kept).(held := []) == r1;
    LoadFrame(cfg, r1.(held := kept), name, now);
    var a := CommitHeld(cfg, r1, kept, now);
    var f := Forward(cfg, a.rules.(load := Known(Str(name))), "load", name);
    assert [] + (a.cmds + f.cmds) == a.cmds + f.cmds;
  }

  lemma HeldOrderCounts(cfg: Config, r: Rules, kept: seq<Held>, name: Arg, now: int)
    ensures var a := CommitHeld(cfg, r, kept, now);
            var f := Forward(cfg, a.rules.(load := Known(Str(name))), "load", name);
            NoPulse(a.cmds + f.cmds) && f.rules.heldDropped == r.heldDropped
  {
    hide CommitHeld;
    HeldRequestsNothing(cfg, r, kept, now);
  }

  lemma LiveOrder(cfg: Config, r: Rules, burst: seq<Held>, name: Arg, now: int)
    requires r.held == [] && Str(name) != ""
    ensures var l := Forward(cfg, r.(load := Known(Str(name))), "load", name);
            var b := Feed(cfg, l.rules, burst, now);
            LoadThenBurst(cfg, r, burst, name, now) == Outcome(b.rules, l.cmds + b.cmds)
  {
    LoadFrame(cfg, r, name, now);
  }

  // What a project's load does: commit what is held, then forward it.
  lemma LoadFrame(cfg: Config, r: Rules, name: Arg, now: int)
    requires Str(name) != ""
    ensures var a := CommitHeld(cfg, r.(held := []), r.held, now);
            var f := Forward(cfg, a.rules.(load := Known(Str(name))), "load", name);
            OnFrame(cfg, r, StatusAddress("load"), name, now) == Outcome(f.rules, a.cmds + f.cmds)
    ensures r.held == [] ==> OnFrame(cfg, r, StatusAddress("load"), name, now)
                             == Forward(cfg, r.(load := Known(Str(name))), "load", name)
  {
    StatusAddressFacts("load");
    if r.held == [] {
      assert r.(held := []) == r;
      var f := Forward(cfg, r.(load := Known(Str(name))), "load", name);
      assert [] + f.cmds == f.cmds;
    }
  }

  lemma AheadOfNothing(cfg: Config, r: Rules, r1: Rules, name: Arg, v: map<string, Arg>)
    requires r.held == [] && Distinct(r.cache) && r1 == r.(heldDropped := r1.heldDropped)
    ensures var live := Forward(cfg, r.(load := Known(Str(name))), "load", name);
            Ahead(cfg, r1, live.rules, name, v, View(v, live.cmds)) && live.rules.held == []
            && live.rules.heldDropped == r.heldDropped
  {
    var r2 := r.(load := Known(Str(name)));
    ForwardAsMap(cfg, r2, "load", name);
    ForwardView(cfg, r2, "load", name, v);
    LoadIsNotPerCue();
  }

  lemma AheadCatchesUp(cfg: Config, r1: Rules, live: Outcome, name: Arg, kept: seq<Held>, now: int, v: map<string, Arg>)
    requires var a, b := CommitHeld(cfg, r1, kept, now), Feed(cfg, live.rules, kept, now);
             && Ahead(cfg, a.rules, b.rules, name, View(v, a.cmds), View(View(v, live.cmds), b.cmds))
             && b.rules.held == [] == a.rules.held
    ensures var a, b := CommitHeld(cfg, r1, kept, now), Feed(cfg, live.rules, kept, now);
            var f := Forward(cfg, a.rules.(load := Known(Str(name))), "load", name);
            && SameRules(f.rules, b.rules)
            && View(v, a.cmds + f.cmds) == View(v, live.cmds + b.cmds)
  {
    var a, b := CommitHeld(cfg, r1, kept, now), Feed(cfg, live.rules, kept, now);
    var a1 := a.rules.(load := Known(Str(name)));
    ForwardAsMap(cfg, a1, "load", name);
    ForwardView(cfg, a1, "load", name, View(v, a.cmds));
    LoadIsNotPerCue();
    ViewConcat(v, a.cmds, Forward(cfg, a1, "load", name).cmds);
    ViewConcat(v, live.cmds, b.cmds);
  }

  lemma {:induction false} HeldRequestsNothing(cfg: Config, r: Rules, held: seq<Held>, now: int)
    ensures NoPulse(CommitHeld(cfg, r, held, now).cmds)
    ensures CommitHeld(cfg, r, held, now).rules.held == r.held
    ensures CommitHeld(cfg, r, held, now).rules.heldDropped == r.heldDropped
  {
    if held != [] { HeldRequestsNothing(cfg, r, held[..|held| - 1], now); }
  }
}
