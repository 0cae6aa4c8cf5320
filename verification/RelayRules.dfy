/** The relay's rules: what each engine event commits, holds, resets and forwards. Every rule
    yields the new rule state and the commands it issues to the two lanes, in order. */
module RelayRules {
  import opened OrderedDict
  import opened Osc

  // The relay's view of `load`.
  datatype Load = Unknown | Known(name: string)

  datatype Held = Held(key: string, arg: Arg)

  datatype Rules = Rules(
    load: Load,
    connected: bool,
    suppressUntil: int,
    held: seq<Held>,
    cache: seq<Item<string, Arg>>,
    cachedPerCue: nat,
    cueVals: seq<Item<string, int>>,
    heldDropped: nat,
    cacheDropped: nat
  )

  // Put and Request reach the lanes; Committed and Forgot only record what the rules did.
  datatype Command =
    | Put(address: string, arg: Arg, head: bool)
    | Request(path: string)
    | Committed(uuid: string, v: int)
    | Forgot

  datatype Outcome = Outcome(rules: Rules, cmds: seq<Command>)

  const INITIAL := Rules(Unknown, false, 0, [], [], 0, [], 0, 0)

  predicate Loaded(load: Load) {
    load.Known? && load.name != ""
  }

  function LinkArg(connected: bool): Arg {
    Int(if connected then 1 else 0)
  }

  function PutLink(connected: bool, head: bool): Command {
    Put(LINK_PATH, LinkArg(connected), head)
  }

  // OscRelay._forward
  function Forward(cfg: Config, r: Rules, key: string, arg: Arg): Outcome {
    var address := StatusAddress(key);
    var puts := [Put(address, arg, false)];
    if !Matches(cfg, key) then Outcome(r, [])
    else if !Has(r.cache, address) && PerCue(key) then
      if r.cachedPerCue >= CACHE_CAP then Outcome(r.(cacheDropped := r.cacheDropped + 1), puts)
      else Outcome(r.(cachedPerCue := r.cachedPerCue + 1, cache := Set(r.cache, address, arg)), puts)
    else Outcome(r.(cache := Set(r.cache, address, arg)), puts)
  }

  // The pulse that a committed change of a cue's value asks for.
  function Edge(uuid: string, prev: int, v: int): seq<Command> {
    if !Playing(prev) && Playing(v) then [Request(STARTED_PREFIX + uuid)]
    else if Playing(prev) && v == 100 then [Request(ENDED_PREFIX + uuid)]
    else []
  }

  // OscRelay._commit
  function Commit(cfg: Config, r: Rules, key: string, arg: Arg, live: bool, now: int): Outcome {
    if IsCue(key) then
      var uuid := key[4..];
      var prev := Get(r.cueVals, uuid, 0);
      var v := AsInt(arg);
      var kept := if v.Some? then v.value else prev;
      var f := Forward(cfg, r.(cueVals := Set(r.cueVals, uuid, kept)), key, arg);
      var edge := if live && v.Some? && now >= r.suppressUntil then Edge(uuid, prev, v.value) else [];
      Outcome(f.rules, [Committed(uuid, kept)] + edge + f.cmds)
    else Forward(cfg, r, key, arg)
  }

  // The held frames, committed in order.
  function CommitHeld(cfg: Config, r: Rules, held: seq<Held>, now: int): Outcome {
    if held == [] then Outcome(r, [])
    else
      var o := CommitHeld(cfg, r, held[..|held| - 1], now);
      var h := held[|held| - 1];
      var c := Commit(cfg, o.rules, h.key, h.arg, false, now);
      Outcome(c.rules, o.cmds + c.cmds)
  }

  // A reset for every committed cue.
  function Resets(cues: seq<Item<string, int>>): seq<Command> {
    if cues == [] then []
    else Resets(cues[..|cues| - 1]) + [Put(CueAddress(cues[|cues| - 1].key), Int(0), false)]
  }

  // OscRelay._synth_resets
  function SynthResets(cfg: Config, r: Rules): seq<Command> {
    if Matches(cfg, "cue/") then Resets(r.cueVals) else []
  }

  predicate PerCueAddress(address: string) {
    |STATUS_PREFIX| <= |address| && PerCue(address[|STATUS_PREFIX|..])
  }

  // The cache without its per-cue entries.
  function GlobalOnly(cache: seq<Item<string, Arg>>): seq<Item<string, Arg>> {
    if cache == [] then []
    else
      var rest := GlobalOnly(cache[..|cache| - 1]);
      var last := cache[|cache| - 1];
      if PerCueAddress(last.key) then rest else rest + [last]
  }

  // OscRelay._drop_per_cue
  function DropPerCue(r: Rules): Rules {
    r.(cache := GlobalOnly(r.cache), cachedPerCue := 0, cueVals := [])
  }

  // The `load` frame.
  function OnLoad(cfg: Config, r: Rules, arg: Arg, now: int): Outcome {
    var name := Str(arg);
    var o := if name == "" then Outcome(DropPerCue(r).(held := []), SynthResets(cfg, r) + [Forgot])
             else CommitHeld(cfg, r.(held := []), r.held, now);
    var f := Forward(cfg, o.rules.(load := Known(name)), "load", arg);
    Outcome(f.rules, o.cmds + f.cmds)
  }

  // OscRelay.on_frame
  function OnFrame(cfg: Config, r: Rules, address: string, arg: Arg, now: int): Outcome {
    if !(STATUS_PREFIX <= address) then Outcome(r, [])
    else
      var key := address[|STATUS_PREFIX|..];
      if key == "load" then OnLoad(cfg, r, arg, now)
      else if PerCue(key) then
        if Loaded(r.load) then Commit(cfg, r, key, arg, true, now)
        else if |r.held| >= HOLD_CAP then Outcome(r.(heldDropped := r.heldDropped + 1), [])
        else Outcome(r.(held := r.held + [Held(key, arg)]), [])
      else Forward(cfg, r, key, arg)
  }

  // OscRelay.on_engine_connect
  function OnConnect(r: Rules, now: int): Outcome {
    Outcome(r.(connected := true, suppressUntil := now + EDGE_SUPPRESS), [PutLink(true, true)])
  }

  // OscRelay.on_engine_disconnect
  function OnDisconnect(cfg: Config, r: Rules): Outcome {
    Outcome(
      r.(connected := false, cache := [], cachedPerCue := 0, held := [], cueVals := [], load := Unknown),
      SynthResets(cfg, r) + [PutLink(false, true), Forgot])
  }

  // The cached frames a dump re-sends: with cue names known, per-cue ones of named cues only.
  function DumpPuts(cache: seq<Item<string, Arg>>, names: set<string>): seq<Command> {
    if cache == [] then []
    else
      var rest := DumpPuts(cache[..|cache| - 1], names);
      var last := cache[|cache| - 1];
      if names != {} && PerCueAddress(last.key) && CueOf(last.key[|STATUS_PREFIX|..]) !in names then rest
      else rest + [Put(last.key, last.value, false)]
  }

  // OscRelay.dump
  function Dump(r: Rules, names: set<string>): seq<Command> {
    [PutLink(r.connected, false)] + DumpPuts(r.cache, names)
  }

  // ------------------------------------------------------------ what was put

  function Puts(cmds: seq<Command>): seq<Item<string, Arg>> {
    if cmds == [] then []
    else
      var rest, c := Puts(cmds[..|cmds| - 1]), cmds[|cmds| - 1];
      if c.Put? then rest + [Item(c.address, c.arg)] else rest
  }

  // The final view of a receiver that had `m` and gets everything put by `cmds`.
  function View(m: map<string, Arg>, cmds: seq<Command>): map<string, Arg> {
    Receive(m, Puts(cmds))
  }

  lemma {:induction false} PutsConcat(a: seq<Command>, b: seq<Command>)
    ensures Puts(a + b) == Puts(a) + Puts(b)
  {
    if b == [] {
      assert a + b == a;
    } else {
      assert (a + b)[..|a + b| - 1] == a + b[..|b| - 1];
      PutsConcat(a, b[..|b| - 1]);
    }
  }

  lemma ViewConcat(m: map<string, Arg>, a: seq<Command>, b: seq<Command>)
    ensures View(m, a + b) == View(View(m, a), b)
  {
    PutsConcat(a, b);
    ReceiveConcat(m, Puts(a), Puts(b));
  }

  lemma PutsOne(c: Command)
    ensures Puts([c]) == if c.Put? then [Item(c.address, c.arg)] else []
  {
    assert [c][..0] == [];
  }

  lemma ViewOne(m: map<string, Arg>, c: Command)
    ensures View(m, [c]) == if c.Put? then m[c.address := c.arg] else m
  {
    PutsOne(c);
    if c.Put? { assert [Item(c.address, c.arg)] == [] + [Item(c.address, c.arg)]; ReceiveOne(m, [], c.address, c.arg); }
  }

  // ------------------------------------------------------------ the rule invariant

  /** `v` is the view of a receiver of everything put so far.
      Cached frames and the link state are what was last put for their addresses; a cue
      whose last put is not a reset is remembered; nothing per-cue outlives its project. */
  ghost predicate Consistent(cfg: Config, r: Rules, v: map<string, Arg>) {
    Agrees(cfg, r, v) && Scoped(r)
  }

  ghost predicate Agrees(cfg: Config, r: Rules, v: map<string, Arg>) {
    CacheMatches(r.cache, v) && LinkMatches(r, v) && CuesRemembered(cfg, r.cueVals, v) && Filtered(cfg, v)
  }

  // Nothing is put but the link state and configured keys.
  ghost predicate Filtered(cfg: Config, v: map<string, Arg>) {
    forall a :: a in v ==> a == LINK_PATH || (STATUS_PREFIX <= a && Matches(cfg, a[|STATUS_PREFIX|..]))
  }

  ghost predicate CacheMatches(cache: seq<Item<string, Arg>>, v: map<string, Arg>) {
    && Distinct(cache)
    && forall i :: 0 <= i < |cache| ==> CachedAsPut(cache[i], v)
  }

  ghost predicate CachedAsPut(x: Item<string, Arg>, v: map<string, Arg>) {
    STATUS_PREFIX <= x.key && x.key in v && v[x.key] == x.value
  }

  ghost predicate LinkMatches(r: Rules, v: map<string, Arg>) {
    LINK_PATH in v && v[LINK_PATH] == LinkArg(r.connected)
  }

  ghost predicate CuesRemembered(cfg: Config, cues: seq<Item<string, int>>, v: map<string, Arg>) {
    && Distinct(cues)
    && (Matches(cfg, "cue/") ==> forall u :: Unreset(u, v) ==> Has(cues, u))
  }

  // The last put for the cue is not a reset.
  ghost predicate Unreset(u: string, v: map<string, Arg>) {
    CueAddress(u) in v && v[CueAddress(u)] != Int(0)
  }

  ghost predicate Scoped(r: Rules) {
    && (if Loaded(r.load) then r.held == []
        else r.cueVals == [] && r.cachedPerCue == 0
             && forall i :: 0 <= i < |r.cache| ==> !PerCueAddress(r.cache[i].key))
    && |r.held| <= HOLD_CAP && r.cachedPerCue <= CACHE_CAP
    && forall i :: 0 <= i < |r.held| ==> PerCue(r.held[i].key)
  }

  // ------------------------------------------------------------ each rule keeps it

  lemma ForwardView(cfg: Config, r: Rules, key: string, arg: Arg, v: map<string, Arg>)
    ensures View(v, Forward(cfg, r, key, arg).cmds)
            == if Matches(cfg, key) then v[StatusAddress(key) := arg] else v
  {
    ViewOne(v, Put(StatusAddress(key), arg, false));
  }

  lemma CacheAfterPut(cache: seq<Item<string, Arg>>, v: map<string, Arg>, address: string, arg: Arg)
    requires CacheMatches(cache, v) && STATUS_PREFIX <= address
    ensures CacheMatches(Set(cache, address, arg), v[address := arg])
    ensures !Has(cache, address) ==> CacheMatches(cache, v[address := arg])
  {
    SetDistinct(cache, address, arg);
    var c := Set(cache, address, arg);
    forall i | 0 <= i < |c| ensures CachedAsPut(c[i], v[address := arg]) {
      if c[i].key != address { assert i < |cache| && CachedAsPut(cache[i], v); }
    }
    if !Has(cache, address) {
      forall i | 0 <= i < |cache| ensures CachedAsPut(cache[i], v[address := arg]) {
        assert cache[i].key != address && CachedAsPut(cache[i], v);
      }
    }
  }

  lemma CuesAfterPut(cfg: Config, cues: seq<Item<string, int>>, v: map<string, Arg>, key: string, arg: Arg)
    requires CuesRemembered(cfg, cues, v)
    requires IsCue(key) ==> Has(cues, key[4..])
    ensures CuesRemembered(cfg, cues, v[StatusAddress(key) := arg])
  {
    forall u | Unreset(u, v[StatusAddress(key) := arg]) && !Unreset(u, v) ensures Has(cues, u) {
      StatusAddressFacts(key);
      StatusAddressFacts(CueKey(u));
      CueAddressFacts(u);
      assert key == CueKey(u);
    }
  }

  lemma FilteredAfterPut(cfg: Config, v: map<string, Arg>, key: string, arg: Arg)
    requires Filtered(cfg, v) && Matches(cfg, key)
    ensures Filtered(cfg, v[StatusAddress(key) := arg])
  {
    StatusAddressFacts(key);
  }

  lemma ForwardAgrees(cfg: Config, r: Rules, key: string, arg: Arg, v: map<string, Arg>)
    requires Agrees(cfg, r, v)
    requires IsCue(key) ==> Has(r.cueVals, key[4..])
    ensures var o := Forward(cfg, r, key, arg); Agrees(cfg, o.rules, View(v, o.cmds))
  {
    ForwardView(cfg, r, key, arg, v);
    if Matches(cfg, key) {
      StatusAddressFacts(key);
      CacheAfterPut(r.cache, v, StatusAddress(key), arg);
      CuesAfterPut(cfg, r.cueVals, v, key, arg);
      FilteredAfterPut(cfg, v, key, arg);
    }
  }

  lemma CommitView(cfg: Config, r: Rules, key: string, arg: Arg, live: bool, now: int, v: map<string, Arg>)
    ensures View(v, Commit(cfg, r, key, arg, live, now).cmds)
            == if Matches(cfg, key) then v[StatusAddress(key) := arg] else v
  {
    ForwardView(cfg, r, key, arg, v);
    if IsCue(key) {
      var o := Commit(cfg, r, key, arg, live, now);
      var f := Forward(cfg, r.(cueVals := Set(r.cueVals, key[4..], 0)), key, arg).cmds;
      var pre := o.cmds[..|o.cmds| - |f|];
      assert o.cmds == pre + f;
      ViewConcat(v, pre, f);
      assert pre == [pre[0]] + pre[1..];
      ViewConcat(v, [pre[0]], pre[1..]);
      ViewOne(v, pre[0]);
      if |pre| == 2 { assert pre[1..] == [pre[1]]; ViewOne(v, pre[1]); }
    }
  }

  lemma CommitAgrees(cfg: Config, r: Rules, key: string, arg: Arg, live: bool, now: int, v: map<string, Arg>)
    requires Agrees(cfg, r, v)
    ensures var o := Commit(cfg, r, key, arg, live, now); Agrees(cfg, o.rules, View(v, o.cmds))
  {
    if IsCue(key) {
      var v1 := AsInt(arg);
      var kept := if v1.Some? then v1.value else Get(r.cueVals, key[4..], 0);
      var r1 := r.(cueVals := Set(r.cueVals, key[4..], kept));
      SetDistinct(r.cueVals, key[4..], kept);
      forall u ensures Has(r1.cueVals, u) <==> Has(r.cueVals, u) || u == key[4..] {
        SetHas(r.cueVals, key[4..], kept, u);
      }
      ForwardAgrees(cfg, r1, key, arg, v);
      ForwardView(cfg, r1, key, arg, v);
      CommitView(cfg, r, key, arg, live, now, v);
    } else {
      ForwardAgrees(cfg, r, key, arg, v);
    }
  }

  // What committing never touches.
  ghost predicate SameScope(r: Rules, r': Rules) {
    && r'.load == r.load && r'.held == r.held && r'.connected == r.connected
    && r'.suppressUntil == r.suppressUntil && r'.heldDropped == r.heldDropped
    && (r.cachedPerCue <= CACHE_CAP ==> r'.cachedPerCue <= CACHE_CAP)
  }

  lemma {:induction false} CommitHeldScope(cfg: Config, r: Rules, held: seq<Held>, now: int)
    ensures SameScope(r, CommitHeld(cfg, r, held, now).rules)
  {
    if held != [] { CommitHeldScope(cfg, r, held[..|held| - 1], now); }
  }

  lemma {:induction false} CommitHeldAgrees(cfg: Config, r: Rules, held: seq<Held>, now: int, v: map<string, Arg>)
    requires Agrees(cfg, r, v)
    ensures var o := CommitHeld(cfg, r, held, now); Agrees(cfg, o.rules, View(v, o.cmds))
  {
    hide Agrees, Commit;
    if held == [] {
      assert Puts([]) == [];
    } else {
      var o := CommitHeld(cfg, r, held[..|held| - 1], now);
      var h := held[|held| - 1];
      CommitHeldAgrees(cfg, r, held[..|held| - 1], now, v);
      CommitAgrees(cfg, o.rules, h.key, h.arg, false, now, View(v, o.cmds));
      ViewConcat(v, o.cmds, Commit(cfg, o.rules, h.key, h.arg, false, now).cmds);
    }
  }

  // ------------------------------------------------------------ resets

  lemma {:induction false} ResetsView(cues: seq<Item<string, int>>, v: map<string, Arg>)
    ensures forall u :: Unreset(u, View(v, Resets(cues))) ==> Unreset(u, v) && !Has(cues, u)
  {
    if cues != [] {
      var s, u := cues[..|cues| - 1], cues[|cues| - 1].key;
      ResetsView(s, v);
      var w1 := View(v, Resets(s));
      var put := Put(CueAddress(u), Int(0), false);
      ViewConcat(v, Resets(s), [put]);
      ViewOne(w1, put);
      StatusAddressFacts(CueKey(u));
      forall x | Unreset(x, w1[CueAddress(u) := Int(0)]) ensures Unreset(x, v) && !Has(cues, x) {
        assert x != u && Unreset(x, w1);
        HasLast(cues, x);
      }
    }
  }

  // After the synthesised resets and with the cue values forgotten, no cue is left unreset.
  lemma ResetAgrees(cfg: Config, r: Rules, v: map<string, Arg>)
    requires Agrees(cfg, r, v)
    ensures var w := View(v, SynthResets(cfg, r));
            && LINK_PATH in w && w[LINK_PATH] == v[LINK_PATH]
            && CuesRemembered(cfg, [], w) && Filtered(cfg, w)
            && forall a :: a in v && !PerCueAddress(a) ==> a in w && w[a] == v[a]
  {
    var w := View(v, SynthResets(cfg, r));
    if Matches(cfg, "cue/") {
      ResetsView(r.cueVals, v);
      ResetsOnlyCues(r.cueVals, v);
      ResetsFiltered(cfg, r.cueVals, v);
      LinkIsNotPerCue();
      hide Resets, View, Filtered, PerCueAddress;
    } else {
      assert Puts([]) == [];
    }
  }

  lemma LinkIsNotPerCue()
    ensures !PerCueAddress(LINK_PATH)
  {
    assert LINK_PATH[|STATUS_PREFIX|..][0] == 'n';
  }

  lemma {:induction false} ResetsOnlyCues(cues: seq<Item<string, int>>, v: map<string, Arg>)
    ensures forall a :: a in v && !PerCueAddress(a) ==> a in View(v, Resets(cues)) && View(v, Resets(cues))[a] == v[a]
  {
    if cues != [] {
      var s, u := cues[..|cues| - 1], cues[|cues| - 1].key;
      ResetsOnlyCues(s, v);
      var put := Put(CueAddress(u), Int(0), false);
      ViewConcat(v, Resets(s), [put]);
      ViewOne(View(v, Resets(s)), put);
      StatusAddressFacts(CueKey(u));
      CueAddressFacts(u);
      assert PerCueAddress(CueAddress(u));
    }
  }

  lemma {:induction false} ResetsFiltered(cfg: Config, cues: seq<Item<string, int>>, v: map<string, Arg>)
    requires Filtered(cfg, v) && Matches(cfg, "cue/")
    ensures Filtered(cfg, View(v, Resets(cues)))
  {
    if cues == [] {
      assert Puts([]) == [];
    } else {
      var s, u := cues[..|cues| - 1], cues[|cues| - 1].key;
      ResetsFiltered(cfg, s, v);
      var put := Put(CueAddress(u), Int(0), false);
      ViewConcat(v, Resets(s), [put]);
      ViewOne(View(v, Resets(s)), put);
      CueConfigured(cfg, u);
      FilteredAfterPut(cfg, View(v, Resets(s)), CueKey(u), Int(0));
    }
  }

  lemma {:induction false} GlobalOnlyMember(cache: seq<Item<string, Arg>>, x: Item<string, Arg>)
    ensures x in GlobalOnly(cache) <==> x in cache && !PerCueAddress(x.key)
  {
    if cache != [] {
      assert cache == cache[..|cache| - 1] + [cache[|cache| - 1]];
      GlobalOnlyMember(cache[..|cache| - 1], x);
    }
  }

  lemma {:induction false} GlobalOnlyDistinct(cache: seq<Item<string, Arg>>)
    requires Distinct(cache)
    ensures Distinct(GlobalOnly(cache))
  {
    if cache != [] {
      var s, last := cache[..|cache| - 1], cache[|cache| - 1];
      DistinctLast(cache);
      GlobalOnlyDistinct(s);
      var g := GlobalOnly(s);
      forall i | 0 <= i < |g| ensures g[i].key != last.key {
        GlobalOnlyMember(s, g[i]);
        HasElement(s, g[i]);
      }
      assert (g + [last])[..|g|] == g;
      DistinctLast(g + [last]);
    }
  }

  lemma GlobalOnlyMatches(cache: seq<Item<string, Arg>>, v: map<string, Arg>, w: map<string, Arg>)
    requires CacheMatches(cache, v)
    requires forall a :: a in v && !PerCueAddress(a) ==> a in w && w[a] == v[a]
    ensures CacheMatches(GlobalOnly(cache), w)
    ensures forall i :: 0 <= i < |GlobalOnly(cache)| ==> !PerCueAddress(GlobalOnly(cache)[i].key)
  {
    var g := GlobalOnly(cache);
    GlobalOnlyDistinct(cache);
    forall i | 0 <= i < |g| ensures CachedAsPut(g[i], w) && !PerCueAddress(g[i].key) {
      GlobalOnlyMember(cache, g[i]);
      var j :| 0 <= j < |cache| && cache[j] == g[i];
      assert CachedAsPut(cache[j], v);
    }
  }

  // ------------------------------------------------------------ each event keeps it

  lemma OnLoadConsistent(cfg: Config, r: Rules, arg: Arg, now: int, v: map<string, Arg>)
    requires Consistent(cfg, r, v)
    ensures var o := OnLoad(cfg, r, arg, now); Consistent(cfg, o.rules, View(v, o.cmds))
  {
    var name := Str(arg);
    LoadIsNotPerCue();
    if name == "" { OnUnloadConsistent(cfg, r, arg, now, v); } else { OnProjectConsistent(cfg, r, arg, now, v); }
  }

  lemma OnUnloadConsistent(cfg: Config, r: Rules, arg: Arg, now: int, v: map<string, Arg>)
    requires Consistent(cfg, r, v) && Str(arg) == "" && !PerCue("load")
    ensures var o := OnLoad(cfg, r, arg, now); Consistent(cfg, o.rules, View(v, o.cmds))
  {
    var r1, resets := DropPerCue(r).(held := []), SynthResets(cfg, r);
    var w := View(v, resets);
    ResetAgrees(cfg, r, v);
    ViewConcat(v, resets, [Forgot]);
    ViewOne(w, Forgot);
    GlobalOnlyMatches(r.cache, v, w);
    assert Agrees(cfg, r1.(load := Known("")), w);
    var f := Forward(cfg, r1.(load := Known("")), "load", arg);
    assert !IsCue("load");
    ForwardAgrees(cfg, r1.(load := Known("")), "load", arg, w);
    ViewConcat(v, resets + [Forgot], f.cmds);
    ForwardScoped(cfg, r1.(load := Known("")), "load", arg);
  }

  lemma OnProjectConsistent(cfg: Config, r: Rules, arg: Arg, now: int, v: map<string, Arg>)
    requires Consistent(cfg, r, v) && Str(arg) != "" && !PerCue("load")
    ensures var o := OnLoad(cfg, r, arg, now); Consistent(cfg, o.rules, View(v, o.cmds))
  {
    var o := CommitHeld(cfg, r.(held := []), r.held, now);
    CommitHeldAgrees(cfg, r.(held := []), r.held, now, v);
    CommitHeldScope(cfg, r.(held := []), r.held, now);
    var r2 := o.rules.(load := Known(Str(arg)));
    assert !IsCue("load");
    ForwardAgrees(cfg, r2, "load", arg, View(v, o.cmds));
    ViewConcat(v, o.cmds, Forward(cfg, r2, "load", arg).cmds);
  }

  // Forwarding what is not per-cue, or while a project is loaded, stays in scope.
  lemma ForwardScoped(cfg: Config, r: Rules, key: string, arg: Arg)
    requires Scoped(r) && (Loaded(r.load) || !PerCue(key))
    ensures Scoped(Forward(cfg, r, key, arg).rules)
  {
    var r' := Forward(cfg, r, key, arg).rules;
    StatusAddressFacts(key);
    if !Loaded(r.load) {
      forall i | 0 <= i < |r'.cache| ensures !PerCueAddress(r'.cache[i].key) {
        if i < |r.cache| && r'.cache[i] != r.cache[i] { assert r'.cache[i].key == StatusAddress(key); }
      }
    }
  }

  lemma OnFrameConsistent(cfg: Config, r: Rules, address: string, arg: Arg, now: int, v: map<string, Arg>)
    requires Consistent(cfg, r, v)
    ensures var o := OnFrame(cfg, r, address, arg, now); Consistent(cfg, o.rules, View(v, o.cmds))
  {
    assert Puts([]) == [];
    hide Agrees, Forward, Commit, OnLoad;
    if STATUS_PREFIX <= address {
      var key := address[|STATUS_PREFIX|..];
      if key == "load" {
        OnLoadConsistent(cfg, r, arg, now, v);
      } else if PerCue(key) {
        if Loaded(r.load) { LiveCommitConsistent(cfg, r, key, arg, now, v); }
      } else {
        ForwardAgrees(cfg, r, key, arg, v);
        ForwardScoped(cfg, r, key, arg);
      }
    }
  }

  lemma LiveCommitConsistent(cfg: Config, r: Rules, key: string, arg: Arg, now: int, v: map<string, Arg>)
    requires Consistent(cfg, r, v) && Loaded(r.load)
    ensures var o := Commit(cfg, r, key, arg, true, now); Consistent(cfg, o.rules, View(v, o.cmds))
  {
    hide Agrees;
    CommitAgrees(cfg, r, key, arg, true, now, v);
  }

  lemma PutLinkConsistent(cfg: Config, r: Rules, v: map<string, Arg>, connected: bool, head: bool)
    requires CacheMatches(r.cache, v) && CuesRemembered(cfg, r.cueVals, v) && Filtered(cfg, v)
    ensures var w := View(v, [PutLink(connected, head)]);
            && CacheMatches(r.cache, w) && CuesRemembered(cfg, r.cueVals, w) && Filtered(cfg, w)
            && LINK_PATH in w && w[LINK_PATH] == LinkArg(connected)
  {
    var w := View(v, [PutLink(connected, head)]);
    ViewOne(v, PutLink(connected, head));
    assert LINK_PATH[1] == 'c' && STATUS_PREFIX[1] == 'e';
    forall i | 0 <= i < |r.cache| ensures CachedAsPut(r.cache[i], w) {
      assert CachedAsPut(r.cache[i], v);
      assert r.cache[i].key[1] == 'e';
    }
    forall u | Unreset(u, w) ensures Unreset(u, v) {
      StatusAddressFacts(CueKey(u));
    }
  }

  lemma OnConnectConsistent(cfg: Config, r: Rules, now: int, v: map<string, Arg>)
    requires Consistent(cfg, r, v)
    ensures var o := OnConnect(r, now); Consistent(cfg, o.rules, View(v, o.cmds))
  {
    PutLinkConsistent(cfg, r, v, true, true);
  }

  lemma OnDisconnectConsistent(cfg: Config, r: Rules, v: map<string, Arg>)
    requires Consistent(cfg, r, v)
    ensures var o := OnDisconnect(cfg, r); Consistent(cfg, o.rules, View(v, o.cmds))
  {
    var o, resets := OnDisconnect(cfg, r), SynthResets(cfg, r);
    var w := View(v, resets);
    ResetAgrees(cfg, r, v);
    ViewConcat(v, resets, [PutLink(false, true), Forgot]);
    assert [PutLink(false, true), Forgot] == [PutLink(false, true)] + [Forgot];
    ViewConcat(w, [PutLink(false, true)], [Forgot]);
    ViewOne(View(w, [PutLink(false, true)]), Forgot);
    PutLinkConsistent(cfg, o.rules, w, false, true);
  }

  // ------------------------------------------------------------ dumps

  lemma {:induction false} DumpPutsView(cache: seq<Item<string, Arg>>, names: set<string>, v: map<string, Arg>)
    requires forall i :: 0 <= i < |cache| ==> CachedAsPut(cache[i], v)
    ensures View(v, DumpPuts(cache, names)) == v
  {
    if cache == [] {
      assert Puts([]) == [];
    } else {
      var s, last := cache[..|cache| - 1], cache[|cache| - 1];
      assert forall i :: 0 <= i < |s| ==> s[i] == cache[i];
      DumpPutsView(s, names, v);
      var put := Put(last.key, last.value, false);
      ViewConcat(v, DumpPuts(s, names), [put]);
      ViewOne(v, put);
      assert CachedAsPut(last, v);
    }
  }

  /** A dump or a heartbeat re-queues only what was already put last: the receiver's final
      view is unchanged, whatever is still queued and whichever cues the engine names. */
  lemma DumpKeepsView(cfg: Config, r: Rules, names: set<string>, v: map<string, Arg>)
    requires Consistent(cfg, r, v)
    ensures View(v, Dump(r, names)) == v
    ensures View(v, [PutLink(r.connected, false)]) == v
  {
    ViewOne(v, PutLink(r.connected, false));
    assert View(v, [PutLink(r.connected, false)]) == v;
    ViewConcat(v, [PutLink(r.connected, false)], DumpPuts(r.cache, names));
    DumpPutsView(r.cache, names, v);
  }
}
