/** Edge pulses over whole histories: a cue's start and end requests alternate with its
    committed values. */
module CueEdges {
  import opened OrderedDict
  import opened Osc
  import opened RelayRules

  // The cue's last committed value, 0 before any and once forgotten.
  function LastCommitted(cmds: seq<Command>, u: string): int {
    if cmds == [] then 0
    else
      match cmds[|cmds| - 1]
      case Committed(uuid, v) => if uuid == u then v else LastCommitted(cmds[..|cmds| - 1], u)
      case Forgot => 0
      case Put(_, _, _) => LastCommitted(cmds[..|cmds| - 1], u)
      case Request(_) => LastCommitted(cmds[..|cmds| - 1], u)
  }

  // The pulse requested at j follows the commit that asks for it.
  ghost predicate EdgeAt(cmds: seq<Command>, j: nat)
    requires j < |cmds|
  {
    && 0 < j && cmds[j - 1].Committed?
    && var u, v := cmds[j - 1].uuid, cmds[j - 1].v;
       var prev := LastCommitted(cmds[..j - 1], u);
       || (cmds[j] == Request(STARTED_PREFIX + u) && !Playing(prev) && Playing(v))
       || (cmds[j] == Request(ENDED_PREFIX + u) && Playing(prev) && v == 100)
  }

  ghost predicate AllEdges(cmds: seq<Command>) {
    forall j :: 0 <= j < |cmds| && cmds[j].Request? ==> EdgeAt(cmds, j)
  }

  ghost predicate Recorded(cues: seq<Item<string, int>>, cmds: seq<Command>) {
    Distinct(cues) && forall u :: Get(cues, u, 0) == LastCommitted(cmds, u)
  }

  ghost predicate OnlyPuts(cmds: seq<Command>) {
    forall i :: 0 <= i < |cmds| ==> cmds[i].Put?
  }

  ghost predicate NoPulse(cmds: seq<Command>) {
    forall i :: 0 <= i < |cmds| ==> !cmds[i].Request?
  }

  // ------------------------------------------------------------ growing histories

  lemma AllEdgesNext(cmds: seq<Command>, c: Command)
    requires AllEdges(cmds)
    requires c.Request? ==> EdgeAt(cmds + [c], |cmds|)
    ensures AllEdges(cmds + [c])
  {
    var next := cmds + [c];
    forall j | 0 <= j < |next| && next[j].Request? ensures EdgeAt(next, j) {
      if j < |cmds| {
        assert EdgeAt(cmds, j);
        assert next[..j - 1] == cmds[..j - 1];
      }
    }
  }

  lemma LastCommittedNext(cmds: seq<Command>, c: Command, u: string)
    ensures LastCommitted(cmds + [c], u) ==
            match c
            case Committed(uuid, v) => if uuid == u then v else LastCommitted(cmds, u)
            case Forgot => 0
            case Put(_, _, _) => LastCommitted(cmds, u)
            case Request(_) => LastCommitted(cmds, u)
  {
    assert (cmds + [c])[..|cmds|] == cmds;
  }

  lemma {:induction false} PutsKeepHistory(cmds: seq<Command>, puts: seq<Command>, cues: seq<Item<string, int>>)
    requires Recorded(cues, cmds) && AllEdges(cmds) && OnlyPuts(puts)
    ensures Recorded(cues, cmds + puts) && AllEdges(cmds + puts)
  {
    if puts == [] {
      assert cmds + puts == cmds;
    } else {
      var n := |puts| - 1;
      PutsKeepHistory(cmds, puts[..n], cues);
      assert cmds + puts == (cmds + puts[..n]) + [puts[n]];
      AllEdgesNext(cmds + puts[..n], puts[n]);
      forall u ensures LastCommitted(cmds + puts, u) == LastCommitted(cmds + puts[..n], u) {
        LastCommittedNext(cmds + puts[..n], puts[n], u);
      }
    }
  }

  lemma ForgetHistory(cmds: seq<Command>)
    requires AllEdges(cmds)
    ensures Recorded([], cmds + [Forgot]) && AllEdges(cmds + [Forgot])
  {
    AllEdgesNext(cmds, Forgot);
    forall u ensures LastCommitted(cmds + [Forgot], u) == 0 {
      LastCommittedNext(cmds, Forgot, u);
    }
  }

  lemma CommitHistory(cfg: Config, r: Rules, key: string, arg: Arg, live: bool, now: int, cmds: seq<Command>)
    requires Recorded(r.cueVals, cmds) && AllEdges(cmds)
    ensures var o := Commit(cfg, r, key, arg, live, now);
            Recorded(o.rules.cueVals, cmds + o.cmds) && AllEdges(cmds + o.cmds)
  {
    var o := Commit(cfg, r, key, arg, live, now);
    if IsCue(key) {
      var uuid := key[4..];
      var prev := Get(r.cueVals, uuid, 0);
      var v := AsInt(arg);
      var kept := if v.Some? then v.value else prev;
      var cues := Set(r.cueVals, uuid, kept);
      var f := Forward(cfg, r.(cueVals := cues), key, arg);
      var edge := if live && v.Some? && now >= r.suppressUntil then Edge(uuid, prev, v.value) else [];
      var h1 := cmds + [Committed(uuid, kept)];
      AllEdgesNext(cmds, Committed(uuid, kept));
      RecordCommit(r.cueVals, cmds, uuid, kept);
      if edge != [] {
        assert (h1 + edge)[..|cmds|] == cmds;
        AllEdgesNext(h1, edge[0]);
        assert edge == [edge[0]];
        forall u ensures LastCommitted(h1 + edge, u) == LastCommitted(h1, u) { LastCommittedNext(h1, edge[0], u); }
      } else {
        assert h1 + edge == h1;
      }
      PutsKeepHistory(h1 + edge, f.cmds, cues);
      assert cmds + o.cmds == h1 + edge + f.cmds;
    } else {
      PutsKeepHistory(cmds, o.cmds, r.cueVals);
    }
  }

  lemma RecordCommit(cues: seq<Item<string, int>>, cmds: seq<Command>, uuid: string, v: int)
    requires Recorded(cues, cmds)
    ensures Recorded(Set(cues, uuid, v), cmds + [Committed(uuid, v)])
  {
    SetDistinct(cues, uuid, v);
    forall u ensures Get(Set(cues, uuid, v), u, 0) == LastCommitted(cmds + [Committed(uuid, v)], u) {
      SetGet(cues, uuid, v, u, 0);
      LastCommittedNext(cmds, Committed(uuid, v), u);
    }
  }

  lemma CommitRequestsNothing(cfg: Config, r: Rules, h: Held, now: int)
    ensures NoPulse(Commit(cfg, r, h.key, h.arg, false, now).cmds)
  {}

  lemma {:induction false} CommitHeldHistory(cfg: Config, r: Rules, held: seq<Held>, now: int, cmds: seq<Command>)
    requires Recorded(r.cueVals, cmds) && AllEdges(cmds)
    ensures var o := CommitHeld(cfg, r, held, now);
            Recorded(o.rules.cueVals, cmds + o.cmds) && AllEdges(cmds + o.cmds) && NoPulse(o.cmds)
  {
    var o := CommitHeld(cfg, r, held, now);
    if held == [] {
      assert cmds + o.cmds == cmds;
    } else {
      var p, h := CommitHeld(cfg, r, held[..|held| - 1], now), held[|held| - 1];
      CommitRequestsNothing(cfg, p.rules, h, now);
      hide Recorded, AllEdges, Commit;
      CommitHeldHistory(cfg, r, held[..|held| - 1], now, cmds);
      CommitHistory(cfg, p.rules, h.key, h.arg, false, now, cmds + p.cmds);
      assert cmds + o.cmds == cmds + p.cmds + Commit(cfg, p.rules, h.key, h.arg, false, now).cmds;
    }
  }

  lemma {:induction false} ResetsArePuts(cues: seq<Item<string, int>>)
    ensures OnlyPuts(Resets(cues))
  {
    if cues != [] { ResetsArePuts(cues[..|cues| - 1]); }
  }

  lemma {:induction false} DumpArePuts(cache: seq<Item<string, Arg>>, names: set<string>)
    ensures OnlyPuts(DumpPuts(cache, names))
  {
    if cache != [] { DumpArePuts(cache[..|cache| - 1], names); }
  }

  lemma OnLoadHistory(cfg: Config, r: Rules, arg: Arg, now: int, cmds: seq<Command>)
    requires Recorded(r.cueVals, cmds) && AllEdges(cmds)
    ensures var o := OnLoad(cfg, r, arg, now);
            Recorded(o.rules.cueVals, cmds + o.cmds) && AllEdges(cmds + o.cmds) && NoPulse(o.cmds)
  {
    var name := Str(arg);
    var o := if name == "" then Outcome(DropPerCue(r).(held := []), SynthResets(cfg, r) + [Forgot])
             else CommitHeld(cfg, r.(held := []), r.held, now);
    var f := Forward(cfg, o.rules.(load := Known(name)), "load", arg);
    hide Recorded, AllEdges, CommitHeld, GlobalOnly, Set, Has, Matches;
    if name == "" {
      ResetsArePuts(r.cueVals);
      PutsKeepHistory(cmds, SynthResets(cfg, r), r.cueVals);
      ForgetHistory(cmds + SynthResets(cfg, r));
      assert cmds + o.cmds == cmds + SynthResets(cfg, r) + [Forgot];
    } else {
      CommitHeldHistory(cfg, r.(held := []), r.held, now, cmds);
    }
    PutsKeepHistory(cmds + o.cmds, f.cmds, o.rules.cueVals);
    assert cmds + (o.cmds + f.cmds) == cmds + o.cmds + f.cmds;
  }

  lemma OnFrameHistory(cfg: Config, r: Rules, address: string, arg: Arg, now: int, cmds: seq<Command>)
    requires Recorded(r.cueVals, cmds) && AllEdges(cmds)
    ensures var o := OnFrame(cfg, r, address, arg, now);
            Recorded(o.rules.cueVals, cmds + o.cmds) && AllEdges(cmds + o.cmds)
  {
    assert cmds + [] == cmds;
    if STATUS_PREFIX <= address {
      var key := address[|STATUS_PREFIX|..];
      if key == "load" {
        OnLoadHistory(cfg, r, arg, now, cmds);
      } else if PerCue(key) {
        if Loaded(r.load) { CommitHistory(cfg, r, key, arg, true, now, cmds); }
      } else {
        PutsKeepHistory(cmds, Forward(cfg, r, key, arg).cmds, r.cueVals);
      }
    }
  }

  lemma OnDisconnectHistory(cfg: Config, r: Rules, cmds: seq<Command>)
    requires Recorded(r.cueVals, cmds) && AllEdges(cmds)
    ensures var o := OnDisconnect(cfg, r);
            Recorded(o.rules.cueVals, cmds + o.cmds) && AllEdges(cmds + o.cmds)
  {
    var puts := SynthResets(cfg, r) + [PutLink(false, true)];
    ResetsArePuts(r.cueVals);
    PutsKeepHistory(cmds, puts, r.cueVals);
    ForgetHistory(cmds + puts);
    assert cmds + OnDisconnect(cfg, r).cmds == cmds + puts + [Forgot];
  }

  // ------------------------------------------------------------ alternation

  // Where the last committed value comes from.
  lemma {:induction false} LastCommittedFrom(cmds: seq<Command>, u: string) returns (k: int)
    ensures -1 <= k < |cmds|
    ensures k == -1 ==> LastCommitted(cmds, u) == 0
    ensures 0 <= k ==> cmds[k] == Committed(u, LastCommitted(cmds, u))
                       || (cmds[k] == Forgot && LastCommitted(cmds, u) == 0)
    ensures forall i :: k < i < |cmds| ==> cmds[i] != Forgot && !(cmds[i].Committed? && cmds[i].uuid == u)
  {
    if cmds == [] { return -1; }
    var c := cmds[|cmds| - 1];
    if c.Forgot? || (c.Committed? && c.uuid == u) { return |cmds| - 1; }
    k := LastCommittedFrom(cmds[..|cmds| - 1], u);
    assert forall i :: 0 <= i < |cmds| - 1 ==> cmds[..|cmds| - 1][i] == cmds[i];
  }

  /** Between two end requests for a cue, the cue was committed as playing. */
  lemma EndsAlternate(cmds: seq<Command>, u: string, i: nat, j: nat) returns (k: nat)
    requires AllEdges(cmds) && i < j < |cmds|
    requires cmds[i] == cmds[j] == Request(ENDED_PREFIX + u)
    ensures i < k < j && cmds[k].Committed? && cmds[k].uuid == u && Playing(cmds[k].v)
  {
    assert EdgeAt(cmds, i) && EdgeAt(cmds, j);
    PulsePaths(cmds[i - 1].uuid, u);
    PulsePaths(cmds[j - 1].uuid, u);
    var k' := LastCommittedFrom(cmds[..j - 1], u);
    assert cmds[..j - 1][i - 1] == cmds[i - 1];
    assert i < j - 1;
    k := k';
  }

  /** Between two start requests for a cue, the cue was committed as not playing, or the
      project was unloaded or the link dropped. */
  lemma StartsAlternate(cmds: seq<Command>, u: string, i: nat, j: nat) returns (k: nat)
    requires AllEdges(cmds) && i < j < |cmds|
    requires cmds[i] == cmds[j] == Request(STARTED_PREFIX + u)
    ensures i < k < j
    ensures cmds[k] == Forgot || (cmds[k].Committed? && cmds[k].uuid == u && !Playing(cmds[k].v))
  {
    assert EdgeAt(cmds, i) && EdgeAt(cmds, j);
    PulsePaths(cmds[i - 1].uuid, u);
    PulsePaths(cmds[j - 1].uuid, u);
    PulsePaths(u, cmds[i - 1].uuid);
    PulsePaths(u, cmds[j - 1].uuid);
    var k' := LastCommittedFrom(cmds[..j - 1], u);
    assert cmds[..j - 1][i - 1] == cmds[i - 1];
    assert i < j - 1;
    k := k';
  }
}
