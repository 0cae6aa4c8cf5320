/** The shutdown request: its guard, the sequence of effects, and the fail-safe that the
    controller powers itself off only behind an armed mains-cut timer. */
module Shutdown {
  import opened OrderedDict
  import opened EngineState
  import opened Reachability
  import opened Shelly

  datatype Phase = Idle | Checking | Polling | ArmingShelly | PoweroffIssued | Failed | Done

  datatype Problem = NoProblem | StateUnknown | ShowRunning | ShellyProblem | OtherProblem

  datatype Config = Config(
    refuseIfRunning: bool,
    maxWait: int,
    safetyTimer: int,
    dryRun: bool,
    displaysOff: bool
  )

  const POLL_INTERVAL := 2_000_000
  const CONFIRM_FAILURES := 3

  // What a run meets. `nodes`: the slaves' names, if the map could be read; `fanoutRaises`: a
  // step before the poll raised; status, timer: how each attempt to reach the Shelly would go;
  // commandFound: the local poweroff command exists.
  datatype Env = Env(
    nodes: Option<seq<string>>,
    fanoutRaises: bool,
    alive: Probe,
    begin: Readings,
    end: Readings,
    status: nat -> Exchange<Json>,
    timer: nat -> Exchange<Json>,
    commandFound: bool
  )

  datatype Effect =
    | NodesOff(hosts: seq<string>, dryRun: bool)
    | OpsAborted
    | DisplaysOff
    | Polled(result: PollResult, rounds: nat)
    | RelayRead(relay: Relay)
    | TimerArmed(seconds: int)
    | SelfOff

  datatype Outcome = Completed | ShellyError | OtherError

  // What an answer of 200, 502 or 500 stands for.
  function OutcomeOf(code: int): Outcome {
    if code == 200 then Completed else if code == 502 then ShellyError else OtherError
  }

  // ------------------------------------------------------------ what the run must keep

  // The relay answered, within four attempts, that it is not open.
  ghost predicate RelayNotOpen(env: Env) {
    Reads(Attempts(env.status), NotOpen)
  }

  // Each host has failed three probes in a row, or the poll lasted the whole wait.
  ghost predicate NodesSettled(cfg: Config, env: Env, rounds: nat, hosts: seq<string>) {
    || (forall h :: h in hosts ==> DownAfter(env.alive, h, rounds, 3))
    || (rounds > 0 && env.end(rounds - 1) - env.begin(0) >= cfg.maxWait)
  }

  // What a run does before it turns to the Shelly.
  ghost function Prepared(cfg: Config, hosts: seq<string>, result: PollResult, rounds: nat): seq<Effect> {
    [NodesOff(hosts, cfg.dryRun), OpsAborted]
    + (if cfg.displaysOff then [DisplaysOff] else [])
    + (if hosts != [] then [Polled(result, rounds)] else [])
  }

  // The poll's result, as far as the run relies on it.
  ghost predicate PollKept(cfg: Config, env: Env, hosts: seq<string>, result: PollResult, rounds: nat) {
    && NodesSettled(cfg, env, rounds, hosts)
    && rounds <= RoundsAllowed(cfg.maxWait, 2_000_000)
    && result.stuck == Unconfirmed(Names(hosts), env.alive, rounds, 3)
  }

  // The relay reads as not open and the timer was accepted.
  ghost predicate Armed(env: Env) {
    RelayNotOpen(env) && Accepted(Attempts(env.timer))
  }

  // The Shelly could not be reached in four attempts, or reports its relay open.
  ghost predicate ShellyFails(env: Env) {
    || Gives(Attempts(env.status), GaveUp) || Reads(Attempts(env.status), Open)
    || (RelayNotOpen(env) && Gives(Attempts(env.timer), GaveUp))
  }

  // The guard of the request.
  predicate Refused(cfg: Config, force: bool, eng: Cache) {
    !force && cfg.refuseIfRunning && (!IsKnown(eng) || ProjectRunning(eng))
  }

  // The steps before the Shelly raised.
  ghost predicate Broken(env: Env) {
    env.nodes.None? || env.fanoutRaises
  }

  // The stages of a run.
  function Rank(e: Effect): nat {
    match e
    case NodesOff(_, _) => 0
    case OpsAborted => 1
    case DisplaysOff => 2
    case Polled(_, _) => 3
    case RelayRead(_) => 4
    case TimerArmed(_) => 5
    case SelfOff => 6
  }

  ghost predicate Ranked(run: seq<Effect>) {
    forall i, j :: 0 <= i < j < |run| ==> Rank(run[i]) < Rank(run[j])
  }

  // The effects come in the order of their stages, each once; the nodes are ordered off first
  // of all, whenever they are known; and the stages before the Shelly come exactly so.
  ghost predicate InStages(cfg: Config, env: Env, run: seq<Effect>, result: PollResult, rounds: nat) {
    && Ranked(run)
    && (if env.nodes.None? then run == [] else run != [] && run[0] == NodesOff(env.nodes.value, cfg.dryRun))
    && (OpsAborted in run <==> env.nodes.Some? && !env.fanoutRaises)
    && (DisplaysOff in run <==> env.nodes.Some? && !env.fanoutRaises && cfg.displaysOff)
    && (forall r, n :: Polled(r, n) in run <==>
          env.nodes.Some? && !env.fanoutRaises && env.nodes.value != [] && r == result && n == rounds)
  }

  // What every run keeps, whatever it meets.
  ghost predicate RunKept(cfg: Config, env: Env, run: seq<Effect>, outcome: Outcome, result: PollResult, rounds: nat) {
    && InStages(cfg, env, run, result, rounds)
    && (env.nodes.Some? && !env.fanoutRaises ==> PollKept(cfg, env, env.nodes.value, result, rounds))
    && ShellyKept(cfg, env, run, outcome, env.nodes.Some? && !env.fanoutRaises && !cfg.dryRun)
    && (outcome == Completed <==>
          env.nodes.Some? && !env.fanoutRaises && (cfg.dryRun || (Armed(env) && env.commandFound)))
  }

  // `reaches`: the run reaches the Shelly.
  ghost predicate ShellyKept(cfg: Config, env: Env, run: seq<Effect>, outcome: Outcome, reaches: bool) {
    && (SelfOff in run <==> reaches && Armed(env) && env.commandFound)
    && (SelfOff in run ==> |run| > 3 && run[|run| - 3..] == [RelayRead(NotOpen), TimerArmed(cfg.safetyTimer), SelfOff])
    && (forall t :: TimerArmed(t) in run <==> reaches && Armed(env) && t == cfg.safetyTimer)
    && (forall relay :: RelayRead(relay) in run <==> reaches && Reads(Attempts(env.status), relay))
    && (outcome == ShellyError <==> reaches && ShellyFails(env))
  }

  lemma BrokenKept(cfg: Config, env: Env, run: seq<Effect>, result: PollResult, rounds: nat)
    requires Broken(env) && run == if env.nodes.None? then [] else [NodesOff(env.nodes.value, cfg.dryRun)]
    ensures RunKept(cfg, env, run, OtherError, result, rounds)
  {
    hide Armed, ShellyFails, Reads;
    if env.nodes.None? {} else {}
  }

  // What comes before the Shelly is in its stages.
  lemma PreparedStages(cfg: Config, hosts: seq<string>, result: PollResult, rounds: nat)
    ensures var p := Prepared(cfg, hosts, result, rounds);
            && Ranked(p) && |p| > 1 && p[0] == NodesOff(hosts, cfg.dryRun)
            && (forall e :: e in p ==> Rank(e) < 4)
            && OpsAborted in p && (DisplaysOff in p <==> cfg.displaysOff)
            && (forall r, n :: Polled(r, n) in p <==> hosts != [] && r == result && n == rounds)
  {
    var p := Prepared(cfg, hosts, result, rounds);
    assert p[1] == OpsAborted;
    if cfg.displaysOff {
      assert p[2] == DisplaysOff;
      if hosts != [] { assert p == [p[0], OpsAborted, DisplaysOff, Polled(result, rounds)] && p[3] in p; }
      else { assert p == [p[0], OpsAborted, DisplaysOff]; }
    } else {
      if hosts != [] { assert p == [p[0], OpsAborted, Polled(result, rounds)] && p[2] in p; }
      else { assert p == [p[0], OpsAborted]; }
    }
  }

  // And so is what follows it.
  lemma StagesJoin(p: seq<Effect>, last: seq<Effect>)
    requires Ranked(p) && Ranked(last)
    requires (forall e :: e in p ==> Rank(e) < 4) && forall e :: e in last ==> Rank(e) >= 4
    ensures Ranked(p + last)
    ensures forall e :: Rank(e) < 4 ==> (e in p + last <==> e in p)
    ensures forall e :: Rank(e) >= 4 ==> (e in p + last <==> e in last)
  {
    var run := p + last;
    forall i, j | 0 <= i < j < |run| ensures Rank(run[i]) < Rank(run[j]) {
      if i < |p| { assert p[i] in p; }
      if j >= |p| { assert last[j - |p|] in last; }
    }
  }

  lemma StagesKept(cfg: Config, env: Env, last: seq<Effect>, result: PollResult, rounds: nat)
    requires env.nodes.Some? && !env.fanoutRaises
    requires Ranked(last) && forall e :: e in last ==> Rank(e) >= 4
    ensures InStages(cfg, env, Prepared(cfg, env.nodes.value, result, rounds) + last, result, rounds)
  {
    var p := Prepared(cfg, env.nodes.value, result, rounds);
    PreparedStages(cfg, env.nodes.value, result, rounds);
    hide Prepared, Ranked;
    StagesJoin(p, last);
    assert Rank(OpsAborted) < 4 && Rank(DisplaysOff) < 4;
    assert forall r, n :: Rank(Polled(r, n)) < 4;
  }

  lemma DryKept(cfg: Config, env: Env, run: seq<Effect>, result: PollResult, rounds: nat)
    requires !Broken(env) && cfg.dryRun && run == Prepared(cfg, env.nodes.value, result, rounds)
    requires PollKept(cfg, env, env.nodes.value, result, rounds)
    ensures RunKept(cfg, env, run, Completed, result, rounds)
  {
    PreparedStages(cfg, env.nodes.value, result, rounds);
    StagesKept(cfg, env, [], result, rounds);
    LateOnes(run, []);
    assert run + [] == run;
    hide Prepared, Armed, ShellyFails, Reads, PollKept, InStages, Ranked, Rank;
  }

  // What a real run does with the Shelly.
  ghost predicate ShellyLast(cfg: Config, env: Env, last: seq<Effect>, outcome: Outcome) {
    && (outcome == Completed <==> Armed(env) && env.commandFound)
    && (outcome == ShellyError <==> ShellyFails(env))
    && (Armed(env) ==>
          last == [RelayRead(NotOpen), TimerArmed(cfg.safetyTimer)] + if env.commandFound then [SelfOff] else [])
    && (!Armed(env) ==> |last| <= 1 && forall e :: e in last ==> e.RelayRead?)
    && (forall relay :: RelayRead(relay) in last <==> Reads(Attempts(env.status), relay))
  }

  lemma LastStages(cfg: Config, env: Env, last: seq<Effect>, outcome: Outcome)
    requires ShellyLast(cfg, env, last, outcome)
    ensures Ranked(last) && forall e :: e in last ==> Rank(e) >= 4
    ensures SelfOff in last <==> Armed(env) && env.commandFound
    ensures forall t :: TimerArmed(t) in last <==> Armed(env) && t == cfg.safetyTimer
    ensures forall relay :: RelayRead(relay) in last <==> Reads(Attempts(env.status), relay)
    ensures outcome == ShellyError <==> ShellyFails(env)
    ensures SelfOff in last ==> last == [RelayRead(NotOpen), TimerArmed(cfg.safetyTimer), SelfOff]
  {
    hide Armed, ShellyFails, Reads;
    if Armed(env) {
      assert last[1] == TimerArmed(cfg.safetyTimer);
      if env.commandFound {
        assert last == [RelayRead(NotOpen), TimerArmed(cfg.safetyTimer), SelfOff] && last[2] in last;
      } else {
        assert last == [RelayRead(NotOpen), TimerArmed(cfg.safetyTimer)];
      }
    } else {}
  }

  // The effects on the Shelly and after are those of the end.
  lemma LateOnes(p: seq<Effect>, last: seq<Effect>)
    requires forall e :: e in p ==> Rank(e) < 4
    ensures SelfOff in p + last <==> SelfOff in last
    ensures forall t :: TimerArmed(t) in p + last <==> TimerArmed(t) in last
    ensures forall relay :: RelayRead(relay) in p + last <==> RelayRead(relay) in last
  {
    forall t ensures TimerArmed(t) !in p { assert Rank(TimerArmed(t)) == 5; }
    forall relay ensures RelayRead(relay) !in p { assert Rank(RelayRead(relay)) == 4; }
    assert Rank(SelfOff) == 6;
  }

  lemma RealShelly(cfg: Config, env: Env, p: seq<Effect>, last: seq<Effect>, outcome: Outcome)
    requires ShellyLast(cfg, env, last, outcome) && |p| > 0
    requires forall e :: e in p ==> Rank(e) < 4
    ensures ShellyKept(cfg, env, p + last, outcome, true)
  {
    hide ShellyLast, ShellyFails, Armed, Reads, Ranked, Rank;
    LastStages(cfg, env, last, outcome);
    LateOnes(p, last);
    var run := p + last;
    if SelfOff in run { Tail(p, last); }
  }

  lemma Tail(p: seq<Effect>, last: seq<Effect>)
    requires |last| == 3
    ensures |p + last| == |p| + 3 && (p + last)[|p + last| - 3..] == last
  {}

  lemma RealKept(cfg: Config, env: Env, run: seq<Effect>, last: seq<Effect>, outcome: Outcome, result: PollResult,
                 rounds: nat)
    requires !Broken(env) && !cfg.dryRun && PollKept(cfg, env, env.nodes.value, result, rounds)
    requires run == Prepared(cfg, env.nodes.value, result, rounds) + last && ShellyLast(cfg, env, last, outcome)
    ensures RunKept(cfg, env, run, outcome, result, rounds)
  {
    var p := Prepared(cfg, env.nodes.value, result, rounds);
    PreparedStages(cfg, env.nodes.value, result, rounds);
    LastStages(cfg, env, last, outcome);
    hide Prepared, PollKept, ShellyFails, Armed, Reads, InStages, Ranked, Rank, ShellyKept;
    StagesKept(cfg, env, last, result, rounds);
    RealShelly(cfg, env, p, last, outcome);
  }

  /** The fail-safe, read off any run: the controller goes off once, as the last effect, right
      after the relay read as not open and its timer was armed, and with every node ordered off
      and, if there are any, polled before; a node still stuck then means that the whole wait
      was over. */
  lemma FailSafe(cfg: Config, env: Env, run: seq<Effect>, outcome: Outcome, result: PollResult, rounds: nat)
    requires RunKept(cfg, env, run, outcome, result, rounds) && SelfOff in run
    ensures var n := |run|;
            && n > 3 && run[n - 3..] == [RelayRead(NotOpen), TimerArmed(cfg.safetyTimer), SelfOff]
            && SelfOff !in run[..n - 1]
    ensures outcome == Completed && !cfg.dryRun && RelayNotOpen(env) && Accepted(Attempts(env.timer))
    ensures env.nodes.Some? && run[0] == NodesOff(env.nodes.value, false)
    ensures env.nodes.value != [] ==> Polled(result, rounds) in run[1..|run| - 3]
    ensures result.stuck != [] ==> rounds > 0 && env.end(rounds - 1) - env.begin(0) >= cfg.maxWait
  {
    var n := |run|;
    assert run[n - 1] == run[n - 3..][2] && run[n - 2] == run[n - 3..][1] && run[n - 3] == run[n - 3..][0];
    OnlyLast(run);
    if env.nodes.value != [] {
      var k :| 0 <= k < n && run[k] == Polled(result, rounds);
      assert run[1..n - 3][k - 1] == run[k];
    }
    hide RunKept, InStages, ShellyKept, Ranked;
    if result.stuck != [] {
      assert result.stuck[0] in result.stuck;
      assert result.stuck[0] in Names(env.nodes.value);
    }
  }

  lemma OnlyLast(run: seq<Effect>)
    requires Ranked(run) && run != [] && run[|run| - 1] == SelfOff
    ensures SelfOff !in run[..|run| - 1]
  {
    forall i | 0 <= i < |run| - 1 ensures run[i] != SelfOff { assert Rank(run[i]) < Rank(run[|run| - 1]); }
  }

  lemma OverSettles(cfg: Config, env: Env, hosts: seq<string>, rounds: nat)
    requires rounds > 0 && Over(hosts, cfg.maxWait, CONFIRM_FAILURES, env.alive, env.begin, env.end, rounds)
    ensures NodesSettled(cfg, env, rounds, hosts)
  {}

  class Coordinator {
    const cfg: Config
    var state: Phase
    var problem: Problem
    var nodesPending: seq<string>
    // The shutdown lock.
    var locked: bool
    ghost var effects: seq<Effect>

    constructor (cfg: Config)
      ensures this.cfg == cfg && state == Idle && nodesPending == [] && !locked && effects == []
    {
      this.cfg, state, problem, nodesPending, locked, effects := cfg, Idle, NoProblem, [], false, [];
    }

    // Step 7.
    method Poll(env: Env, hosts: seq<string>) returns (ghost result: PollResult, ghost rounds: nat)
      requires Advances(env.begin, env.end, POLL_INTERVAL)
      modifies `state, `nodesPending, `effects
      ensures PollKept(cfg, env, hosts, result, rounds) && nodesPending == result.stuck
      ensures effects == old(effects) + if hosts != [] then [Polled(result, rounds)] else []
    {
      hide Over, Advances, RoundsAllowed, DownAfter, Unconfirmed, Names;
      var r, n := WaitUntilAllDown(hosts, POLL_INTERVAL, cfg.maxWait, CONFIRM_FAILURES, env.alive, env.begin, env.end);
      result, rounds := r, n;
      if hosts == [] {
        nodesPending := [];
      } else {
        state := Polling;
        nodesPending := r.stuck;
        effects := effects + [Polled(result, rounds)];
        OverSettles(cfg, env, hosts, rounds);
      }
    }

    // Steps 5 to 7: the nodes and the displays off, and the poll.
    method Prepare(env: Env) returns (ok: bool, ghost result: PollResult, ghost rounds: nat)
      requires Advances(env.begin, env.end, POLL_INTERVAL)
      modifies `state, `nodesPending, `effects
      ensures ok == !Broken(env)
      ensures ok ==> PollKept(cfg, env, env.nodes.value, result, rounds) && nodesPending == result.stuck
      ensures ok ==> effects == old(effects) + Prepared(cfg, env.nodes.value, result, rounds)
      ensures !ok ==>
                effects == old(effects) + if env.nodes.None? then [] else [NodesOff(env.nodes.value, cfg.dryRun)]
    {
      hide PollKept;
      result, rounds := PollResult(0, [], false), 0;
      if env.nodes.None? { return false, result, rounds; }
      var resolved := env.nodes.value;
      nodesPending := resolved;
      effects := effects + [NodesOff(resolved, cfg.dryRun)];
      if env.fanoutRaises { return false, result, rounds; }
      effects := effects + [OpsAborted];
      if cfg.displaysOff { effects := effects + [DisplaysOff]; }
      result, rounds := Poll(env, resolved);
      ok := true;
    }

    // Step 8, the pre-flight check.
    method ReadRelay(env: Env) returns (outcome: Outcome)
      modifies `effects
      ensures outcome == Completed <==> RelayNotOpen(env)
      ensures outcome == ShellyError <==> Gives(Attempts(env.status), GaveUp) || Reads(Attempts(env.status), Open)
      ensures old(effects) <= effects && |effects| <= |old(effects)| + 1
      ensures outcome == Completed ==> effects == old(effects) + [RelayRead(NotOpen)]
      ensures forall e :: e in effects[|old(effects)|..] ==> e.RelayRead?
      ensures forall relay :: RelayRead(relay) in effects[|old(effects)|..] <==> Reads(Attempts(env.status), relay)
    {
      var reply, _, _ := CallWithRetry(Attempts(env.status));
      Decided(Attempts(env.status), reply);
      match reply
      case GaveUp => return ShellyError;
      case Raised => return OtherError;
      case Value(v) =>
        effects := effects + [RelayRead(RelayOf(v))];
        match RelayOf(v)
        case Unreadable => return OtherError;
        case Open => return ShellyError;
        case NotOpen => return Completed;
    }

    // Step 8, the mains-cut deadline.
    method ArmTimer(env: Env) returns (outcome: Outcome)
      modifies `effects
      ensures outcome == Completed <==> Accepted(Attempts(env.timer))
      ensures outcome == ShellyError <==> Gives(Attempts(env.timer), GaveUp)
      ensures effects == old(effects) + if outcome == Completed then [TimerArmed(cfg.safetyTimer)] else []
    {
      var reply, _, _ := CallWithRetry(Attempts(env.timer));
      Decided(Attempts(env.timer), reply);
      match reply
      case GaveUp => return ShellyError;
      case Raised => return OtherError;
      case Value(_) =>
        effects := effects + [TimerArmed(cfg.safetyTimer)];
        return Completed;
    }

    // Steps 8 and 10: the safety timer, then the controller itself.
    method ArmAndPowerOff(env: Env) returns (outcome: Outcome)
      modifies `state, `effects
      ensures cfg.dryRun ==> outcome == Completed && state == Done && effects == old(effects)
      ensures !cfg.dryRun && outcome == Completed ==> state == PoweroffIssued
      ensures !cfg.dryRun ==>
                old(effects) <= effects && ShellyLast(cfg, env, effects[|old(effects)|..], outcome)
    {
      state := ArmingShelly;
      if !cfg.dryRun {
        outcome := ReadRelay(env);
        ghost var read := effects;
        if outcome != Completed { return; }
        outcome := ArmTimer(env);
        if outcome != Completed {
          assert effects == read;
          return;
        }
        assert forall relay :: Reads(Attempts(env.status), relay) <==> RelayRead(relay) in read[|old(effects)|..];
      }
      state := PoweroffIssued;
      if cfg.dryRun {
        state := Done;
        return Completed;
      }
      if !env.commandFound { return OtherError; }
      effects := effects + [SelfOff];
      return Completed;
    }

    method RunShutdown(env: Env) returns (outcome: Outcome, ghost result: PollResult, ghost rounds: nat)
      requires Advances(env.begin, env.end, POLL_INTERVAL)
      modifies `state, `nodesPending, `effects
      ensures old(effects) <= effects && RunKept(cfg, env, effects[|old(effects)|..], outcome, result, rounds)
      ensures outcome == Completed ==> state == if cfg.dryRun then Done else PoweroffIssued
      ensures env.nodes.Some? && !env.fanoutRaises ==>
                nodesPending == Unconfirmed(Names(env.nodes.value), env.alive, rounds, 3)
    {
      hide RunKept, ShellyLast, Prepared, NodesSettled, RoundsAllowed, Advances;
      ghost var before := effects;
      var ok;
      ok, result, rounds := Prepare(env);
      if !ok {
        BrokenKept(cfg, env, effects[|before|..], result, rounds);
        return OtherError, result, rounds;
      }
      ghost var prepared := effects[|before|..];
      outcome := ArmAndPowerOff(env);
      ghost var last := effects[|before| + |prepared|..];
      assert effects[|before|..] == prepared + last;
      if cfg.dryRun {
        DryKept(cfg, env, effects[|before|..], result, rounds);
      } else {
        RealKept(cfg, env, effects[|before|..], last, outcome, result, rounds);
      }
    }

    // 200 if the request is let through.
    method Guard(force: bool, eng: Cache) returns (code: int)
      modifies `state, `problem
      ensures code == if !Refused(cfg, force, eng) then 200 else if IsKnown(eng) then 409 else 503
      ensures code != 200 ==> state == Idle && problem == if IsKnown(eng) then ShowRunning else StateUnknown
    {
      state := Checking;
      if !force && cfg.refuseIfRunning {
        if !IsKnown(eng) {
          state, problem := Idle, StateUnknown;
          return 503;
        }
        if ProjectRunning(eng) {
          state, problem := Idle, ShowRunning;
          return 409;
        }
      }
      return 200;
    }

    // The answer to a run, and the state it leaves.
    method Conclude(outcome: Outcome) returns (code: int)
      modifies `state, `problem, `nodesPending
      ensures outcome == OutcomeOf(code) && (code == 200 || code == 500 || code == 502)
      ensures state == if outcome == Completed then old(state) else Failed
      ensures nodesPending == if outcome == ShellyError then [] else old(nodesPending)
      ensures problem == if outcome == Completed then old(problem)
                         else if outcome == ShellyError then ShellyProblem else OtherProblem
    {
      match outcome
      case Completed => code := 200;
      case ShellyError =>
        state, problem := Failed, ShellyProblem;
        nodesPending := [];
        code := 502;
      case OtherError =>
        state, problem := Failed, OtherProblem;
        code := 500;
    }

    /** The shutdown request. In a run that is let through, the controller is powered off if
        and only if the run is real, nothing before the Shelly raised, the relay answered that
        it is not open, the timer was accepted and the command exists; and then only as the
        last of all its effects, right after the timer was armed, with every node down or the
        wait over. A Shelly that fails leaves the controller on. */
    method HandleShutdown(tokenOk: bool, force: bool, eng: Cache, env: Env)
      returns (code: int, ghost result: PollResult, ghost rounds: nat)
      requires Advances(env.begin, env.end, POLL_INTERVAL)
      modifies this
      ensures !tokenOk ==> code == 401
      ensures tokenOk && old(locked) ==> code == 409
      ensures !tokenOk || old(locked) ==>
                unchanged(`state) && unchanged(`problem) && unchanged(`nodesPending) && unchanged(`effects)
      ensures locked == old(locked)
      ensures tokenOk && !old(locked) && !force && cfg.refuseIfRunning && (!eng.connected || eng.running == UNKNOWN) ==>
                code == 503 && effects == old(effects) && state == Idle && problem == StateUnknown
      ensures tokenOk && !old(locked) && !force && cfg.refuseIfRunning && eng.connected && eng.running == "yes" ==>
                code == 409 && effects == old(effects) && state == Idle && problem == ShowRunning
      ensures tokenOk && !old(locked)
              && (force || !cfg.refuseIfRunning
                  || (eng.connected && eng.running != UNKNOWN && eng.running != "yes")) ==>
                && old(effects) <= effects
                && RunKept(cfg, env, effects[|old(effects)|..], OutcomeOf(code), result, rounds)
                && (code == 200 || code == 500 || code == 502)
                && (code == 200 ==> state == if cfg.dryRun then Done else PoweroffIssued)
                && (code != 200 ==> state == Failed)
                && (code == 502 ==> nodesPending == [] && problem == ShellyProblem)
                && (code == 500 ==> problem == OtherProblem)
                && (env.nodes.Some? && !env.fanoutRaises && code != 502 ==>
                      nodesPending == Unconfirmed(Names(env.nodes.value), env.alive, rounds, 3))
    {
      assert UNKNOWN != "yes";
      hide RunKept, Advances, Unconfirmed, Names;
      result, rounds := PollResult(0, [], false), 0;
      if !tokenOk { return 401, result, rounds; }
      if locked { return 409, result, rounds; }
      locked := true;
      code := Guard(force, eng);
      if code == 200 {
        var outcome;
        outcome, result, rounds := RunShutdown(env);
        code := Conclude(outcome);
      }
      locked := false;
    }
  }
}
