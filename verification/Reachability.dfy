/** The poll that waits until every node has stopped answering. */
module Reachability {

  datatype State = State(failures: nat, confirmed: bool)

  datatype PollResult = PollResult(elapsed: int, stuck: seq<string>, timedOut: bool)

  // Whether a host answers the probe of a round.
  type Probe = (nat, string) -> bool

  // The clock where a round begins and where its probes are in, in microseconds.
  type Readings = nat -> int

  // ------------------------------------------------------------ what counts as down

  // Rounds e - c, ..., e - 1 all failed.
  ghost predicate FailsInARow(alive: Probe, h: string, e: nat, c: nat) {
    c <= e && forall k: nat :: e - c <= k < e ==> !alive(k, h)
  }

  ghost predicate DownAfter(alive: Probe, h: string, rounds: nat, c: nat) {
    exists e: nat :: e <= rounds && FailsInARow(alive, h, e, c)
  }

  // A threshold below one still takes one failed probe.
  function Needed(confirm: int): (c: nat)
    ensures c > 0
  {
    if confirm < 1 then 1 else confirm
  }

  // The failed probes in a row before round n.
  ghost function Streak(alive: Probe, h: string, n: nat): nat {
    if n == 0 || alive(n - 1, h) then 0 else Streak(alive, h, n - 1) + 1
  }

  lemma {:induction false} StreakMeans(alive: Probe, h: string, n: nat, c: nat)
    ensures Streak(alive, h, n) >= c <==> FailsInARow(alive, h, n, c)
  {
    if c > 0 && n > 0 && !alive(n - 1, h) {
      StreakMeans(alive, h, n - 1, c - 1);
      assert FailsInARow(alive, h, n - 1, c - 1) ==> FailsInARow(alive, h, n, c);
      assert FailsInARow(alive, h, n, c) ==> FailsInARow(alive, h, n - 1, c - 1);
    } else if c > 0 && n > 0 {
      var last: nat := n - 1;
      assert FailsInARow(alive, h, n, c) ==> !alive(last, h);
    }
  }

  lemma DownNext(alive: Probe, h: string, n: nat, c: nat)
    ensures DownAfter(alive, h, n + 1, c) <==> DownAfter(alive, h, n, c) || Streak(alive, h, n + 1) >= c
  {
    StreakMeans(alive, h, n + 1, c);
    if DownAfter(alive, h, n + 1, c) && !DownAfter(alive, h, n, c) {
      var e: nat :| e <= n + 1 && FailsInARow(alive, h, e, c);
      assert e == n + 1;
    }
  }

  // The hosts, each once, in the order first named.
  function Names(hosts: seq<string>): (names: seq<string>)
    ensures forall h :: h in names <==> h in hosts
    ensures forall i, j :: 0 <= i < j < |names| ==> names[i] != names[j]
  {
    if hosts == [] then []
    else
      var n, last := Names(hosts[..|hosts| - 1]), hosts[|hosts| - 1];
      if last in n then n else n + [last]
  }

  // The names no window of c failed probes has confirmed.
  ghost function Unconfirmed(names: seq<string>, alive: Probe, rounds: nat, c: nat): (stuck: seq<string>)
    ensures forall h :: h in stuck <==> h in names && !DownAfter(alive, h, rounds, c)
  {
    if names == [] then []
    else
      var rest, last := Unconfirmed(names[..|names| - 1], alive, rounds, c), names[|names| - 1];
      if DownAfter(alive, last, rounds, c) then rest else rest + [last]
  }

  // The poll ends after its first round with the time up or every host confirmed.
  ghost predicate Over(hosts: seq<string>, maxWait: int, c: nat, alive: Probe, begin: Readings, end: Readings, r: nat)
    requires r > 0
  {
    end(r - 1) - begin(0) >= maxWait || forall h :: h in hosts ==> DownAfter(alive, h, r, c)
  }

  // The clock advances, by at least the interval between two rounds.
  ghost predicate Advances(begin: Readings, end: Readings, interval: int) {
    && (forall r: nat :: begin(r) <= end(r))
    && (forall r: nat :: end(r) + interval <= begin(r + 1))
  }

  // n rounds took n - 1 intervals or more.
  ghost predicate Paced(begin: Readings, end: Readings, interval: int, n: nat) {
    n > 0 ==> begin(0) + (n - 1) * interval <= end(n - 1)
  }

  // ceil(maxWait / interval) + 1
  function RoundsAllowed(maxWait: int, interval: int): nat
    requires interval > 0
  {
    if maxWait <= 0 then 1 else (maxWait + interval - 1) / interval + 1
  }

  // ------------------------------------------------------------ the poll

  function Up(names: seq<string>, states: map<string, State>): (up: seq<string>)
    requires forall h :: h in names ==> h in states
    ensures forall h :: h in up <==> h in names && !states[h].confirmed
    ensures (forall i, j :: 0 <= i < j < |names| ==> names[i] != names[j])
            ==> forall i, j :: 0 <= i < j < |up| ==> up[i] != up[j]
  {
    if names == [] then []
    else
      var rest, last := Up(names[..|names| - 1], states), names[|names| - 1];
      if states[last].confirmed then rest else rest + [last]
  }

  ghost predicate Tracks(names: seq<string>, states: map<string, State>, alive: Probe, n: nat, c: nat) {
    forall h :: h in names ==>
      && h in states
      && (states[h].confirmed <==> DownAfter(alive, h, n, c))
      && (!states[h].confirmed ==> states[h].failures == Streak(alive, h, n))
  }

  lemma {:induction false} UpIsUnconfirmed(names: seq<string>, states: map<string, State>, alive: Probe, n: nat, c: nat)
    requires Tracks(names, states, alive, n, c)
    ensures Up(names, states) == Unconfirmed(names, alive, n, c)
  {
    if names != [] {
      UpIsUnconfirmed(names[..|names| - 1], states, alive, n, c);
      assert names[|names| - 1] in names;
    }
  }

  function AfterProbe(s: State, up: bool, confirm: int): State {
    if up then s.(failures := 0) else State(s.failures + 1, s.confirmed || s.failures + 1 >= confirm)
  }

  // One round's probes, noted.
  method NoteProbes(states: map<string, State>, targets: seq<string>, alive: Probe, round: nat, confirm: int)
    returns (noted: map<string, State>)
    requires forall h :: h in targets ==> h in states
    requires forall i, j :: 0 <= i < j < |targets| ==> targets[i] != targets[j]
    ensures noted.Keys == states.Keys
    ensures forall h :: h in targets ==> noted[h] == AfterProbe(states[h], alive(round, h), confirm)
    ensures forall h :: h in states && h !in targets ==> noted[h] == states[h]
  {
    noted := states;
    for i := 0 to |targets|
      invariant noted.Keys == states.Keys
      invariant forall k :: 0 <= k < i ==>
                  noted[targets[k]] == AfterProbe(states[targets[k]], alive(round, targets[k]), confirm)
      invariant forall h :: h in states && h !in targets[..i] ==> noted[h] == states[h]
    {
      var h := targets[i];
      var st := noted[h];
      if alive(round, h) {
        st := st.(failures := 0);
      } else {
        st := st.(failures := st.failures + 1);
        if st.failures >= confirm { st := st.(confirmed := true); }
      }
      noted := noted[h := st];
    }
  }

  lemma TracksNext(names: seq<string>, states: map<string, State>, noted: map<string, State>, alive: Probe, n: nat,
                   confirm: int)
    requires Tracks(names, states, alive, n, Needed(confirm)) && noted.Keys == states.Keys
    requires forall h :: h in names && !states[h].confirmed ==> noted[h] == AfterProbe(states[h], alive(n, h), confirm)
    requires forall h :: h in names && states[h].confirmed ==> noted[h] == states[h]
    ensures Tracks(names, noted, alive, n + 1, Needed(confirm))
  {
    forall h | h in names
      ensures noted[h].confirmed <==> DownAfter(alive, h, n + 1, Needed(confirm))
      ensures !noted[h].confirmed ==> noted[h].failures == Streak(alive, h, n + 1)
    {
      DownNext(alive, h, n, Needed(confirm));
    }
  }

  /** Polls until every host has failed `confirm` probes in a row, or the time is up after a
      round; `rounds` counts the rounds probed. The stuck list is exactly the hosts that no
      such row confirmed, and it ends after the first round that is over, which comes within
      ceil(maxWait / interval) + 1 rounds. */
  method WaitUntilAllDown(hosts: seq<string>, interval: int, maxWait: int, confirm: int, alive: Probe, begin: Readings,
                          end: Readings)
    returns (result: PollResult, rounds: nat)
    requires interval > 0 && Advances(begin, end, interval)
    ensures hosts == [] ==> rounds == 0 && result == PollResult(0, [], false)
    ensures hosts != [] ==> rounds > 0 && Over(hosts, maxWait, Needed(confirm), alive, begin, end, rounds)
    ensures forall r: nat :: 0 < r < rounds ==> !Over(hosts, maxWait, Needed(confirm), alive, begin, end, r)
    ensures rounds > 0 ==> result.timedOut == (end(rounds - 1) - begin(0) >= maxWait)
    ensures result.stuck == Unconfirmed(Names(hosts), alive, rounds, Needed(confirm))
    ensures rounds > 0 ==> result.elapsed == (if result.timedOut then end(rounds - 1) else begin(rounds)) - begin(0)
    ensures rounds <= RoundsAllowed(maxWait, interval)
  {
    hide Advances, RoundsAllowed, Paced, Over, Tracks, DownAfter, Unconfirmed, Names, Up, Needed;
    if hosts == [] {
      NoNames(alive, Needed(confirm));
      return PollResult(0, [], false), 0;
    }
    var names := Names(hosts);
    var states := map h | h in hosts :: State(0, false);
    var started := begin(0);
    ghost var c := Needed(confirm);
    rounds := 0;
    TracksStart(names, states, alive, c);
    PacedStart(begin, end, interval);
    while true
      invariant Tracks(names, states, alive, rounds, c) && states.Keys == set h | h in hosts
      invariant forall r: nat :: 0 < r < rounds ==> !Over(hosts, maxWait, c, alive, begin, end, r)
      invariant rounds > 0 ==> end(rounds - 1) - started < maxWait
      invariant rounds <= RoundsAllowed(maxWait, interval)
      invariant Paced(begin, end, interval, rounds)
      decreases if rounds == 0 then (if maxWait < 0 then 1 else maxWait + 1) else maxWait - (end(rounds - 1) - started)
    {
      var targets := Up(names, states);
      UpIsUnconfirmed(names, states, alive, rounds, c);
      if targets == [] {
        AllDown(hosts, maxWait, c, alive, begin, end, rounds);
        return PollResult(begin(rounds) - started, [], false), rounds;
      }
      NotAllDown(hosts, maxWait, c, alive, begin, end, rounds);
      var noted := NoteProbes(states, targets, alive, rounds, confirm);
      TracksNext(names, states, noted, alive, rounds, confirm);
      states := noted;
      RoundTimes(begin, end, interval, maxWait, rounds);
      rounds := rounds + 1;
      var elapsed := end(rounds - 1) - started;
      if elapsed >= maxWait {
        UpIsUnconfirmed(names, states, alive, rounds, c);
        TimeUp(hosts, maxWait, c, alive, begin, end, rounds);
        return PollResult(elapsed, Up(names, states), true), rounds;
      }
    }
  }

  lemma NoNames(alive: Probe, c: nat)
    ensures Unconfirmed(Names([]), alive, 0, c) == []
  {}

  lemma TracksStart(names: seq<string>, states: map<string, State>, alive: Probe, c: nat)
    requires c > 0 && forall h :: h in names ==> h in states && states[h] == State(0, false)
    ensures Tracks(names, states, alive, 0, c)
  {}

  lemma PacedStart(begin: Readings, end: Readings, interval: int)
    ensures Paced(begin, end, interval, 0)
  {}

  lemma AllDown(hosts: seq<string>, maxWait: int, c: nat, alive: Probe, begin: Readings, end: Readings, n: nat)
    requires hosts != [] && c > 0 && Unconfirmed(Names(hosts), alive, n, c) == []
    ensures n > 0 && Over(hosts, maxWait, c, alive, begin, end, n)
  {
    forall h | h in hosts ensures DownAfter(alive, h, n, c) {
      assert h in Names(hosts);
      assert h !in Unconfirmed(Names(hosts), alive, n, c);
    }
    assert hosts[0] in hosts;
  }

  lemma NotAllDown(hosts: seq<string>, maxWait: int, c: nat, alive: Probe, begin: Readings, end: Readings, n: nat)
    requires Unconfirmed(Names(hosts), alive, n, c) != []
    ensures n > 0 && end(n - 1) - begin(0) < maxWait ==> !Over(hosts, maxWait, c, alive, begin, end, n)
  {
    assert Unconfirmed(Names(hosts), alive, n, c)[0] in Unconfirmed(Names(hosts), alive, n, c);
  }

  lemma TimeUp(hosts: seq<string>, maxWait: int, c: nat, alive: Probe, begin: Readings, end: Readings, n: nat)
    requires n > 0 && end(n - 1) - begin(0) >= maxWait
    ensures Over(hosts, maxWait, c, alive, begin, end, n)
  {}

  lemma RoundAt(begin: Readings, end: Readings, interval: int, n: nat)
    requires Advances(begin, end, interval)
    ensures begin(n) <= end(n) && (n > 0 ==> end(n - 1) + interval <= begin(n))
  {
    if n > 0 {
      var last: nat := n - 1;
      assert end(last) + interval <= begin(last + 1);
    }
  }

  // The next round, n, is allowed, and ends n intervals after the start or later.
  lemma RoundTimes(begin: Readings, end: Readings, interval: int, maxWait: int, n: nat)
    requires interval > 0 && Advances(begin, end, interval)
    requires Paced(begin, end, interval, n) && (n > 0 ==> end(n - 1) - begin(0) < maxWait)
    ensures Paced(begin, end, interval, n + 1)
    ensures if n > 0 then end(n - 1) + interval <= end(n) else begin(0) <= end(0)
    ensures n + 1 <= RoundsAllowed(maxWait, interval)
  {
    RoundAt(begin, end, interval, n);
    hide Advances;
    if n > 0 {
      assert n * interval == (n - 1) * interval + interval;
      assert (n - 1) * interval < maxWait;
      Allowed(maxWait, interval, n);
    } else {
      Allowed(maxWait, interval, 0);
    }
  }

  lemma Allowed(maxWait: int, interval: int, n: nat)
    requires interval > 0 && (n > 0 ==> (n - 1) * interval < maxWait)
    ensures n + 1 <= RoundsAllowed(maxWait, interval)
  {
    if n > 0 {
      CeilAtLeast(maxWait, interval, n);
    } else if maxWait > 0 {
      assert maxWait + interval - 1 >= 0;
    }
  }

  lemma CeilAtLeast(maxWait: int, interval: int, n: nat)
    requires n > 0 && interval > 0 && (n - 1) * interval < maxWait
    ensures maxWait > 0 && n <= (maxWait + interval - 1) / interval
  {
    var q := (maxWait + interval - 1) / interval;
    assert 0 <= (n - 1) * interval;
    assert q * interval > maxWait - 1;
    if q <= n - 1 { MulMonotone(q, n - 1, interval); }
  }

  lemma MulMonotone(a: int, b: int, m: int)
    requires a <= b && m > 0
    ensures a * m <= b * m
  {}
}
