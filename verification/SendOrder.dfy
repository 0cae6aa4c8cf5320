/** The order in which state frames go out, over every run: that of the puts that gave them
    their places. */
module SendOrder {
  import opened OrderedDict
  import opened Osc
  import opened StateLane
  import opened EventLane
  import opened RelayRules
  import opened RelayRun

  // The number of the put that gave a state frame its place, by address for those queued and in
  // order for those sent. A put gives its frame a new place, but for a link state refreshed in
  // the queue; a head put gives it none, the link state then goes ahead of its turn.
  datatype Order = Order(queued: map<string, Option<nat>>, sent: seq<Option<nat>>)

  ghost function PutOrder(q: Queue, o: Order, address: string, head: bool, n: nat): Order {
    if address == LINK_PATH && Has(q, address) && !head then o
    else o.(queued := o.queued[address := if head then None else Some(n)])
  }

  ghost function IssueOrder(w: World, o: Order, c: Command): Order {
    if c.Put? then PutOrder(w.queue, o, c.address, c.head, |Puts(w.commands)|) else o
  }

  ghost function IssueAllOrder(w: World, o: Order, cmds: seq<Command>, now: int): Order {
    if cmds == [] then o
    else
      var n := |cmds| - 1;
      IssueOrder(IssueAll(w, cmds[..n], now), IssueAllOrder(w, o, cmds[..n], now), cmds[n])
  }

  ghost function SendOldest(w: World, o: Order): Order
    requires w.queue != []
  {
    var key := w.queue[0].key;
    o.(sent := o.sent + [if key in o.queued then o.queued[key] else None])
  }

  ghost function StepOrder(cfg: Config, w: World, o: Order, e: Event): Order {
    match e
    case Connect(now) => IssueAllOrder(w, o, OnConnect(w.rules, now).cmds, now)
    case Disconnect(now) => IssueAllOrder(w, o, OnDisconnect(cfg, w.rules).cmds, now)
    case FrameIn(address, arg, now) => IssueAllOrder(w, o, OnFrame(cfg, w.rules, address, arg, now).cmds, now)
    case DumpAsked(names) => IssueAllOrder(w, o, Dump(w.rules, names), 0)
    case Heartbeat => IssueOrder(w, o, PutLink(w.rules.connected, false))
    case Purge => o
    case DrainOne(now, _) =>
      if (w.lane.heap != {} && Top(w.lane.heap).due <= now) || w.queue == [] then o else SendOldest(w, o)
  }

  ghost function RunOrder(cfg: Config, events: seq<Event>): Order {
    if events == [] then Order(map[LINK_PATH := None], [])
    else
      var n := |events| - 1;
      StepOrder(cfg, Run(cfg, events[..n]), RunOrder(cfg, events[..n]), events[n])
  }

  // ------------------------------------------------------------ the lane

  ghost predicate Earlier(a: Option<nat>, b: Option<nat>) {
    a.Some? && b.Some? ==> a.value < b.value
  }

  // The place is that of a put of the address, and but for the link state of this very frame.
  ghost predicate PlacedBy(x: Item<string, Arg>, place: Option<nat>, puts: Queue) {
    && (place.Some? ==> place.value < |puts| && puts[place.value].key == x.key)
    && (x.key != LINK_PATH ==> place.Some? && puts[place.value] == x)
  }

  ghost predicate InPlace(q: Queue, m: map<string, Option<nat>>) {
    && (forall i :: 0 <= i < |q| ==> q[i].key in m)
    && forall i, j :: 0 <= i < j < |q| ==> Earlier(m[q[i].key], m[q[j].key])
  }

  ghost predicate QueuePlaced(q: Queue, m: map<string, Option<nat>>, puts: Queue) {
    forall x :: x in q ==> x.key in m && PlacedBy(x, m[x.key], puts)
  }

  ghost predicate SentBefore(sent: seq<Option<nat>>, q: Queue, m: map<string, Option<nat>>) {
    forall i, x :: 0 <= i < |sent| && x in q && x.key in m ==> Earlier(sent[i], m[x.key])
  }

  ghost predicate SentWithin(sent: seq<Option<nat>>, n: nat) {
    forall i :: 0 <= i < |sent| && sent[i].Some? ==> sent[i].value < n
  }

  ghost predicate LaneOrdered(q: Queue, o: Order, puts: Queue) {
    && Distinct(q) && InPlace(q, o.queued) && QueuePlaced(q, o.queued, puts)
    && SentBefore(o.sent, q, o.queued) && SentWithin(o.sent, |puts|)
  }

  lemma {:induction false} WithoutInPlace(q: Queue, m: map<string, Option<nat>>, k: string)
    requires InPlace(q, m)
    ensures InPlace(Without(q, k), m)
  {
    if q != [] {
      var n := |q| - 1;
      var s, last := q[..n], q[n];
      assert forall i :: 0 <= i < n ==> s[i] == q[i];
      WithoutInPlace(s, m, k);
      var rest := Without(s, k);
      forall i | 0 <= i < |rest| ensures rest[i].key in m && Earlier(m[rest[i].key], m[last.key]) {
        WithoutMember(s, k, rest[i]);
        var j :| 0 <= j < n && s[j] == rest[i];
        assert Earlier(m[q[j].key], m[q[n].key]);
      }
    }
  }

  lemma WithoutKey(q: Queue, k: string)
    ensures forall x :: x in Without(q, k) <==> x in q && x.key != k
  {
    forall x { WithoutMember(q, k, x); }
  }

  // A place at the end, later than all there were.
  lemma AppendedOrdered(q: Queue, o: Order, puts: Queue, x: Item<string, Arg>)
    requires LaneOrdered(q, o, puts)
    ensures LaneOrdered(Without(q, x.key) + [x], o.(queued := o.queued[x.key := Some(|puts|)]), puts + [x])
  {
    var rest, m := Without(q, x.key), o.queued[x.key := Some(|puts|)];
    WithoutInPlace(q, o.queued, x.key);
    WithoutKey(q, x.key);
    WithoutDistinct(q, x.key);
    forall i | 0 <= i < |rest|
      ensures rest[i] in q && rest[i].key != x.key && m[rest[i].key] == o.queued[rest[i].key]
    {
      assert rest[i] in rest;
    }
    KeptPlaced(rest, q, o.queued, m, puts, x);
  }

  // Frames that keep their places stay placed when more is put.
  lemma KeptPlaced(rest: Queue, q: Queue, m: map<string, Option<nat>>, m': map<string, Option<nat>>, puts: Queue,
                   x: Item<string, Arg>)
    requires QueuePlaced(q, m, puts)
    requires forall y :: y in rest ==> y in q && y.key in m' && m'[y.key] == m[y.key]
    ensures QueuePlaced(rest, m', puts + [x])
    ensures forall y :: y in rest && m'[y.key].Some? ==> m'[y.key].value < |puts|
  {
    forall y | y in rest ensures PlacedBy(y, m'[y.key], puts + [x]) { assert PlacedBy(y, m[y.key], puts); }
  }

  lemma HeadOrdered(q: Queue, o: Order, puts: Queue, x: Item<string, Arg>)
    requires LaneOrdered(q, o, puts) && x.key == LINK_PATH
    ensures LaneOrdered([x] + Without(q, x.key), o.(queued := o.queued[x.key := None]), puts + [x])
  {
    var rest, m := Without(q, x.key), o.queued[x.key := None];
    WithoutInPlace(q, o.queued, x.key);
    WithoutKey(q, x.key);
    WithoutDistinct(q, x.key);
    forall i | 0 <= i < |rest|
      ensures rest[i] in q && rest[i].key != x.key && m[rest[i].key] == o.queued[rest[i].key]
    {
      assert rest[i] in rest;
    }
    KeptPlaced(rest, q, o.queued, m, puts, x);
  }

  // Refreshed in place: the link state's value alone changes.
  lemma RefreshedOrdered(q: Queue, o: Order, puts: Queue, x: Item<string, Arg>)
    requires LaneOrdered(q, o, puts) && x.key == LINK_PATH && Has(q, LINK_PATH)
    ensures LaneOrdered(Set(q, x.key, x.value), o, puts + [x])
  {
    var q', i := Set(q, x.key, x.value), Find(q, x.key);
    assert forall k :: 0 <= k < |q| ==> q'[k].key == q[k].key;
    SetDistinct(q, x.key, x.value);
    forall y | y in q' ensures y.key in o.queued && PlacedBy(y, o.queued[y.key], puts + [x]) {
      var k :| 0 <= k < |q'| && q'[k] == y;
      assert q[k] in q && PlacedBy(q[k], o.queued[q[k].key], puts);
    }
    forall k, y | 0 <= k < |o.sent| && y in q' ensures Earlier(o.sent[k], o.queued[y.key]) {
      var j :| 0 <= j < |q'| && q'[j] == y;
      assert q[j] in q && q[j].key == y.key;
    }
  }

  lemma PutOrdered(q: Queue, o: Order, puts: Queue, address: string, arg: Arg, head: bool)
    requires LaneOrdered(q, o, puts) && (head ==> address == LINK_PATH)
    ensures LaneOrdered(PutState(q, address, arg, head), PutOrder(q, o, address, head, |puts|), puts + [Item(address, arg)])
  {
    hide LaneOrdered;
    if address == LINK_PATH && Has(q, address) && !head {
      RefreshedOrdered(q, o, puts, Item(address, arg));
    } else if head {
      HeadOrdered(q, o, puts, Item(address, arg));
    } else {
      AppendedOrdered(q, o, puts, Item(address, arg));
    }
  }

  // ------------------------------------------------------------ the wire

  // Every frame sent was placed by a put of it, each later than those of the frames before.
  ghost predicate SentOrdered(sent: seq<Option<nat>>, wire: Queue, puts: Queue) {
    && |sent| == |wire|
    && (forall i :: 0 <= i < |wire| ==> PlacedBy(wire[i], sent[i], puts))
    && forall i, j :: 0 <= i < j < |wire| ==> Earlier(sent[i], sent[j])
  }

  ghost predicate Ordered(w: World, o: Order) {
    LaneOrdered(w.queue, o, Puts(w.commands)) && SentOrdered(o.sent, StateWire(w.wire), Puts(w.commands))
  }

  predicate LinkHead(c: Command) {
    c.Put? && c.head ==> c.address == LINK_PATH
  }

  ghost predicate LinkHeads(cmds: seq<Command>) {
    forall i :: 0 <= i < |cmds| ==> LinkHead(cmds[i])
  }

  lemma IssueOrdered(w: World, o: Order, c: Command, now: int)
    requires Ordered(w, o) && LinkHead(c)
    ensures Ordered(Issue(w, c, now), IssueOrder(w, o, c))
  {
    var puts := Puts(w.commands);
    PutsConcat(w.commands, [c]);
    PutsOne(c);
    if c.Put? {
      PutOrdered(w.queue, o, puts, c.address, c.arg, c.head);
      SentStays(o.sent, StateWire(w.wire), puts, Item(c.address, c.arg));
    } else {
      assert puts + [] == puts;
    }
    hide LaneOrdered, SentOrdered;
  }

  lemma SentStays(sent: seq<Option<nat>>, wire: Queue, puts: Queue, x: Item<string, Arg>)
    requires SentOrdered(sent, wire, puts)
    ensures SentOrdered(sent, wire, puts + [x])
  {
    forall i | 0 <= i < |wire| ensures PlacedBy(wire[i], sent[i], puts + [x]) {
      assert PlacedBy(wire[i], sent[i], puts);
    }
  }

  lemma {:induction false} IssueAllOrdered(w: World, o: Order, cmds: seq<Command>, now: int)
    requires Ordered(w, o) && LinkHeads(cmds)
    ensures Ordered(IssueAll(w, cmds, now), IssueAllOrder(w, o, cmds, now))
  {
    hide Ordered, IssueOrder, Issue;
    if cmds != [] {
      var n := |cmds| - 1;
      IssueAllOrdered(w, o, cmds[..n], now);
      IssueOrdered(IssueAll(w, cmds[..n], now), IssueAllOrder(w, o, cmds[..n], now), cmds[n], now);
    }
  }

  lemma WellPutHeads(cmds: seq<Command>, connected: bool)
    requires AllWellPut(cmds, connected)
    ensures LinkHeads(cmds)
  {
    forall i | 0 <= i < |cmds| ensures LinkHead(cmds[i]) { assert WellPut(cmds[i], connected); }
  }

  lemma {:induction false} DumpHeads(cache: seq<Item<string, Arg>>, names: set<string>)
    ensures LinkHeads(DumpPuts(cache, names))
  {
    if cache != [] { DumpHeads(cache[..|cache| - 1], names); }
  }

  lemma SendOrdered(w: World, o: Order)
    requires Ordered(w, o) && w.queue != []
    ensures Ordered(w.(queue := w.queue[1..], wire := w.wire + [StateSent(w.queue[0])], linkDue := false), SendOldest(w, o))
  {
    var x, rest, m := w.queue[0], w.queue[1..], o.queued;
    var sent, puts := o.sent + [m[x.key]], Puts(w.commands);
    WireNext(w.wire, StateSent(x), "");
    assert x in w.queue && PlacedBy(x, m[x.key], puts);
    forall y | y in rest ensures y in w.queue && Earlier(m[x.key], m[y.key]) {
      var j :| 0 <= j < |rest| && rest[j] == y;
      assert w.queue[j + 1] == y;
    }
    assert LaneOrdered(rest, o.(sent := sent), puts) by {
      assert forall i :: 0 <= i < |rest| ==> rest[i] == w.queue[i + 1];
    }
    hide LaneOrdered;
    assert forall i :: 0 <= i < |o.sent| ==> Earlier(o.sent[i], m[x.key]);
  }

  lemma StepOrdered(cfg: Config, w: World, o: Order, e: Event)
    requires Ordered(w, o)
    ensures Ordered(Step(cfg, w, e), StepOrder(cfg, w, o, e))
  {
    match e
    case Connect(now) => AppliedOrdered(w, o, OnConnect(w.rules, now), now);
    case Disconnect(now) =>
      ResetPuts(w.rules.cueVals, false);
      WellPutHeads(Resets(w.rules.cueVals), false);
      AppliedOrdered(w, o, OnDisconnect(cfg, w.rules), now);
    case FrameIn(address, arg, now) =>
      OnFramePuts(cfg, w.rules, address, arg, now, false);
      WellPutHeads(OnFrame(cfg, w.rules, address, arg, now).cmds, false);
      hide OnFrame;
      AppliedOrdered(w, o, OnFrame(cfg, w.rules, address, arg, now), now);
    case DumpAsked(names) =>
      DumpHeads(w.rules.cache, names);
      hide DumpPuts;
      IssueAllOrdered(w, o, Dump(w.rules, names), 0);
    case Heartbeat => IssueOrdered(w, o, PutLink(w.rules.connected, false), 0);
    case Purge => PurgeKeeps(w); SameOrdered(w, Step(cfg, w, e), o);
    case DrainOne(now, sent) => DrainOrdered(w, o, now, sent);
  }

  lemma AppliedOrdered(w: World, o: Order, out: Outcome, now: int)
    requires Ordered(w, o) && LinkHeads(out.cmds)
    ensures Ordered(Apply(w, out, now), IssueAllOrder(w, o, out.cmds, now))
  {
    IssueAllOrdered(w, o, out.cmds, now);
    SameOrdered(IssueAll(w, out.cmds, now), Apply(w, out, now), IssueAllOrder(w, o, out.cmds, now));
  }

  lemma SameOrdered(w: World, w': World, o: Order)
    requires Ordered(w, o) && w'.queue == w.queue && w'.commands == w.commands && w'.wire == w.wire
    ensures Ordered(w', o)
  {}

  lemma DrainOrdered(w: World, o: Order, now: int, sent: int)
    requires Ordered(w, o)
    ensures Ordered(DrainStep(w, now, sent), StepOrder(Config([], 0), w, o, DrainOne(now, sent)))
  {
    hide Ordered, SendOldest, SendEvent;
    var w' := DrainStep(w, now, sent);
    if w.lane.heap != {} && Top(w.lane.heap).due <= now {
      if w'.wire != w.wire { WireNext(w.wire, w'.wire[|w.wire|], ""); }
      SameStateWire(w, w', o);
    } else if w.queue != [] {
      SendOrdered(w, o);
    }
  }

  lemma SameStateWire(w: World, w': World, o: Order)
    requires Ordered(w, o) && w'.queue == w.queue && w'.commands == w.commands
    requires StateWire(w'.wire) == StateWire(w.wire)
    ensures Ordered(w', o)
  {}

  lemma {:induction false} RunOrdered(cfg: Config, events: seq<Event>)
    ensures Ordered(Run(cfg, events), RunOrder(cfg, events))
  {
    hide Ordered, Step, StepOrder;
    if events == [] {
      StartOrdered();
    } else {
      var n := |events| - 1;
      RunOrdered(cfg, events[..n]);
      StepOrdered(cfg, Run(cfg, events[..n]), RunOrder(cfg, events[..n]), events[n]);
    }
  }

  lemma StartOrdered()
    ensures Ordered(Start(), Order(map[LINK_PATH := None], []))
  {
    var none := World(INITIAL, [], EMPTY, [], [], 0, false);
    var c := PutLink(false, true);
    assert Ordered(none, Order(map[], []));
    IssueOrdered(none, Order(map[], []), c, 0);
  }

  /** State frames go out in the order of the puts that placed them, each with the value of that
      put: in every run the datagrams sent, the link state's too, follow places that grow, but
      for a link state that a connect or disconnect put at the head; and only the link state's
      value can be newer than its place, refreshed while it waited. */
  lemma SendOrderIsPutOrder(cfg: Config, events: seq<Event>, i: nat, j: nat)
    requires i < j < |StateWire(Run(cfg, events).wire)|
    ensures var wire, puts := StateWire(Run(cfg, events).wire), Puts(Run(cfg, events).commands);
            var places := RunOrder(cfg, events).sent;
            && |places| == |wire| && PlacedBy(wire[i], places[i], puts) && PlacedBy(wire[j], places[j], puts)
            && (places[i].Some? && places[j].Some? ==> places[i].value < places[j].value)
            && (wire[i].key != LINK_PATH && wire[j].key != LINK_PATH ==>
                  places[i].Some? && places[j].Some?
                  && puts[places[i].value] == wire[i] && puts[places[j].value] == wire[j])
  {
    RunOrdered(cfg, events);
    hide LaneOrdered, RunOrder, Run, StateWire, Puts;
  }
}
