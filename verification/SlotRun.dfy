/** Joint runs of the load/unload protocol and the editor client: the slot that the protocol
    goes by is the client's, and an operation's outcome is what its own request came to. */
module SlotRun {
  import opened OrderedDict
  import opened OpRecords
  import opened OpEnds
  import OpRun
  import Ed = EditorModel

  // reqs: the client's request of each operation.
  datatype Joint = Joint(s: OpRun.Sys, w: Ed.World, reqs: map<nat, Ed.Request>)

  const START := Joint(OpRun.START, Ed.START, map[])

  // A protocol event, with the answer that comes in it, if one does; or one of the client and
  // its editor alone.
  datatype Event = Protocol(e: OpRun.Event, r: Ed.Request, m: Ed.Reply) | Client(ev: Ed.Event)

  function ActionOf(kind: Kind): Ed.Action {
    if kind == Load then Ed.ProjectReady else Ed.ProjectUnload
  }

  // What an answer makes of the request it ends.
  function OutcomeOf(m: Ed.Reply): Outcome {
    match m
    case Success(_, _) => Replied
    case Error(_, _, message) => if "Timeout:" <= message then EngineTimeout else Refused
  }

  ghost predicate Contains(text: string, part: string) {
    exists k :: 0 <= k <= |text| && part <= text[k..]
  }

  // How the unload handler reads an error.
  ghost function ReasonOf(message: string): Reason {
    if "Timeout:" <= message then EditorSilence
    else if Contains(message, "Cannot unload while running") then ShowRunning
    else EditorFailed
  }

  // The future of an operation's request.
  function FutureOf(j: Joint, i: nat): Ed.Future {
    if i in j.reqs && j.reqs[i].id in j.w.editor.futures then j.w.editor.futures[j.reqs[i].id] else Ed.Waiting
  }

  // What the protocol has the client do, or meets at the client.
  function ClientEvent(j: Joint, e: OpRun.Event, r: Ed.Request, m: Ed.Reply): Option<Ed.Event> {
    match e
    case EditorUp => Some(Ed.Connect)
    case EditorDown => Some(Ed.Disconnect)
    case TrySend =>
      if j.s.asked.Some? && OpRun.SendChecks(j.s, j.s.asked.value.source).None?
      then Some(Ed.Ask(ActionOf(j.s.asked.value.kind), j.s.asked.value.project)) else None
    case SendEnds(ok) =>
      if !ok && j.s.sending.Some? && j.s.slot == j.s.sending && j.s.sending.value in j.reqs
      then Some(Ed.GiveUp(j.reqs[j.s.sending.value])) else None
    case ReplyArrives(_) => Some(Ed.Answer(r, m))
    case _ => None
  }

  // The client's own events: list requests, deliveries, and answers that end no operation's
  // request.
  ghost predicate Own(j: Joint, ev: Ed.Event) {
    match ev
    case Connect => false
    case Disconnect => false
    case Ask(action, _) => !Ed.SingleFlight(action)
    case Arrive(_) => true
    case GiveUp(r) => !Ed.SingleFlight(r.action)
    case Answer(r, m) => forall x :: x in j.w.editor.pending && Ed.SingleFlight(x.action) ==> !Ed.Matches(x, m)
  }

  // An answer arrives for the slot's request exactly if it matches that; and the unload handler
  // reads the message of the error that ended its own.
  ghost predicate Possible(j: Joint, ev: Event) {
    match ev
    case Protocol(e, r, m) =>
      && OpRun.Possible(j.s, e)
      && (ClientEvent(j, e, r, m).Some? ==> Ed.Allowed(j.w, ClientEvent(j, e, r, m).value))
      && (e.ReplyArrives? ==>
            e.out == OutcomeOf(m) && j.s.slot.value in j.reqs && Ed.Matches(j.reqs[j.s.slot.value], m))
      && (e.UnloadEnds? && e.end.ErrorReply? ==>
            var f := FutureOf(j, e.i);
            f.Done? && f.reply.Error? && e.end.reason == ReasonOf(f.reply.message))
    case Client(c) => Ed.Allowed(j.w, c) && Own(j, c)
  }

  function Step(j: Joint, ev: Event): Joint {
    match ev
    case Protocol(e, r, m) =>
      var c := ClientEvent(j, e, r, m);
      Joint(OpRun.Step(j.s, e), if c.Some? then Ed.Step(j.w, c.value) else j.w,
            if c.Some? && c.value.Ask? then j.reqs[|j.s.ops| := Ed.Request(j.w.nextId, c.value.action, c.value.value)]
            else j.reqs)
    case Client(c) => j.(w := Ed.Step(j.w, c))
  }

  ghost predicate Stepped(states: seq<Joint>, events: seq<Event>, k: nat)
    requires k < |events| && k + 1 < |states|
  {
    Possible(states[k], events[k]) && states[k + 1] == Step(states[k], events[k])
  }

  ghost predicate IsRun(states: seq<Joint>, events: seq<Event>) {
    && |states| == |events| + 1 && states[0] == START
    && forall k: nat :: k < |events| ==> Stepped(states, events, k)
  }

  // ------------------------------------------------------------ the invariant

  // A future that is done tells the outcome.
  predicate Tells(f: Ed.Future, out: Outcome) {
    match out
    case Replied => f.Done? && f.reply.Success?
    case EngineTimeout => f.Done? && f.reply.Error? && "Timeout:" <= f.reply.message
    case Refused => f.Done? && f.reply.Error? && !("Timeout:" <= f.reply.message)
    case Dropped => f == Ed.Disconnected
  }

  ghost predicate SlotLinked(slot: Option<nat>, pending: seq<Ed.Request>, reqs: map<nat, Ed.Request>) {
    match slot
    case None => Ed.Outstanding(pending) == None
    case Some(i) => i in reqs && Ed.Outstanding(pending) == Some(reqs[i])
  }

  ghost predicate Known(reqs: map<nat, Ed.Request>, ops: nat, w: Ed.World) {
    forall i :: i in reqs ==>
      i < ops && reqs[i].id < w.nextId && reqs[i].id in w.editor.futures && Ed.SingleFlight(reqs[i].action)
  }

  ghost predicate OutcomesTold(outcomes: map<nat, Outcome>, reqs: map<nat, Ed.Request>, futures: map<nat, Ed.Future>) {
    forall i :: i in outcomes ==> i in reqs && reqs[i].id in futures && Tells(futures[reqs[i].id], outcomes[i])
  }

  ghost predicate Linked(j: Joint) {
    && j.w.editor.connected == j.s.editorUp
    && SlotLinked(j.s.slot, j.w.editor.pending, j.reqs)
    && Known(j.reqs, |j.s.ops|, j.w)
    && OutcomesTold(j.s.outcomes, j.reqs, j.w.editor.futures)
    && (j.s.sending.Some? ==> j.s.sending.value in j.reqs)
  }

  ghost predicate Sound(j: Joint) {
    OpRun.Sound(j.s) && Ed.Tidy(j.w) && Linked(j)
  }

  // ------------------------------------------------------------ what the client keeps

  // A future that is done stays as it is, and none is forgotten.
  lemma DoneStays(w: Ed.World, ev: Ed.Event, id: nat)
    requires id in w.editor.futures && id < w.nextId
    ensures id in Ed.Step(w, ev).editor.futures && w.nextId <= Ed.Step(w, ev).nextId
    ensures w.editor.futures[id] != Ed.Waiting ==> Ed.Step(w, ev).editor.futures[id] == w.editor.futures[id]
  {
    match ev
    case Disconnect => Ed.FailAllEmpties(w.editor, w.editor.pending);
    case Answer(r, m) =>
      var hits := Ed.Hits(w.editor.pending, m);
      DeliverKeepsDone(w.editor, if Ed.FannedOut(m) || hits == [] then hits else hits[..1], m, id);
    case _ =>
  }

  lemma {:induction false} DeliverKeepsDone(e: Ed.Editor, hits: seq<Ed.Request>, m: Ed.Reply, id: nat)
    requires id in e.futures
    ensures id in Ed.Deliver(e, hits, m).futures
    ensures e.futures[id] != Ed.Waiting ==> Ed.Deliver(e, hits, m).futures[id] == e.futures[id]
    ensures Ed.Deliver(e, hits, m).connected == e.connected
  {
    if hits != [] { DeliverKeepsDone(e, hits[..|hits| - 1], m, id); }
  }

  lemma StaysKnown(reqs: map<nat, Ed.Request>, ops: nat, ops': nat, w: Ed.World, ev: Ed.Event)
    requires Known(reqs, ops, w) && ops <= ops'
    ensures Known(reqs, ops', Ed.Step(w, ev))
  {
    forall i | i in reqs
      ensures reqs[i].id < Ed.Step(w, ev).nextId && reqs[i].id in Ed.Step(w, ev).editor.futures
    {
      DoneStays(w, ev, reqs[i].id);
    }
  }

  lemma StaysTold(outcomes: map<nat, Outcome>, reqs: map<nat, Ed.Request>, ops: nat, w: Ed.World, ev: Ed.Event)
    requires OutcomesTold(outcomes, reqs, w.editor.futures) && Known(reqs, ops, w)
    ensures OutcomesTold(outcomes, reqs, Ed.Step(w, ev).editor.futures)
  {
    forall i | i in outcomes
      ensures reqs[i].id in Ed.Step(w, ev).editor.futures
              && Tells(Ed.Step(w, ev).editor.futures[reqs[i].id], outcomes[i])
    {
      DoneStays(w, ev, reqs[i].id);
    }
  }

  // The same engine-bound requests pending, the same one outstanding.
  lemma SameOutstanding(w: Ed.World, w': Ed.World)
    requires Ed.Tidy(w) && Ed.Tidy(w')
    requires forall x: Ed.Request :: Ed.SingleFlight(x.action) ==> (x in w'.editor.pending <==> x in w.editor.pending)
    ensures Ed.Outstanding(w'.editor.pending) == Ed.Outstanding(w.editor.pending)
  {
    var holder := Ed.Outstanding(w.editor.pending);
    if holder.Some? { Ed.OnlyHolder(w'.editor.pending, holder.value); }
  }

  lemma OwnKeepsSlot(j: Joint, ev: Ed.Event)
    requires Ed.Tidy(j.w) && Ed.Allowed(j.w, ev) && Own(j, ev)
    ensures Ed.Outstanding(Ed.Step(j.w, ev).editor.pending) == Ed.Outstanding(j.w.editor.pending)
    ensures Ed.Step(j.w, ev).editor.connected == j.w.editor.connected
  {
    var w, w' := j.w, Ed.Step(j.w, ev);
    Ed.StepTidy(w, ev);
    match ev
    case Ask(action, value) => SameOutstanding(w, w');
    case Arrive(r) =>
    case GiveUp(r) =>
      Ed.GiveUpTidy(w, r);
      SameOutstanding(w, w');
    case Answer(r, m) =>
      Ed.ResolveTidy(w, w', m);
      SameOutstanding(w, w');
      AnswerKeepsConnection(w, m);
  }

  lemma AnswerKeepsConnection(w: Ed.World, m: Ed.Reply)
    ensures Ed.Resolve(w.editor, m).connected == w.editor.connected
  {
    var hits := Ed.Hits(w.editor.pending, m);
    DeliverConnected(w.editor, if Ed.FannedOut(m) || hits == [] then hits else hits[..1], m);
  }

  lemma {:induction false} DeliverConnected(e: Ed.Editor, hits: seq<Ed.Request>, m: Ed.Reply)
    ensures Ed.Deliver(e, hits, m).connected == e.connected
  {
    if hits != [] { DeliverConnected(e, hits[..|hits| - 1], m); }
  }

  // ------------------------------------------------------------ every step keeps it

  lemma ClientSound(j: Joint, ev: Ed.Event)
    requires Sound(j) && Possible(j, Client(ev))
    ensures Sound(Step(j, Client(ev)))
  {
    Ed.StepTidy(j.w, ev);
    OwnKeepsSlot(j, ev);
    StaysKnown(j.reqs, |j.s.ops|, |j.s.ops|, j.w, ev);
    StaysTold(j.s.outcomes, j.reqs, |j.s.ops|, j.w, ev);
    hide OpRun.Sound, Ed.Tidy, Known, OutcomesTold, Ed.Step;
  }

  // A protocol event that does not reach the client.
  lemma QuietLinked(j: Joint, e: OpRun.Event, r: Ed.Request, m: Ed.Reply)
    requires Sound(j) && Possible(j, Protocol(e, r, m)) && ClientEvent(j, e, r, m) == None
    ensures Linked(Step(j, Protocol(e, r, m)))
  {
    OpsGrow(j.s, e);
    hide OpRun.Sound, Ed.Tidy, OutcomesTold, OpRun.Install, OpRun.Status, OpRun.SendChecks;
    hide OpRun.FirstBlock, OpRun.ListedBlock;
    QuietSlot(j, e, r, m);
    hide SlotLinked, OpRun.Step;
  }

  lemma OpsGrow(s: OpRun.Sys, e: OpRun.Event)
    ensures |s.ops| <= |OpRun.Step(s, e).ops|
  {
    hide OpRun.SendChecks, OpRun.FirstBlock, OpRun.ListedBlock;
  }

  lemma QuietSlot(j: Joint, e: OpRun.Event, r: Ed.Request, m: Ed.Reply)
    requires Possible(j, Protocol(e, r, m)) && ClientEvent(j, e, r, m) == None
    requires j.s.sending.Some? ==> j.s.sending.value in j.reqs && j.s.sending.value < |j.s.ops|
    ensures var s' := OpRun.Step(j.s, e);
            s'.slot == j.s.slot && s'.editorUp == j.s.editorUp && s'.outcomes == j.s.outcomes
            && (s'.sending == j.s.sending || s'.sending == None)
  {
    hide OpRun.SendChecks, OpRun.FirstBlock, OpRun.ListedBlock, Ed.Allowed;
    match e
    case TrySend =>
    case SendEnds(ok) =>
      if ok {
        hide OpRun.Install;
        InstallKeeps(j.s.(sending := None, next := None), j.s.sending.value);
      }
    case EngineFrame(f) =>
    case Callback(i) =>
    case BudgetFires(i) =>
    case LostFires(i) =>
    case UnloadEnds(i, end) =>
    case AbortOp(reason) =>
    case _ =>
  }

  lemma InstallKeeps(s: OpRun.Sys, i: nat)
    requires i < |s.ops|
    ensures var s' := OpRun.Install(s, i);
            s'.slot == s.slot && s'.editorUp == s.editorUp && s'.outcomes == s.outcomes && s'.sending == s.sending
  {}

  lemma ToldMore(outcomes: map<nat, Outcome>, reqs: map<nat, Ed.Request>, futures: map<nat, Ed.Future>, i: nat,
                 out: Outcome)
    requires OutcomesTold(outcomes, reqs, futures) && i in reqs && reqs[i].id in futures
    requires Tells(futures[reqs[i].id], out)
    ensures OutcomesTold(outcomes[i := out], reqs, futures)
  {}

  lemma HolderFails(w: Ed.World, x: Ed.Request)
    requires Ed.Tidy(w) && x in w.editor.pending
    ensures var e := Ed.Step(w, Ed.Disconnect).editor;
            x.id in e.futures && e.futures[x.id] == Ed.Disconnected && Ed.Outstanding(e.pending) == None
  {
    Ed.FailAllEmpties(w.editor, w.editor.pending);
    Ed.PendingHasFuture(w, x);
    var k :| 0 <= k < |w.editor.pending| && w.editor.pending[k] == x;
    assert Ed.HasId(w.editor.pending, x.id);
  }

  lemma DownLinked(j: Joint, r: Ed.Request, m: Ed.Reply)
    requires Sound(j) && Possible(j, Protocol(OpRun.EditorDown, r, m))
    ensures Linked(Step(j, Protocol(OpRun.EditorDown, r, m)))
  {
    Ed.FailAllEmpties(j.w.editor, j.w.editor.pending);
    StaysKnown(j.reqs, |j.s.ops|, |j.s.ops|, j.w, Ed.Disconnect);
    StaysTold(j.s.outcomes, j.reqs, |j.s.ops|, j.w, Ed.Disconnect);
    var e := Ed.Step(j.w, Ed.Disconnect).editor;
    assert Ed.Outstanding(e.pending) == None && !e.connected;
    if j.s.slot.Some? {
      var i := j.s.slot.value;
      HolderFails(j.w, j.reqs[i]);
      ToldMore(j.s.outcomes, j.reqs, e.futures, i, Dropped);
    }
    hide OpRun.Sound, Ed.Tidy, Ed.Outstanding, Ed.FailPending, Known, OutcomesTold;
  }

  lemma KnownMore(reqs: map<nat, Ed.Request>, ops: nat, w: Ed.World, x: Ed.Request)
    requires Known(reqs, ops, w) && x.id < w.nextId && x.id in w.editor.futures && Ed.SingleFlight(x.action)
    ensures Known(reqs[ops := x], ops + 1, w)
  {}

  lemma ToldStill(outcomes: map<nat, Outcome>, reqs: map<nat, Ed.Request>, futures: map<nat, Ed.Future>, i: nat,
                  x: Ed.Request)
    requires OutcomesTold(outcomes, reqs, futures) && i !in reqs
    ensures OutcomesTold(outcomes, reqs[i := x], futures)
  {}

  lemma SendLinked(j: Joint, r: Ed.Request, m: Ed.Reply)
    requires Sound(j) && Possible(j, Protocol(OpRun.TrySend, r, m)) && ClientEvent(j, OpRun.TrySend, r, m).Some?
    ensures Linked(Step(j, Protocol(OpRun.TrySend, r, m)))
    ensures j.s.slot == None
  {
    assert j.s.slot == None;
    SentLinked(j);
    hide OpRun.Sound, Ed.Tidy, OpRun.SendChecks, Linked;
  }

  lemma SentLinked(j: Joint)
    requires Ed.Tidy(j.w) && Linked(j) && j.s.slot == None
    requires j.s.asked.Some? && OpRun.SendChecks(j.s, j.s.asked.value.source) == None
    ensures var n, action, value := |j.s.ops|, ActionOf(j.s.asked.value.kind), j.s.asked.value.project;
            Linked(Joint(OpRun.Step(j.s, OpRun.TrySend), Ed.Step(j.w, Ed.Ask(action, value)),
                         j.reqs[n := Ed.Request(j.w.nextId, action, value)]))
  {
    SendRegisters(j, ActionOf(j.s.asked.value.kind), j.s.asked.value.project);
    SendFacts(j.s);
    hide Ed.Tidy, Ed.Outstanding, OpRun.SendChecks, OpRun.Step, Ed.Step, Known, OutcomesTold, ActionOf;
  }

  lemma SendRegisters(j: Joint, action: Ed.Action, value: string)
    requires Ed.Tidy(j.w) && Linked(j) && j.s.slot == None && Ed.SingleFlight(action)
    ensures var n, x, w' := |j.s.ops|, Ed.Request(j.w.nextId, action, value), Ed.Step(j.w, Ed.Ask(action, value));
            && Ed.Outstanding(w'.editor.pending) == Some(x) && w'.editor.connected == j.w.editor.connected
            && Known(j.reqs[n := x], n + 1, w') && OutcomesTold(j.s.outcomes, j.reqs[n := x], w'.editor.futures)
  {
    var n, x, ask := |j.s.ops|, Ed.Request(j.w.nextId, action, value), Ed.Ask(action, value);
    var w' := Ed.Step(j.w, ask);
    Ed.StepTidy(j.w, ask);
    Ed.AskRegisters(j.w, action, value);
    AskKnows(j.w, action, value);
    StaysKnown(j.reqs, n, n, j.w, ask);
    StaysTold(j.s.outcomes, j.reqs, n, j.w, ask);
    KnownMore(j.reqs, n, w', x);
    ToldStill(j.s.outcomes, j.reqs, w'.editor.futures, n, x);
  }

  lemma AskKnows(w: Ed.World, action: Ed.Action, value: string)
    requires Ed.SingleFlight(action) && Ed.Outstanding(w.editor.pending) == None
    ensures var w' := Ed.Step(w, Ed.Ask(action, value));
            w'.nextId == w.nextId + 1 && w.nextId in w'.editor.futures && w'.editor.connected == w.editor.connected
  {}

  lemma SendFacts(s: OpRun.Sys)
    requires s.asked.Some? && OpRun.SendChecks(s, s.asked.value.source) == None
    ensures var s' := OpRun.Step(s, OpRun.TrySend);
            && s'.slot == Some(|s.ops|) && s'.sending == Some(|s.ops|) && |s'.ops| == |s.ops| + 1
            && s'.outcomes == s.outcomes && s'.editorUp == s.editorUp
  {
    hide OpRun.SendChecks;
  }

  lemma GaveUpLinked(j: Joint, r: Ed.Request, m: Ed.Reply)
    requires Sound(j) && Possible(j, Protocol(OpRun.SendEnds(false), r, m))
    requires ClientEvent(j, OpRun.SendEnds(false), r, m).Some?
    ensures Linked(Step(j, Protocol(OpRun.SendEnds(false), r, m)))
  {
    var x := j.reqs[j.s.sending.value];
    Ed.GiveUpTidy(j.w, x);
    NoneLeft(j.w, Ed.Step(j.w, Ed.GiveUp(x)), x);
    StaysKnown(j.reqs, |j.s.ops|, |j.s.ops|, j.w, Ed.GiveUp(x));
    StaysTold(j.s.outcomes, j.reqs, |j.s.ops|, j.w, Ed.GiveUp(x));
    hide OpRun.Sound, Ed.Tidy, Ed.Outstanding, Known, OutcomesTold;
  }

  lemma NoneLeft(w: Ed.World, w': Ed.World, x: Ed.Request)
    requires Ed.Tidy(w) && x in w.editor.pending && Ed.SingleFlight(x.action)
    requires forall y :: y in w'.editor.pending ==> y in w.editor.pending && y != x
    ensures Ed.Outstanding(w'.editor.pending) == None
  {
    var other := Ed.Outstanding(w'.editor.pending);
    if other.Some? { Ed.OneSingleFlight(w, x, other.value); }
  }

  lemma RepliedLinked(j: Joint, out: Outcome, r: Ed.Request, m: Ed.Reply)
    requires Sound(j) && Possible(j, Protocol(OpRun.ReplyArrives(out), r, m))
    ensures Linked(Step(j, Protocol(OpRun.ReplyArrives(out), r, m)))
  {
    var i := j.s.slot.value;
    Ed.ReplyFindsItsRequest(j.w, j.reqs[i], m);
    AnswerKeepsConnection(j.w, m);
    StaysKnown(j.reqs, |j.s.ops|, |j.s.ops|, j.w, Ed.Answer(r, m));
    StaysTold(j.s.outcomes, j.reqs, |j.s.ops|, j.w, Ed.Answer(r, m));
    ToldMore(j.s.outcomes, j.reqs, Ed.Step(j.w, Ed.Answer(r, m)).editor.futures, i, out);
    hide OpRun.Sound, Ed.Tidy, Ed.Outstanding, Ed.Resolve, Known, OutcomesTold;
  }

  lemma ProtocolLinked(j: Joint, e: OpRun.Event, r: Ed.Request, m: Ed.Reply)
    requires Sound(j) && Possible(j, Protocol(e, r, m))
    ensures Linked(Step(j, Protocol(e, r, m)))
  {
    if ClientEvent(j, e, r, m) == None {
      QuietLinked(j, e, r, m);
    } else {
      match e
      case EditorUp => UpLinked(j, r, m);
      case EditorDown => DownLinked(j, r, m);
      case TrySend => SendLinked(j, r, m);
      case SendEnds(ok) => GaveUpLinked(j, r, m);
      case ReplyArrives(out) => RepliedLinked(j, out, r, m);
    }
  }

  lemma UpLinked(j: Joint, r: Ed.Request, m: Ed.Reply)
    requires Sound(j) && Possible(j, Protocol(OpRun.EditorUp, r, m))
    ensures Linked(Step(j, Protocol(OpRun.EditorUp, r, m)))
  {}

  lemma StepSound(j: Joint, ev: Event)
    requires Sound(j) && Possible(j, ev)
    ensures Sound(Step(j, ev))
  {
    match ev
    case Protocol(e, r, m) =>
      ProtocolLinked(j, e, r, m);
      OpRun.StepSound(j.s, e);
      if ClientEvent(j, e, r, m).Some? { Ed.StepTidy(j.w, ClientEvent(j, e, r, m).value); }
      hide Linked, OpRun.Sound, Ed.Tidy, ClientEvent;
    case Client(c) => ClientSound(j, c);
  }

  lemma {:induction false} RunSound(states: seq<Joint>, events: seq<Event>, n: nat)
    requires IsRun(states, events) && n < |states|
    ensures Sound(states[n])
  {
    if n > 0 {
      RunSound(states, events, n - 1);
      assert Stepped(states, events, n - 1);
      hide Sound, Step, Possible;
      StepSound(states[n - 1], events[n - 1]);
    }
  }

  // ------------------------------------------------------------ over every joint run

  /** The protocol's slot is the client's: it is taken exactly while the client has an
      engine-bound request outstanding, that of the same operation, and registering another is
      refused exactly then; and both know the editor to be there at the same times. */
  lemma SlotIsTheClients(states: seq<Joint>, events: seq<Event>, n: nat, id: nat, action: Ed.Action, value: string)
    requires IsRun(states, events) && n < |states| && Ed.SingleFlight(action)
    ensures var j := states[n];
            && j.s.editorUp == j.w.editor.connected
            && (j.s.slot.Some? <==> Ed.Outstanding(j.w.editor.pending).Some?)
            && (j.s.slot.Some? ==>
                  j.s.slot.value in j.reqs && Ed.Outstanding(j.w.editor.pending) == Some(j.reqs[j.s.slot.value]))
            && (Ed.Register(j.w.editor, id, action, value) == None <==> j.s.slot.Some?)
  {
    RunSound(states, events, n);
    hide OpRun.Sound, Ed.Tidy;
  }

  /** An operation's outcome is what became of its own request: the answer that ended it, or the
      loss of its socket. */
  lemma OutcomeIsItsRequests(states: seq<Joint>, events: seq<Event>, n: nat, i: nat)
    requires IsRun(states, events) && n < |states| && i in states[n].s.outcomes
    ensures var j := states[n];
            && i in j.reqs && j.reqs[i].id in j.w.editor.futures
            && Tells(j.w.editor.futures[j.reqs[i].id], j.s.outcomes[i])
  {
    RunSound(states, events, n);
    hide OpRun.Sound, Ed.Tidy;
  }

  /** Every send is registered with the client alone: none is outstanding before, its own is
      after, whatever was awaited since its first checks. */
  lemma SendsRegister(states: seq<Joint>, events: seq<Event>, n: nat, r: Ed.Request, m: Ed.Reply)
    requires IsRun(states, events) && n < |states| && Possible(states[n], Protocol(OpRun.TrySend, r, m))
    requires OpRun.Step(states[n].s, OpRun.TrySend).sends != states[n].s.sends
    ensures var j, j' := states[n], Step(states[n], Protocol(OpRun.TrySend, r, m));
            && Ed.Outstanding(j.w.editor.pending) == None && j.w.editor.connected
            && |j.s.ops| in j'.reqs && Ed.Outstanding(j'.w.editor.pending) == Some(j'.reqs[|j.s.ops|])
            && j'.reqs[|j.s.ops|].action == (if j.s.asked.value.kind == Load then Ed.ProjectReady else Ed.ProjectUnload)
            && j'.reqs[|j.s.ops|].value == j.s.asked.value.project
  {
    RunSound(states, events, n);
    var j := states[n];
    SendLinked(j, r, m);
    hide OpRun.Sound, Ed.Tidy;
  }

  // ------------------------------------------------------------ what an answer makes of its operation

  lemma {:induction false} RunCaused(states: seq<Joint>, events: seq<Event>, n: nat)
    requires IsRun(states, events) && n < |states|
    ensures Caused(states[n].s) && GraceForLoads(states[n].s)
  {
    if n > 0 {
      RunCaused(states, events, n - 1);
      RunSound(states, events, n - 1);
      assert Stepped(states, events, n - 1);
      ShapeOf(states[n - 1].s);
      hide Caused, GraceForLoads, Sound, IsRun, ClientEvent, Own;
      hide OpRun.Step, OpRun.Possible, OpRun.Sound, OpRun.Shape, Ed.Step, Ed.Allowed;
      if events[n - 1].Protocol? {
        StepCaused(states[n - 1].s, events[n - 1].e);
        StepGrace(states[n - 1].s, events[n - 1].e);
      }
    }
  }

  // An outcome tells of the future, in every run.
  lemma OutcomeTells(states: seq<Joint>, events: seq<Event>, n: nat, i: nat)
    requires IsRun(states, events) && n < |states|
    ensures i in states[n].s.outcomes ==> Tells(FutureOf(states[n], i), states[n].s.outcomes[i])
  {
    if i in states[n].s.outcomes { OutcomeIsItsRequests(states, events, n, i); }
    hide IsRun, Tells;
  }

  /** In every joint run: an operation is unloaded only if its own request was answered with a
      success; it has failed of the editor only if its own request was answered with an error
      that is no timeout; and what it shows of the editor is what became of its own request. */
  lemma EndsAreAnswered(states: seq<Joint>, events: seq<Event>, n: nat, i: nat)
    requires IsRun(states, events) && n < |states| && i < |states[n].s.ops|
    ensures var o, f := states[n].s.ops[i], FutureOf(states[n], i);
            && (o.state == Unloaded ==> o.kind == Unload && f.Done? && f.reply.Success?)
            && (o.reason == EditorFailed ==>
                  o.state == Failed && f.Done? && f.reply.Error? && !("Timeout:" <= f.reply.message))
            && (o.reason == EditorUnavailable ==> o.state == Failed && f == Ed.Disconnected)
            && (o.editor == Ok ==> f.Done? && f.reply.Success?)
            && (o.editor == TimedOut ==> f.Done? && f.reply.Error? && "Timeout:" <= f.reply.message)
            && (o.editor == EditorError ==> f.Done? && f.reply.Error? && !("Timeout:" <= f.reply.message))
            && (o.editor == Lost ==> f == Ed.Disconnected)
  {
    RunCaused(states, events, n);
    OutcomeTells(states, events, n, i);
    assert CausedBy(states[n].s.ops[i], OutcomeAt(states[n].s, i), i in states[n].s.told);
    hide IsRun, Caused, FutureOf;
  }

  /** The unload handler's end, in every joint run: on a success it leaves the operation
      unloaded, and on an error, a lost socket or its own timeout failed, each with its reason;
      one that has failed or was superseded meanwhile it leaves alone. */
  lemma UnloadEndMeans(states: seq<Joint>, events: seq<Event>, n: nat, i: nat, end: UnloadEnd, r: Ed.Request,
                       m: Ed.Reply)
    requires IsRun(states, events) && n < |states| && Possible(states[n], Protocol(OpRun.UnloadEnds(i, end), r, m))
    ensures var j, j' := states[n], Step(states[n], Protocol(OpRun.UnloadEnds(i, end), r, m));
            && i < |j.s.ops| == |j'.s.ops|
            && var o, o', f := j.s.ops[i], j'.s.ops[i], FutureOf(j, i);
               if o.state == Failed || o.state == Superseded then o' == o
               else
                 && o'.done && o'.timers == Timers(false, false, false)
                 && if end == EditorSilent then o'.state == Failed && o'.reason == EditorSilence
                    else if f.Disconnected? then o'.state == Failed && o'.reason == EditorUnavailable
                    else
                      && f.Done?
                      && (f.reply.Success? ==> o'.state == Unloaded && o'.reason == NoReason)
                      && (f.reply.Error? ==>
                            && o'.state == Failed
                            && o'.reason == if "Timeout:" <= f.reply.message then EditorSilence
                                            else if Contains(f.reply.message, "Cannot unload while running")
                                            then ShowRunning else EditorFailed)
  {
    OutcomeTells(states, events, n, i);
    hide IsRun, FutureOf, Contains;
    EndMeans(states[n].s.ops[i], end);
    hide EndUnload;
  }

  lemma EndMeans(o: Op, end: UnloadEnd)
    ensures var o' := EndUnload(o, end);
            if o.state == Failed || o.state == Superseded then o' == o
            else o' == o.(state := EndState(end), reason := EndReason(end), timers := NO_TIMERS, done := true)
  {
    assert EndUnload(o, end) == Finish(o, EndState(end), EndReason(end));
  }

  /** The callback of an operation's request, in every joint run: a definitive error fails a
      load, whatever it had come to, unless that is final; a timeout of the editor's, a success
      and a lost socket leave its state, the last with the grace running for the current load. */
  lemma CallbackMeans(states: seq<Joint>, events: seq<Event>, n: nat, i: nat, r: Ed.Request, m: Ed.Reply)
    requires IsRun(states, events) && n < |states| && Possible(states[n], Protocol(OpRun.Callback(i), r, m))
    ensures var j, j' := states[n], Step(states[n], Protocol(OpRun.Callback(i), r, m));
            && i < |j.s.ops| == |j'.s.ops|
            && var o, o', f := j.s.ops[i], j'.s.ops[i], FutureOf(j, i);
               && (f.Done? || f == Ed.Disconnected)
               && (f.Done? && f.reply.Success? ==> o' == o.(editor := Ok))
               && (f.Done? && f.reply.Error? && "Timeout:" <= f.reply.message ==> o' == o.(editor := TimedOut))
               && (f.Done? && f.reply.Error? && !("Timeout:" <= f.reply.message) ==>
                     if o.kind == Load && o.state != Failed && o.state != Superseded
                     then o' == o.(editor := EditorError, state := Failed, reason := EditorFailed, done := true,
                                   timers := Timers(false, false, false))
                     else o' == o.(editor := EditorError))
               && (f == Ed.Disconnected ==>
                     o' == if j.s.op == Some(i) && o.state == Loading && o.kind == Load
                           then o.(editor := Lost, timers := o.timers.(editorLost := true))
                           else o.(editor := Lost))
  {
    RunSound(states, events, n);
    ShapeOf(states[n].s);
    OutcomeTells(states, events, n, i);
    hide IsRun, FutureOf, Sound, OpRun.Sound;
    ReplyMeans(states[n].s.ops[i], states[n].s.outcomes[i], states[n].s.op == Some(i));
    hide OnReply;
  }

  lemma ReplyMeans(o: Op, out: Outcome, isCurrent: bool)
    ensures OnReply(o, out, isCurrent)
            == match out
               case Replied => o.(editor := Ok)
               case EngineTimeout => o.(editor := TimedOut)
               case Refused =>
                 if o.kind == Load && o.state != Failed && o.state != Superseded
                 then o.(editor := EditorError, state := Failed, reason := EditorFailed, done := true,
                         timers := Timers(false, false, false))
                 else o.(editor := EditorError)
               case Dropped =>
                 if isCurrent && o.state == Loading && o.kind == Load
                 then o.(editor := Lost, timers := o.timers.(editorLost := true)) else o.(editor := Lost)
  {
    match out
    case Refused => if o.kind == Load && o.state != Failed && o.state != Superseded {} else {}
    case Dropped =>
      hide Finish;
      if isCurrent && o.state == Loading && o.kind == Load {} else {}
    case _ => hide Finish;
  }
}
