/** Runs of the load/unload protocol: operator and auto-load operations share one editor slot
    and one current operation, while engine frames, replies, disconnects and timers come in
    any order between their await points. */
module OpRun {
  import opened OrderedDict
  import opened Osc
  import opened EngineState
  import opened OpRecords

  datatype EngineEvent = Up | Down | Got(f: Frame)

  datatype Refusal = ShutdownInProgress | EngineUnknown | EditorDownRefusal | Running | RequestPending

  // A request that holds the operations' lock while it awaits; `listed`: past the project list.
  datatype Ask = Ask(source: Source, kind: Kind, project: string, unixName: string, reload: bool, forced: bool,
                     missing: bool, listed: bool)

  // What a request comes to before it would send.
  datatype Answer = Refuse(why: Refusal) | Join(i: nat) | AlreadyLoaded | AlreadyUnloaded | GoOn

  // The state a send starts from.
  datatype Snapshot = Snapshot(source: Source, eng: Cache, editorUp: bool, shuttingDown: bool, slot: Option<nat>)

  // ops: every operation created, by number; born: how much engine history there was then.
  // op: the current one; next: the load being sent; slot: whose request the editor holds.
  datatype Sys = Sys(
    eng: Cache,
    history: seq<EngineEvent>,
    ops: seq<Op>,
    born: seq<nat>,
    op: Option<nat>,
    next: Option<nat>,
    asked: Option<Ask>,
    sending: Option<nat>,
    installed: set<nat>,
    slot: Option<nat>,
    outcomes: map<nat, Outcome>,
    told: set<nat>,
    ended: set<nat>,
    editorUp: bool,
    shuttingDown: bool,
    sends: seq<Snapshot>
  )

  const START := Sys(DOWN, [], [], [], None, None, None, None, {}, None, map[], {}, {}, false, false, [])

  datatype Event =
    | EngineUp
    | EngineDown
    | EngineFrame(f: Frame)
    | EditorUp
    | EditorDown
    | ShutdownLock(held: bool)
    | AskBegins(a: Ask)
    | AskListed
    | AskDropped
    | TrySend
    | SendEnds(ok: bool)
    | ReplyArrives(out: Outcome)
    | Callback(i: nat)
    | BudgetFires(i: nat)
    | LostFires(i: nat)
    | UnloadEnds(i: nat, end: UnloadEnd)
    | AbortOp(reason: Reason)

  // ProjectOps._base_checks
  function BaseChecks(s: Sys): Option<Refusal> {
    if s.shuttingDown then Some(ShutdownInProgress)
    else if !IsKnown(s.eng) then Some(EngineUnknown)
    else if !s.editorUp then Some(EditorDownRefusal)
    else if ProjectRunning(s.eng) then Some(Running)
    else None
  }

  predicate InFlight(s: Sys) {
    s.op.Some? && s.op.value < |s.ops| && s.ops[s.op.value].state == Loading
  }

  // ProjectOps._joinable
  predicate Joinable(s: Sys, project: string) {
    && InFlight(s)
    && var o := s.ops[s.op.value];
       o.kind == Load && o.project == project && !o.overdue && (o.editor == Pending || o.editor == Ok)
  }

  // ProjectOps._fresh_noop: a load is answered "already loaded" without sending.
  predicate FreshNoop(s: Sys, name: string) {
    && !InFlight(s)
    && s.eng.load == name && s.eng.armed == "yes" && s.eng.freshArm
    && !(s.eng.warning.Some? && s.eng.warning.value.project == name && s.eng.warning.value.unreachable)
    && !(s.op.Some? && s.op.value < |s.ops|
         && var o := s.ops[s.op.value];
            o.kind == Load && o.unixName == name && o.accepted && (o.forced || IsDegraded(o, s.eng)))
  }

  // The first block of a request: auto-load checks nothing yet, and a load then awaits the
  // project list.
  function FirstBlock(s: Sys, a: Ask): Answer {
    if a.source == AutoLoad then GoOn
    else if BaseChecks(s).Some? then Refuse(BaseChecks(s).value)
    else if a.kind == Load then GoOn
    else if s.slot.Some? then Refuse(RequestPending)
    else if s.eng.load == "" && !InFlight(s) then AlreadyUnloaded
    else GoOn
  }

  // An operator's load, once the list is there; the node check is awaited after it.
  function ListedBlock(s: Sys, a: Ask): Answer {
    if !a.reload && Joinable(s, a.project) then Join(s.op.value)
    else if s.slot.Some? then Refuse(RequestPending)
    else if !a.reload && FreshNoop(s, a.unixName) then AlreadyLoaded
    else GoOn
  }

  // The checks in the block that registers and sends; auto-load's are fewer.
  function SendChecks(s: Sys, source: Source): Option<Refusal> {
    var base := match source
                case Operator => BaseChecks(s)
                case AutoLoad => if !s.editorUp then Some(EditorDownRefusal)
                                 else if ProjectRunning(s.eng) then Some(Running) else None;
    if base.Some? then base else if s.slot.Some? then Some(RequestPending) else None
  }

  // Register, and start sending: the op of a load is watched from here on.
  function BeginSend(s: Sys, o: Op): Sys {
    var i := |s.ops|;
    s.(ops := s.ops + [o], born := s.born + [|s.history|], sending := Some(i), slot := Some(i),
       next := if o.kind == Load then Some(i) else None,
       sends := s.sends + [Snapshot(o.source, s.eng, s.editorUp, s.shuttingDown, s.slot)])
  }

  // ProjectOps._install
  function Install(s: Sys, i: nat): Sys
    requires i < |s.ops|
  {
    var ops1 := match s.op
                case Some(j) => if j < |s.ops| && j != i then s.ops[j := Supersede(s.ops[j])] else s.ops
                case None => s.ops;
    s.(ops := ops1[i := Installed(ops1[i])], op := Some(i), installed := s.installed + {i})
  }

  // The frame is applied to the cache first, then to the op being sent and the current one.
  function Status(s: Sys, f: Frame): Sys {
    var eng := ApplyStatus(s.eng, f);
    s.(eng := eng, history := s.history + [Got(f)],
       ops := seq(|s.ops|, i requires 0 <= i < |s.ops| =>
                    if Some(i) == s.next || Some(i) == s.op then OnStatus(s.ops[i], SignalOf(f), eng) else s.ops[i]))
  }

  function Update(s: Sys, i: nat, o: Op): Sys
    requires i < |s.ops|
  {
    s.(ops := s.ops[i := o])
  }

  // The slot's request ends; its future's callback comes later.
  function EndRequest(s: Sys, out: Outcome): Sys {
    match s.slot
    case Some(i) => s.(slot := None, outcomes := s.outcomes[i := out])
    case None => s
  }

  // The unload handler acts on how its request ended, or on its own timeout.
  predicate EndsSo(s: Sys, i: nat, end: UnloadEnd) {
    match end
    case EditorGone => i in s.outcomes && s.outcomes[i] == Dropped
    case EditorSilent => true
    case ErrorReply(reason) =>
      && i in s.outcomes
      && ((s.outcomes[i] == EngineTimeout && reason == EditorSilence)
          || (s.outcomes[i] == Refused && (reason == ShowRunning || reason == EditorFailed)))
    case UnloadOk => i in s.outcomes && s.outcomes[i] == Replied
  }

  predicate Possible(s: Sys, e: Event) {
    match e
    case EngineUp => !s.eng.connected
    case EngineDown => s.eng.connected
    case EngineFrame(_) => s.eng.connected
    case EditorUp => !s.editorUp
    case EditorDown => s.editorUp
    case ShutdownLock(_) => true
    case AskBegins(a) => s.asked == None && s.sending == None && (a.source == AutoLoad ==> a.kind == Load)
    case AskListed => s.asked.Some? && !s.asked.value.listed
    case AskDropped => s.asked.Some?
    case TrySend => s.asked.Some? && s.asked.value.listed
    case SendEnds(_) => s.sending.Some?
    case ReplyArrives(out) => s.slot.Some? && s.editorUp && out != Dropped
    case Callback(i) => i in s.installed && i in s.outcomes && i !in s.told
    case BudgetFires(i) => i < |s.ops| && s.ops[i].timers.budget
    case LostFires(i) => i < |s.ops| && s.ops[i].timers.editorLost
    case UnloadEnds(i, end) =>
      i in s.installed && i < |s.ops| && s.ops[i].kind == Unload && i !in s.ended && EndsSo(s, i, end)
    case AbortOp(reason) => reason == Shutdown
  }

  function Step(s: Sys, e: Event): Sys {
    match e
    case EngineUp => s.(eng := s.eng.(connected := true), history := s.history + [Up])
    case EngineDown => s.(eng := DOWN, history := s.history + [Down])
    case EngineFrame(f) => Status(s, f)
    case EditorUp => s.(editorUp := true)
    case EditorDown => EndRequest(s, Dropped).(editorUp := false)
    case ShutdownLock(held) => s.(shuttingDown := held)
    case AskBegins(a) =>
      if FirstBlock(s, a) == GoOn
      then s.(asked := Some(a.(listed := a.source == AutoLoad || a.kind == Unload))) else s
    case AskListed =>
      (match s.asked
       case Some(a) => s.(asked := if ListedBlock(s, a) == GoOn then Some(a.(listed := true)) else None)
       case None => s)
    case AskDropped => s.(asked := None)
    case TrySend =>
      (match s.asked
       case None => s
       case Some(a) =>
         if SendChecks(s, a.source).Some? then s.(asked := None)
         else BeginSend(s.(asked := None), NewOp(a.source, a.kind, a.project, a.unixName, a.forced, a.missing)))
    case SendEnds(ok) =>
      (match s.sending
       case None => s
       case Some(i) =>
         var s1 := s.(sending := None, next := None);
         if ok && i < |s.ops| then Install(s1, i)
         else if s.slot == Some(i) then s1.(slot := None) else s1)
    case ReplyArrives(out) => EndRequest(s, out)
    case Callback(i) =>
      if i < |s.ops| && i in s.outcomes
      then Update(s, i, OnReply(s.ops[i], s.outcomes[i], s.op == Some(i))).(told := s.told + {i}) else s
    case BudgetFires(i) =>
      if i < |s.ops| then Update(s, i, BudgetFired(s.ops[i])) else s
    case LostFires(i) =>
      if i < |s.ops| then Update(s, i, LostFired(s.ops[i], s.op == Some(i))) else s
    case UnloadEnds(i, end) =>
      if i < |s.ops| then Update(s, i, EndUnload(s.ops[i], end)).(ended := s.ended + {i}) else s
    case AbortOp(reason) =>
      (match s.op
       case Some(i) => if i < |s.ops| then Update(s, i, Abort(s.ops[i], reason)) else s
       case None => s)
  }

  // The k-th event of a run.
  ghost predicate Stepped(states: seq<Sys>, events: seq<Event>, k: nat)
    requires k < |events| && k + 1 < |states|
  {
    Possible(states[k], events[k]) && states[k + 1] == Step(states[k], events[k])
  }

  // A run: the states after none of its events, after the first, and so on.
  ghost predicate IsRun(states: seq<Sys>, events: seq<Event>) {
    && |states| == |events| + 1 && states[0] == START
    && forall k: nat :: k < |events| ==> Stepped(states, events, k)
  }

  // ------------------------------------------------------------ engine history

  function CacheOf(h: seq<EngineEvent>): Cache {
    if h == [] then DOWN
    else
      match h[|h| - 1]
      case Up => CacheOf(h[..|h| - 1]).(connected := true)
      case Down => DOWN
      case Got(f) => ApplyStatus(CacheOf(h[..|h| - 1]), f)
  }

  // An `armed` frame other than yes, or yes.
  ghost predicate ArmFrame(h: seq<EngineEvent>, i: int, yes: bool) {
    0 <= i < |h| && h[i].Got? && h[i].f.key == "armed" && (Str(h[i].f.value) == "yes") == yes
  }

  // After i the arm had dropped, and at n the engine was armed with `name` loaded.
  ghost predicate Evidence(h: seq<EngineEvent>, born: nat, name: string, i: int, n: int) {
    && born <= i < n <= |h| && ArmFrame(h, i, false)
    && CacheOf(h[..n]).armed == "yes" && CacheOf(h[..n]).load == name
  }

  ghost predicate SawDrop(h: seq<EngineEvent>, born: nat) {
    exists i :: born <= i && ArmFrame(h, i, false)
  }

  ghost predicate Proven(h: seq<EngineEvent>, born: nat, name: string) {
    exists i, n :: Evidence(h, born, name, i, n)
  }

  lemma CacheNext(h: seq<EngineEvent>, x: EngineEvent)
    ensures CacheOf(h + [x]) == match x
                                case Up => CacheOf(h).(connected := true)
                                case Down => DOWN
                                case Got(f) => ApplyStatus(CacheOf(h), f)
  {
    assert (h + [x])[..|h|] == h;
  }

  lemma HistoryGrows(h: seq<EngineEvent>, x: EngineEvent, born: nat, name: string)
    ensures SawDrop(h, born) ==> SawDrop(h + [x], born)
    ensures Proven(h, born, name) ==> Proven(h + [x], born, name)
  {
    if i :| born <= i && ArmFrame(h, i, false) { assert ArmFrame(h + [x], i, false); }
    if i, n :| Evidence(h, born, name, i, n) {
      assert (h + [x])[..n] == h[..n];
      assert Evidence(h + [x], born, name, i, n);
    }
  }

  /** A cached `armed` of yes comes from an `armed` yes frame after which no other came. */
  lemma {:induction false} ArmedFrom(h: seq<EngineEvent>) returns (j: int)
    requires CacheOf(h).armed == "yes"
    ensures ArmFrame(h, j, true) && forall k :: j < k < |h| ==> !ArmFrame(h, k, false)
  {
    var n := |h| - 1;
    if ArmFrame(h, n, true) { return n; }
    j := ArmedFrom(h[..n]);
    forall k | j < k < |h| ensures !ArmFrame(h, k, false) {
      if k < n { assert !ArmFrame(h[..n], k, false); }
    }
  }

  // ------------------------------------------------------------ the invariant

  ghost predicate Shape(s: Sys) {
    && |s.born| == |s.ops|
    && (forall i :: i in s.installed ==> i < |s.ops|)
    && (s.sending.Some? ==> s.sending.value < |s.ops| && s.sending.value !in s.installed)
    && (s.next.Some? ==> s.next == s.sending)
    && !(s.asked.Some? && s.sending.Some?)
    && (s.sending.Some? && s.ops[s.sending.value].kind == Load ==> s.next == s.sending)
    && (s.op.Some? ==> s.op.value in s.installed)
    && (s.op.None? ==> s.installed == {})
    && (forall i :: 0 <= i < |s.ops| ==> s.born[i] <= |s.history|)
    && s.eng == CacheOf(s.history)
  }

  predicate Tracked(s: Sys, i: nat) {
    s.op == Some(i) || s.next == Some(i)
  }

  // What holds of operation i.
  ghost predicate OpSound(s: Sys, i: nat)
    requires i < |s.ops| && i < |s.born|
  {
    var o := s.ops[i];
    && OpOk(o)
    && (i in s.installed && s.op != Some(i) ==> o.state != Loading)
    && (Tracked(s, i) ==> NotMissed(o, s.eng))
    && (o.sawNotArmed ==> SawDrop(s.history, s.born[i]))
    && (o.accepted ==> Proven(s.history, s.born[i], o.unixName))
    && (o.kind == Unload && o.state == Unloaded ==> i in s.ended)
  }

  ghost predicate Guarded(x: Snapshot) {
    && x.slot == None && x.editorUp && !ProjectRunning(x.eng)
    && (x.source == Operator ==> IsKnown(x.eng) && !x.shuttingDown)
  }

  ghost predicate Sound(s: Sys) {
    && Shape(s)
    && (forall i :: 0 <= i < |s.ops| ==> OpSound(s, i))
    && (forall k :: 0 <= k < |s.sends| ==> Guarded(s.sends[k]))
  }

  // ------------------------------------------------------------ every step keeps it

  // A step that grows the history by x and leaves the ops alone.
  lemma HistorySound(s: Sys, x: EngineEvent)
    requires Sound(s) && (x == Down || x == Up)
    ensures Sound(s.(eng := CacheOf(s.history + [x]), history := s.history + [x]))
  {
    var s' := s.(eng := CacheOf(s.history + [x]), history := s.history + [x]);
    CacheNext(s.history, x);
    forall i | 0 <= i < |s.ops| ensures OpSound(s', i) {
      assert OpSound(s, i);
      HistoryGrows(s.history, x, s.born[i], s.ops[i].unixName);
    }
  }

  lemma IgnoredKeeps(c: Cache, f: Frame)
    requires SignalOf(f) == Ignored
    ensures ApplyStatus(c, f).armed == c.armed && ApplyStatus(c, f).load == c.load
  {}

  lemma FrameOpSound(s: Sys, f: Frame, i: nat)
    requires Sound(s) && i < |s.ops|
    ensures OpSound(Status(s, f), i)
  {
    var s' := Status(s, f);
    var h, h', b := s.history, s.history + [Got(f)], s.born[i];
    var o, o' := s.ops[i], s'.ops[i];
    CacheNext(h, Got(f));
    assert OpSound(s, i);
    HistoryGrows(h, Got(f), b, o.unixName);
    if Tracked(s, i) {
      TrackedFrame(s, f, i);
    }
  }

  lemma TrackedFrame(s: Sys, f: Frame, i: nat)
    requires Shape(s) && i < |s.ops| && OpSound(s, i) && Tracked(s, i)
    ensures OpSound(Status(s, f), i)
  {
    var s' := Status(s, f);
    var h, h', b := s.history, s.history + [Got(f)], s.born[i];
    var o, sig := s.ops[i], SignalOf(f);
    var o' := OnStatus(o, sig, s'.eng);
    assert s'.ops[i] == o';
    CacheNext(h, Got(f));
    StatusLife(o, sig, s'.eng);
    AcceptedIff(o, sig, s'.eng);
    StatusFacts(o, sig, s'.eng);
    HistoryGrows(h, Got(f), b, o.unixName);
    hide OnStatus, ApplyStatus, OpOk, Moves;
    if sig == Ignored {
      IgnoredKeeps(s.eng, f);
      assert o' == o;
    } else if o'.accepted && !o.accepted {
      AcceptanceProven(h, f, b, o, s'.eng);
    }
    if sig == ArmedNot {
      ArmNotFrame(f);
      assert ArmFrame(h', |h|, false);
    }
  }

  lemma ArmNotFrame(f: Frame)
    requires SignalOf(f) == ArmedNot
    ensures f.key == "armed" && Str(f.value) != "yes"
    ensures forall c :: ApplyStatus(c, f).armed != "yes"
  {}

  // The acceptance is backed by a drop seen earlier and the arm now.
  lemma AcceptanceProven(h: seq<EngineEvent>, f: Frame, b: nat, o: Op, eng: Cache)
    requires b <= |h| && eng == CacheOf(h + [Got(f)]) && eng.armed == "yes"
    requires o.sawNotArmed || SignalOf(f) == ArmedNot
    requires o.sawNotArmed ==> SawDrop(h, b)
    ensures Proven(h + [Got(f)], b, eng.load)
  {
    ArmedIsNoDrop(h, f);
    DropThenArmed(h, h + [Got(f)], b);
  }

  lemma ArmedIsNoDrop(h: seq<EngineEvent>, f: Frame)
    requires CacheOf(h + [Got(f)]).armed == "yes"
    ensures SignalOf(f) != ArmedNot
  {
    CacheNext(h, Got(f));
    if SignalOf(f) == ArmedNot { ArmNotFrame(f); }
  }

  lemma DropThenArmed(h: seq<EngineEvent>, h': seq<EngineEvent>, b: nat)
    requires SawDrop(h, b) && |h'| == |h| + 1 && h'[..|h|] == h && CacheOf(h').armed == "yes"
    ensures Proven(h', b, CacheOf(h').load)
  {
    hide CacheOf;
    var i :| b <= i && ArmFrame(h, i, false);
    assert h'[i] == h'[..|h|][i] && h'[..|h'|] == h';
    assert Evidence(h', b, CacheOf(h').load, i, |h'|);
  }

  lemma FrameSound(s: Sys, f: Frame)
    requires Sound(s)
    ensures Sound(Status(s, f))
  {
    var s' := Status(s, f);
    CacheNext(s.history, Got(f));
    forall i | 0 <= i < |s'.ops| ensures OpSound(s', i) { FrameOpSound(s, f, i); }
  }

  // Op i alone changes, by one of its life's moves.
  lemma UpdateSound(s: Sys, i: nat, o: Op)
    requires Sound(s) && i < |s.ops|
    requires OpOk(o) && (Leaves(s.ops[i], o, false) || (i in s.ended && Leaves(s.ops[i], o, true)))
    ensures Sound(Update(s, i, o))
  {
    var s' := Update(s, i, o);
    forall k | 0 <= k < |s'.ops| ensures OpSound(s', k) { assert OpSound(s, k); }
  }

  lemma SendSound(s: Sys, source: Source, o: Op)
    requires Sound(s) && SendChecks(s, source) == None && o.source == source && s.sending == None && s.asked == None
    requires OpOk(o) && !o.sawNotArmed && !o.accepted && o.state == Loading
    ensures Sound(BeginSend(s, o))
  {
    var s' := BeginSend(s, o);
    forall i | 0 <= i < |s'.ops| ensures OpSound(s', i) {
      if i < |s.ops| { assert OpSound(s, i); }
    }
  }

  lemma TrySendSound(s: Sys)
    requires Sound(s) && Possible(s, TrySend)
    ensures Sound(Step(s, TrySend))
  {
    var a, s1 := s.asked.value, s.(asked := None);
    RestSound(s, s1);
    hide OpSound;
    if SendChecks(s, a.source) == None {
      SendSound(s1, a.source, NewOp(a.source, a.kind, a.project, a.unixName, a.forced, a.missing));
    }
  }

  lemma InstallSound(s: Sys, i: nat)
    requires Sound(s) && s.sending == Some(i)
    ensures Sound(Install(s.(sending := None, next := None), i))
  {
    var s1 := s.(sending := None, next := None);
    var s' := Install(s1, i);
    forall k | 0 <= k < |s'.ops| ensures OpSound(s', k) {
      assert OpSound(s, k);
      if s.op == Some(k) { EndLife(s.ops[k], NoReason); }
      InstalledOp(s, i, k);
    }
  }

  lemma InstalledOp(s: Sys, i: nat, k: nat)
    requires Sound(s) && s.sending == Some(i) && k < |s.ops| && OpSound(s, k)
    ensures var o := Install(s.(sending := None, next := None), i).ops[k];
            o == if k == i then Installed(s.ops[i]) else if s.op == Some(k) then Supersede(s.ops[k]) else s.ops[k]
    ensures k == i ==> NotMissed(s.ops[k], s.eng)
  {}

  lemma EndRequestSound(s: Sys, out: Outcome)
    requires Sound(s)
    ensures Sound(EndRequest(s, out))
  {
    var s' := EndRequest(s, out);
    forall k | 0 <= k < |s'.ops| ensures OpSound(s', k) { assert OpSound(s, k); }
  }

  // What the slot, the editor and the shutdown lock say does not bear on the operations.
  lemma RestSound(s: Sys, s': Sys)
    requires Sound(s)
    requires s' == s.(slot := s'.slot, editorUp := s'.editorUp, shuttingDown := s'.shuttingDown, told := s'.told,
                      ended := s'.ended, asked := s'.asked, sending := s'.sending, next := s'.next)
    requires s.ended <= s'.ended && (s'.asked.Some? ==> s.asked.Some? || s.sending == None)
    requires (s'.sending == s.sending && s'.next == s.next) || (s'.sending == None && s'.next == None)
    ensures Sound(s')
  {
    forall k | 0 <= k < |s'.ops| ensures OpSound(s', k) { assert OpSound(s, k); }
  }

  lemma CallbackSound(s: Sys, i: nat)
    requires Sound(s) && Possible(s, Callback(i))
    ensures Sound(Step(s, Callback(i)))
    ensures Moves(s.ops[i], Step(s, Callback(i)).ops[i], s.outcomes[i] == Refused)
  {
    var o' := OnReply(s.ops[i], s.outcomes[i], s.op == Some(i));
    assert OpSound(s, i);
    ReplyLife(s.ops[i], s.outcomes[i], s.op == Some(i));
    hide OnReply, OpSound, OpOk, Moves, Leaves;
    UpdateSound(s, i, o');
    RestSound(Update(s, i, o'), Step(s, Callback(i)));
  }

  lemma TimerSound(s: Sys, e: Event)
    requires Sound(s) && Possible(s, e) && (e.BudgetFires? || e.LostFires?)
    ensures Sound(Step(s, e)) && Moves(s.ops[e.i], Step(s, e).ops[e.i], false)
  {
    var o, current := s.ops[e.i], s.op == Some(e.i);
    assert OpSound(s, e.i);
    if e.BudgetFires? { BudgetLife(o); } else { LostLife(o, current); }
    hide BudgetFired, LostFired, OpSound, OpOk, Moves, Leaves;
    UpdateSound(s, e.i, if e.BudgetFires? then BudgetFired(o) else LostFired(o, current));
  }

  lemma UnloadEndSound(s: Sys, i: nat, end: UnloadEnd)
    requires Sound(s) && Possible(s, UnloadEnds(i, end))
    ensures Sound(Step(s, UnloadEnds(i, end))) && Moves(s.ops[i], Step(s, UnloadEnds(i, end)).ops[i], false)
  {
    assert OpSound(s, i);
    var s1 := s.(ended := s.ended + {i});
    RestSound(s, s1);
    UnloadLife(s.ops[i], end);
    hide EndUnload, OpOk, Moves, Leaves;
    UpdateSound(s1, i, EndUnload(s.ops[i], end));
    assert Step(s, UnloadEnds(i, end)) == Update(s1, i, EndUnload(s.ops[i], end));
  }

  lemma AbortSound(s: Sys, reason: Reason)
    requires Sound(s)
    ensures Sound(Step(s, AbortOp(reason)))
  {
    if s.op.Some? {
      var i := s.op.value;
      assert OpSound(s, i);
      EndLife(s.ops[i], reason);
      hide Abort, OpOk, Moves, Leaves;
      UpdateSound(s, i, Abort(s.ops[i], reason));
    }
  }

  lemma SendEndsSound(s: Sys, ok: bool)
    requires Sound(s) && Possible(s, SendEnds(ok))
    ensures Sound(Step(s, SendEnds(ok)))
  {
    var i := s.sending.value;
    hide Sound, Install;
    if ok && i < |s.ops| { InstallSound(s, i); } else { RestSound(s, Step(s, SendEnds(ok))); }
  }

  lemma StepSound(s: Sys, e: Event)
    requires Sound(s) && Possible(s, e)
    ensures Sound(Step(s, e))
  {
    match e
    case EngineUp => CacheNext(s.history, Up); HistorySound(s, Up);
    case EngineDown => CacheNext(s.history, Down); HistorySound(s, Down);
    case EngineFrame(f) => FrameSound(s, f);
    case EditorUp => RestSound(s, Step(s, e));
    case EditorDown => EndRequestSound(s, Dropped); RestSound(EndRequest(s, Dropped), Step(s, e));
    case ShutdownLock(held) => RestSound(s, Step(s, e));
    case AskBegins(a) => RestSound(s, Step(s, e));
    case AskListed => RestSound(s, Step(s, e));
    case AskDropped => RestSound(s, Step(s, e));
    case TrySend => TrySendSound(s);
    case SendEnds(ok) => SendEndsSound(s, ok);
    case ReplyArrives(out) => EndRequestSound(s, out);
    case Callback(i) => CallbackSound(s, i);
    case BudgetFires(i) => TimerSound(s, e);
    case LostFires(i) => TimerSound(s, e);
    case UnloadEnds(i, end) => UnloadEndSound(s, i, end);
    case AbortOp(reason) => AbortSound(s, reason);
  }

  lemma {:induction false} RunSound(states: seq<Sys>, events: seq<Event>, n: nat)
    requires IsRun(states, events) && n < |states|
    ensures Sound(states[n])
  {
    if n > 0 {
      RunSound(states, events, n - 1);
      assert Stepped(states, events, n - 1);
      hide Sound, Step, Possible;
      StepSound(states[n - 1], events[n - 1]);
    }
  }

  // ------------------------------------------------------------ acceptance

  /** An operation is accepted only if, after its send began, the engine's arm was seen to drop
      and then an `armed` yes came, with the engine's `load` its project. */
  lemma AcceptanceBacked(states: seq<Sys>, events: seq<Event>, n: nat, i: nat) returns (drop: int, arm: int, now: int)
    requires IsRun(states, events) && n < |states| && i < |states[n].ops| && states[n].ops[i].accepted
    ensures var s := states[n];
            && i < |s.born| && s.born[i] <= drop < arm < now <= |s.history|
            && ArmFrame(s.history, drop, false) && ArmFrame(s.history, arm, true)
            && CacheOf(s.history[..now]).armed == "yes" && CacheOf(s.history[..now]).load == s.ops[i].unixName
  {
    var s := states[n];
    RunSound(states, events, n);
    assert OpSound(s, i);
    hide Sound, IsRun, OpOk, NotMissed;
    drop, arm, now := Witnesses(s.history, s.born[i], s.ops[i].unixName);
  }

  lemma Witnesses(h: seq<EngineEvent>, born: nat, name: string) returns (drop: int, arm: int, n: int)
    requires Proven(h, born, name)
    ensures born <= drop < arm < n <= |h| && ArmFrame(h, drop, false) && ArmFrame(h, arm, true)
            && CacheOf(h[..n]).armed == "yes" && CacheOf(h[..n]).load == name
  {
    drop, n :| Evidence(h, born, name, drop, n);
    arm := ArmedFrom(h[..n]);
    assert ArmFrame(h[..n], drop, false);
    assert h[arm] == h[..n][arm];
  }

  /** Conversely no arm is missed: no tracked operation, current or being sent, ever rests
      loading, having seen the arm drop, while the engine is armed with its project loaded. */
  lemma NoArmMissed(states: seq<Sys>, events: seq<Event>, n: nat, i: nat)
    requires IsRun(states, events) && n < |states| && i < |states[n].ops| && Tracked(states[n], i)
    ensures var s := states[n];
            var o := s.ops[i];
            o.kind == Load && o.state == Loading && o.sawNotArmed && s.eng.armed == "yes" ==> !LoadMatches(o, s.eng)
  {
    RunSound(states, events, n);
    assert OpSound(states[n], i);
  }

  // ------------------------------------------------------------ lifecycle

  /** Every installed operation but the current one is out of `loading` and has woken its
      waiters; and any operation out of `loading` has. */
  lemma ReplacedAreDone(states: seq<Sys>, events: seq<Event>, n: nat, i: nat)
    requires IsRun(states, events) && n < |states| && i in states[n].installed
    ensures var s := states[n];
            && i < |s.ops|
            && (s.op != Some(i) ==> s.ops[i].state != Loading && s.ops[i].done)
            && (s.ops[i].state != Loading ==> s.ops[i].done)
  {
    RunSound(states, events, n);
    assert OpSound(states[n], i);
  }

  /** One step moves an operation only along its life: failed and superseded are final, and
      armed or degraded is left only for failed, when the callback of its own request finds
      the editor's definitive error. */
  lemma StepMoves(s: Sys, e: Event, i: nat)
    requires Sound(s) && Possible(s, e) && i < |s.ops|
    ensures i < |Step(s, e).ops|
    ensures Moves(s.ops[i], Step(s, e).ops[i], e == Callback(i) && i in s.outcomes && s.outcomes[i] == Refused)
  {
    assert OpSound(s, i);
    MovesRefl(s.ops[i]);
    hide Moves, OpSound, Sound, OpOk, Leaves, OnStatus, OnReply, BudgetFired, LostFired, EndUnload, Abort, Install;
    match e
    case EngineFrame(f) => FrameMoves(s, f, i);
    case SendEnds(ok) => SendEndsMoves(s, ok, i);
    case Callback(k) => CallbackSound(s, k);
    case BudgetFires(k) => TimerSound(s, e);
    case LostFires(k) => TimerSound(s, e);
    case UnloadEnds(k, end) => UnloadEndSound(s, k, end);
    case AbortOp(reason) => AbortMoves(s, reason, i);
    case _ => OthersKeepOps(s, e, i);
  }

  // What the other events leave alone.
  lemma OthersKeepOps(s: Sys, e: Event, i: nat)
    requires i < |s.ops|
    requires !e.EngineFrame? && !e.SendEnds? && !e.Callback? && !e.BudgetFires? && !e.LostFires?
    requires !e.UnloadEnds? && !e.AbortOp?
    ensures i < |Step(s, e).ops| && Step(s, e).ops[i] == s.ops[i]
  {
    hide NewOp, SendChecks, FirstBlock, ListedBlock;
    match e
    case TrySend =>
    case _ =>
  }

  lemma FrameMoves(s: Sys, f: Frame, i: nat)
    requires Sound(s) && i < |s.ops|
    ensures i < |Status(s, f).ops| && Moves(s.ops[i], Status(s, f).ops[i], false)
  {
    assert OpSound(s, i);
    MovesRefl(s.ops[i]);
    StatusLife(s.ops[i], SignalOf(f), ApplyStatus(s.eng, f));
    hide Moves, OnStatus, ApplyStatus, SignalOf;
  }

  lemma SendEndsMoves(s: Sys, ok: bool, i: nat)
    requires Sound(s) && Possible(s, SendEnds(ok)) && i < |s.ops|
    ensures i < |Step(s, SendEnds(ok)).ops| && Moves(s.ops[i], Step(s, SendEnds(ok)).ops[i], false)
  {
    assert OpSound(s, i);
    MovesRefl(s.ops[i]);
    EndLife(s.ops[i], NoReason);
    TimerSetMoves(s.ops[i]);
    InstalledOp(s, s.sending.value, i);
    hide Moves, Supersede, Install, Installed, OpOk, OpSound;
    if ok && s.sending.value < |s.ops| {} else {}
  }

  lemma TimerSetMoves(o: Op)
    ensures Moves(o, Installed(o), false)
  {}

  lemma AbortMoves(s: Sys, reason: Reason, i: nat)
    requires Sound(s) && i < |s.ops|
    ensures Moves(s.ops[i], Step(s, AbortOp(reason)).ops[i], false)
  {
    assert OpSound(s, i);
    MovesRefl(s.ops[i]);
    EndLife(s.ops[i], reason);
    hide Moves, Abort;
    if s.op == Some(i) {} else {}
  }

  /** Failed and superseded operations stay so, for the same reason, whatever comes after. */
  lemma {:induction false} FinalStays(states: seq<Sys>, events: seq<Event>, n: nat, m: nat, i: nat)
    requires IsRun(states, events) && n <= m < |states| && i < |states[n].ops|
    requires states[n].ops[i].state == Failed || states[n].ops[i].state == Superseded
    ensures i < |states[m].ops|
    ensures states[m].ops[i].state == states[n].ops[i].state && states[m].ops[i].reason == states[n].ops[i].reason
  {
    hide Sound, Step, Possible;
    if n < m {
      FinalStays(states, events, n, m - 1, i);
      RunSound(states, events, m - 1);
      assert Stepped(states, events, m - 1);
      StepMoves(states[m - 1], events[m - 1], i);
    }
  }

  // ------------------------------------------------------------ sends

  /** Whatever happened between its first checks and its send, every send of an engine-bound
      request starts with the slot free, the editor up and no show running; an operator's also
      with the engine known and no shutdown under way. */
  lemma SendsGuarded(states: seq<Sys>, events: seq<Event>, n: nat, k: nat)
    requires IsRun(states, events) && n < |states| && k < |states[n].sends|
    ensures var x := states[n].sends[k];
            && x.slot == None && x.editorUp && !ProjectRunning(x.eng)
            && (x.source == Operator ==> IsKnown(x.eng) && !x.shuttingDown)
  {
    RunSound(states, events, n);
    assert Guarded(states[n].sends[k]);
  }

  // The show is started while an operator's load awaits its node check.
  function ShowStartsMeanwhile(a: Ask): seq<Event> {
    [EngineUp, EngineFrame(Frame("running", Text("no", None), None)), EditorUp, AskBegins(a), AskListed,
     EngineFrame(Frame("running", Text("yes", None), None))]
  }

  // The states it goes through.
  function MeanwhileStates(a: Ask): seq<Sys> {
    var e := ShowStartsMeanwhile(a);
    var idle := START.(eng := DOWN.(connected := true, running := "no"), history := [Up, Got(e[1].f)]);
    [START, START.(eng := DOWN.(connected := true), history := [Up]), idle, idle.(editorUp := true),
     idle.(editorUp := true, asked := Some(a.(listed := false))),
     idle.(editorUp := true, asked := Some(a.(listed := true))),
     idle.(editorUp := true, asked := Some(a.(listed := true)), eng := DOWN.(connected := true, running := "yes"),
           history := [Up, Got(e[1].f), Got(e[5].f)])]
  }

  /** The first checks do not carry over the awaits: a load they let through can find the show
      running when its turn to send comes, and is refused there. */
  lemma RecheckNeeded(a: Ask)
    requires a.source == Operator && a.kind == Load
    ensures IsRun(MeanwhileStates(a), ShowStartsMeanwhile(a))
    ensures var s := MeanwhileStates(a)[6];
            Possible(s, TrySend) && SendChecks(s, Operator) == Some(Running) && Step(s, TrySend).sends == []
  {
    EngineAndEditorUp(a);
    AskedThenRunning(a);
    hide Stepped;
    forall k: nat | k < 6 ensures Stepped(MeanwhileStates(a), ShowStartsMeanwhile(a), k) {
      assert k == 0 || k == 1 || k == 2 || k == 3 || k == 4 || k == 5;
    }
  }

  lemma EngineAndEditorUp(a: Ask)
    ensures var e, t := ShowStartsMeanwhile(a), MeanwhileStates(a);
            Stepped(t, e, 0) && Stepped(t, e, 1) && Stepped(t, e, 2)
  {
    var e := ShowStartsMeanwhile(a);
    assert [] + [Up] == [Up] && [Up] + [Got(e[1].f)] == [Up, Got(e[1].f)];
  }

  lemma AskedThenRunning(a: Ask)
    requires a.source == Operator && a.kind == Load
    ensures var e, t := ShowStartsMeanwhile(a), MeanwhileStates(a);
            Stepped(t, e, 3) && Stepped(t, e, 4) && Stepped(t, e, 5)
  {
    var e := ShowStartsMeanwhile(a);
    assert [Up, Got(e[1].f)] + [Got(e[5].f)] == [Up, Got(e[1].f), Got(e[5].f)];
  }

  /** A press joins only an operation that is still under way: the current one, a load of the
      same project, tracked, with no waiter woken and no answer of the editor against it. */
  lemma JoinMeans(states: seq<Sys>, events: seq<Event>, n: nat, a: Ask, i: nat)
    requires IsRun(states, events) && n < |states| && ListedBlock(states[n], a) == Join(i)
    ensures var s := states[n];
            && s.op == Some(i) && i in s.installed && i < |s.ops|
            && var o := s.ops[i];
               && o.kind == Load && o.project == a.project && o.state == Loading && !o.done && !o.accepted
               && NotMissed(o, s.eng) && (o.editor == Pending || o.editor == Ok)
  {
    RunSound(states, events, n);
    assert OpSound(states[n], i);
  }

  // ------------------------------------------------------------ already loaded

  // The frames of the current connection.
  function Recent(h: seq<EngineEvent>): seq<Frame> {
    if h == [] || !h[|h| - 1].Got? then [] else Recent(h[..|h| - 1]) + [h[|h| - 1].f]
  }

  ghost predicate IsRecent(eng: Cache, h: seq<EngineEvent>) {
    if eng.connected then eng == After(Recent(h)) else eng == DOWN && Recent(h) == []
  }

  lemma {:induction false} CacheIsRecent(states: seq<Sys>, events: seq<Event>, n: nat)
    requires IsRun(states, events) && n < |states|
    ensures IsRecent(states[n].eng, states[n].history)
  {
    if n > 0 {
      var s, e := states[n - 1], events[n - 1];
      CacheIsRecent(states, events, n - 1);
      assert Stepped(states, events, n - 1);
      EngineStep(s, e);
      hide Step, Possible, IsRecent, ApplyStatus;
      match e
      case EngineUp => RecentUp(s.eng, s.history);
      case EngineDown => DownIsRecent(states[n].history);
      case EngineFrame(f) => RecentFrame(s.eng, s.history, f);
      case _ =>
    }
  }

  lemma DownIsRecent(h: seq<EngineEvent>)
    requires h != [] && h[|h| - 1] == Down
    ensures IsRecent(DOWN, h)
  {}

  lemma RecentUp(eng: Cache, h: seq<EngineEvent>)
    requires IsRecent(eng, h) && !eng.connected
    ensures IsRecent(eng.(connected := true), h + [Up])
  {
    assert Recent(h + [Up]) == [];
  }

  lemma RecentFrame(eng: Cache, h: seq<EngineEvent>, f: Frame)
    requires IsRecent(eng, h) && eng.connected
    ensures IsRecent(ApplyStatus(eng, f), h + [Got(f)])
  {
    assert (h + [Got(f)])[..|h|] == h;
    assert (Recent(h) + [f])[..|Recent(h)|] == Recent(h);
    assert Recent(h + [Got(f)]) == Recent(h) + [f];
    assert After(Recent(h) + [f]) == ApplyStatus(eng, f);
    FieldsAreLast(Recent(h) + [f]);
    hide ApplyStatus;
  }

  // What a step does to the engine's side.
  lemma EngineStep(s: Sys, e: Event)
    requires Possible(s, e)
    ensures var s' := Step(s, e);
            match e
            case EngineUp => !s.eng.connected && s'.eng == s.eng.(connected := true) && s'.history == s.history + [Up]
            case EngineDown => s'.eng == DOWN && s'.history == s.history + [Down]
            case EngineFrame(f) =>
              s.eng.connected && s'.eng == ApplyStatus(s.eng, f) && s'.history == s.history + [Got(f)]
            case _ => s'.eng == s.eng && s'.history == s.history
  {
    hide OnStatus, OnReply, BudgetFired, LostFired, EndUnload, Abort, Install, SendChecks, NewOp, ApplyStatus;
    hide FirstBlock, ListedBlock;
    if e.SendEnds? && e.ok && s.sending.value < |s.ops| {
      InstallEngine(s.(sending := None, next := None), s.sending.value);
    }
  }

  lemma InstallEngine(s: Sys, i: nat)
    requires i < |s.ops|
    ensures Install(s, i).eng == s.eng && Install(s, i).history == s.history
  {}

  lemma {:induction false} LoadOf(frames: seq<Frame>, i: int)
    requires LoadedAt(frames, i)
    ensures LastValue(frames, "load") == Str(frames[i].value)
  {
    var n := |frames| - 1;
    if i < n {
      assert !IsLoadOrRun(frames[n]);
      forall k | i < k < n ensures !IsLoadOrRun(frames[..n][k]) { assert !IsLoadOrRun(frames[k]); }
      LoadOf(frames[..n], i);
    }
  }

  /** An "already loaded" answer means that on this very connection the engine loaded that
      project last, has not run it since, and armed it afterwards. */
  lemma AlreadyLoadedMeans(states: seq<Sys>, events: seq<Event>, n: nat, name: string) returns (i: int, j: int)
    requires IsRun(states, events) && n < |states| && FreshNoop(states[n], name)
    ensures var frames := Recent(states[n].history);
            FreshSince(frames, i, j) && Str(frames[i].value) == name
            && LastValue(frames, "armed") == "yes"
  {
    CacheIsRecent(states, events, n);
    var frames := Recent(states[n].history);
    FreshArmMeans(frames);
    FieldsAreLast(frames);
    i, j :| FreshSince(frames, i, j);
    LoadOf(frames, i);
  }

  /** And it is given whenever that is so and no operation is loading, unless the engine's
      diagnosis of that project names unreachable nodes, or the current operation loaded it by
      force. */
  lemma AlreadyLoadedIff(states: seq<Sys>, events: seq<Event>, n: nat, name: string)
    requires IsRun(states, events) && n < |states|
    ensures var s := states[n];
            var frames := Recent(s.history);
            FreshNoop(s, name) <==>
              && (exists i, j :: FreshSince(frames, i, j))
              && LastValue(frames, "load") == name && LastValue(frames, "armed") == "yes"
              && !(Diagnosis(frames).Some? && Diagnosis(frames).value.project == name
                   && Diagnosis(frames).value.unreachable)
              && (s.op.Some? ==>
                    s.op.value < |s.ops|
                    && var o := s.ops[s.op.value];
                       o.state != Loading && !(o.kind == Load && o.accepted && o.unixName == name && o.forced))
  {
    var s := states[n];
    var frames := Recent(s.history);
    CacheIsRecent(states, events, n);
    RunSound(states, events, n);
    FreshArmMeans(frames);
    FieldsAreLast(frames);
    NamesAndDiagnosis(frames, "");
    assert s.op.Some? ==> s.op.value < |s.ops|;
    hide IsRun, Sound, After, FreshSince;
    if !s.eng.connected { assert After(frames).armed != "yes" by { NothingArmed(frames); } }
  }

  lemma NothingArmed(frames: seq<Frame>)
    requires frames == []
    ensures After(frames).armed != "yes"
  {}

  /** A press joins exactly the current operation, if that is a load of its project, still
      loading in time, and the editor has not answered it or has confirmed it; unless a reload
      was asked for. */
  lemma JoinIff(s: Sys, a: Ask, i: nat)
    ensures ListedBlock(s, a) == Join(i) <==>
              && !a.reload && s.op == Some(i) && i < |s.ops|
              && var o := s.ops[i];
                 o.kind == Load && o.project == a.project && o.state == Loading && !o.overdue
                 && (o.editor == Pending || o.editor == Ok)
  {
    hide FreshNoop;
    if !a.reload && Joinable(s, a.project) {} else {}
  }
}
