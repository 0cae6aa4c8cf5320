/** What an operation remembers, told from the events of its run: the request it was made for,
    what the engine showed since its send, and what ended it. */
module OpHistory {
  import opened OrderedDict
  import opened Osc
  import opened EngineState
  import opened OpRecords
  import opened OpRun

  // ------------------------------------------------------------ what no event changes

  // The same request; a name, once known, stays, and becomes known by acceptance alone; and
  // only a load comes to hold the timer of the grace.
  ghost predicate SameOp(o: Op, o': Op) {
    && o'.source == o.source && o'.kind == o.kind && o'.project == o.project
    && o'.forced == o.forced && o'.nodesMissing == o.nodesMissing
    && (o.accepted ==> o'.accepted)
    && (o'.unixName != o.unixName ==> o.unixName == "" && o'.accepted)
    && (o'.timers.editorLost ==> o.timers.editorLost || o.kind == Load)
  }

  // A loading operation has its budget timer, or is overdue.
  predicate Watched(o: Op) {
    o.state == Loading ==> o.timers.budget || o.overdue
  }

  ghost predicate Carries(o: Op, o': Op) {
    SameOp(o, o') && (Watched(o) ==> Watched(o'))
  }

  lemma StatusCarries(o: Op, s: Signal, eng: Cache)
    ensures Carries(o, OnStatus(o, s, eng))
  {
    NoteCarries(o, s);
    EvaluateCarries(Note(o, s), eng);
    FinishCarries(o, Failed, ShowRunning);
    hide Evaluate, Note, Finish;
    if s == Ignored || o.kind != Load {} else if Overtaken(o, s) {} else {}
  }

  lemma FinishCarries(o: Op, state: OpState, reason: Reason)
    requires state != Loading
    ensures Carries(o, Finish(o, state, reason))
  {
    if o.state == Failed || o.state == Superseded {} else {}
  }

  lemma NoteCarries(o: Op, s: Signal)
    ensures Carries(o, Note(o, s)) && Note(o, s).accepted == o.accepted
    ensures Note(o, s).loadSeen == (o.loadSeen || s == LoadFrame)
  {
    if s == ArmedNot && !o.accepted {} else if s == LoadFrame {} else if s == RunningYes && o.accepted {} else {}
  }

  lemma EvaluateCarries(o: Op, eng: Cache)
    ensures Carries(o, Evaluate(o, eng)) && Evaluate(o, eng).loadSeen == o.loadSeen
  {
    hide IsDegraded, LoadMatches;
    if o.kind != Load || o.accepted || o.state != Loading {} else {}
  }

  lemma ReplyCarries(o: Op, out: Outcome, isCurrent: bool)
    ensures Carries(o, OnReply(o, out, isCurrent))
  {
    match out
    case Refused => RefusedCarries(o, isCurrent);
    case Dropped => DroppedCarries(o, isCurrent);
    case Replied =>
      hide Finish;
      assert OnReply(o, out, isCurrent) == o.(editor := Ok);
    case EngineTimeout =>
      hide Finish;
      assert OnReply(o, out, isCurrent) == o.(editor := TimedOut);
  }

  lemma DroppedCarries(o: Op, isCurrent: bool)
    ensures Carries(o, OnReply(o, Dropped, isCurrent))
  {
    hide Finish;
    if isCurrent && o.state == Loading && o.kind == Load {} else {}
  }

  lemma RefusedCarries(o: Op, isCurrent: bool)
    ensures Carries(o, OnReply(o, Refused, isCurrent))
  {
    FinishCarries(o.(editor := EditorError), Failed, EditorFailed);
    hide Finish;
    if o.kind == Load {} else {}
  }

  lemma BudgetCarries(o: Op)
    ensures SameOp(o, BudgetFired(o)) && (OpOk(o) ==> Watched(BudgetFired(o)))
  {
    if o.state != Loading || o.done {} else {}
  }

  lemma LostCarries(o: Op, isCurrent: bool)
    ensures Carries(o, LostFired(o, isCurrent))
  {
    LostIs(o, isCurrent);
    FinishCarries(o.(timers := o.timers.(editorLost := false)), Failed, EditorVanished);
    hide Finish, LostFired;
  }

  lemma EndCarries(o: Op, end: UnloadEnd)
    ensures Carries(o, EndUnload(o, end))
  {
    assert EndUnload(o, end) == Finish(o, EndState(end), EndReason(end));
    FinishCarries(o, EndState(end), EndReason(end));
    hide Finish, EndUnload;
  }

  lemma AbortCarries(o: Op, reason: Reason)
    ensures Carries(o, Abort(o, reason))
  {
    FinishCarries(o, Failed, reason);
    hide Finish;
    if o.state == Loading {} else {}
  }

  lemma InstallCarries(o: Op)
    ensures Carries(o, Supersede(o)) && SameOp(o, Installed(o)) && Watched(Installed(o))
  {
    if o.state == Loading {} else {}
  }

  lemma CarriesRefl(o: Op)
    ensures Carries(o, o)
  {}

  // ------------------------------------------------------------ one step

  lemma StepSame(s: Sys, e: Event, i: nat)
    requires Shape(s) && Possible(s, e) && i < |s.ops|
    ensures i < |Step(s, e).ops| && SameOp(s.ops[i], Step(s, e).ops[i])
  {
    CarriesRefl(s.ops[i]);
    hide SameOp, Carries, Watched, Step, Possible, Shape;
    match e
    case EngineFrame(f) => FrameCarries(s, f, i);
    case SendEnds(ok) => SendEndsSame(s, ok, i);
    case Callback(k) => CallbackSame(s, k, i);
    case BudgetFires(k) => BudgetSame(s, k, i);
    case LostFires(k) => LostSame(s, k, i);
    case UnloadEnds(k, end) => EndSame(s, k, end, i);
    case AbortOp(reason) => AbortSame(s, reason, i);
    case _ => OthersKeepOps(s, e, i);
  }

  lemma FrameCarries(s: Sys, f: Frame, i: nat)
    requires i < |s.ops|
    ensures i < |Step(s, EngineFrame(f)).ops| && Carries(s.ops[i], Step(s, EngineFrame(f)).ops[i])
  {
    CarriesRefl(s.ops[i]);
    StatusCarries(s.ops[i], SignalOf(f), ApplyStatus(s.eng, f));
    hide SameOp, Watched, OnStatus, ApplyStatus, SignalOf;
  }

  lemma CallbackSame(s: Sys, k: nat, i: nat)
    requires i < |s.ops| && k < |s.ops| && k in s.outcomes
    ensures Carries(s.ops[i], Step(s, Callback(k)).ops[i])
  {
    CarriesRefl(s.ops[i]);
    ReplyCarries(s.ops[k], s.outcomes[k], s.op == Some(k));
    hide SameOp, Watched, OnReply;
  }

  lemma BudgetSame(s: Sys, k: nat, i: nat)
    requires i < |s.ops| && k < |s.ops|
    ensures var o' := Step(s, BudgetFires(k)).ops[i]; SameOp(s.ops[i], o') && (OpOk(s.ops[k]) && k == i ==> Watched(o'))
  {
    CarriesRefl(s.ops[i]);
    BudgetCarries(s.ops[k]);
    hide SameOp, Watched, BudgetFired;
  }

  lemma LostSame(s: Sys, k: nat, i: nat)
    requires i < |s.ops| && k < |s.ops|
    ensures Carries(s.ops[i], Step(s, LostFires(k)).ops[i])
  {
    CarriesRefl(s.ops[i]);
    LostCarries(s.ops[k], s.op == Some(k));
    hide SameOp, Watched, LostFired;
  }

  lemma EndSame(s: Sys, k: nat, end: UnloadEnd, i: nat)
    requires i < |s.ops| && k < |s.ops|
    ensures Carries(s.ops[i], Step(s, UnloadEnds(k, end)).ops[i])
  {
    CarriesRefl(s.ops[i]);
    EndCarries(s.ops[k], end);
    hide SameOp, Watched, EndUnload;
  }

  lemma AbortSame(s: Sys, reason: Reason, i: nat)
    requires i < |s.ops|
    ensures Carries(s.ops[i], Step(s, AbortOp(reason)).ops[i])
  {
    CarriesRefl(s.ops[i]);
    AbortCarries(s.ops[i], reason);
    hide SameOp, Watched, Abort;
    if s.op == Some(i) {} else {}
  }

  // A send that came through: the old operation leaves, the new one gets its timers.
  lemma SendEndsSame(s: Sys, ok: bool, i: nat)
    requires Shape(s) && Possible(s, SendEnds(ok)) && i < |s.ops|
    ensures var s' := Step(s, SendEnds(ok));
            i < |s'.ops| && SameOp(s.ops[i], s'.ops[i]) && s'.born == s.born
            && (if ok && s.sending == Some(i) then Watched(s'.ops[i]) else Carries(s.ops[i], s'.ops[i]))
  {
    CarriesRefl(s.ops[i]);
    InstallCarries(s.ops[i]);
    hide SameOp, Watched, Installed, Supersede, Carries, Install;
    if ok { InstallOps(s.(sending := None, next := None), s.sending.value, i); } else {}
  }

  lemma InstallOps(s: Sys, k: nat, i: nat)
    requires k < |s.ops| && i < |s.ops| && s.op != Some(k)
    ensures var s' := Install(s, k);
            && |s'.ops| == |s.ops| && s'.born == s.born
            && s'.ops[i] == if i == k then Installed(s.ops[i])
                            else if s.op == Some(i) then Supersede(s.ops[i]) else s.ops[i]
  {}

  // ------------------------------------------------------------ the request it was made for

  // This ask is what the operation was made for: its name is the ask's, or was learnt.
  ghost predicate MadeFor(o: Op, a: Ask) {
    && o.source == a.source && o.kind == a.kind && o.project == a.project
    && o.forced == a.forced && o.nodesMissing == a.missing
    && (o.unixName != a.unixName ==> a.unixName == "" && o.accepted)
  }

  // A request that awaits, and what a step makes of it.
  lemma AskKept(s: Sys, e: Event)
    requires Possible(s, e) && Step(s, e).asked.Some?
    ensures var a := Step(s, e).asked.value;
            if e.AskBegins? then a.(listed := e.a.listed) == e.a
            else s.asked.Some? && a.(listed := s.asked.value.listed) == s.asked.value
  {
    hide FirstBlock, ListedBlock, SendChecks, NewOp;
    if e.AskBegins? {}
    else if e.AskListed? {}
    else if e.TrySend? {}
    else if e.AskDropped? {}
    else {
      hide Possible, Step;
      OthersKeepAsk(s, e);
    }
  }

  lemma OthersKeepAsk(s: Sys, e: Event)
    requires !e.AskBegins? && !e.AskListed? && !e.TrySend? && !e.AskDropped?
    ensures Step(s, e).asked == s.asked
  {
    hide OnReply, BudgetFired, LostFired, EndUnload, Abort, OnStatus, ApplyStatus, Install;
    match e
    case SendEnds(ok) =>
      if s.sending.Some? && ok && s.sending.value < |s.ops| { InstallKeepsAsk(s, s.sending.value); } else {}
    case _ =>
  }

  lemma InstallKeepsAsk(s: Sys, i: nat)
    requires i < |s.ops|
    ensures Install(s.(sending := None, next := None), i).asked == s.asked
  {}

  // The event a waiting request began with.
  lemma {:induction false} AskMade(states: seq<Sys>, events: seq<Event>, n: nat) returns (b: nat)
    requires IsRun(states, events) && n < |states| && states[n].asked.Some?
    ensures b < n && events[b].AskBegins?
    ensures states[n].asked.value.(listed := events[b].a.listed) == events[b].a
    ensures forall m: nat :: b < m < n ==> !events[m].AskBegins?
  {
    var m: nat := n - 1;
    assert Stepped(states, events, m);
    AskKept(states[m], events[m]);
    hide Possible, Step, IsRun;
    if events[m].AskBegins? { b := m; } else { b := AskMade(states, events, m); }
  }

  // Which events create operations.
  lemma OpsGrow(s: Sys, e: Event)
    requires Shape(s) && Possible(s, e)
    ensures var s' := Step(s, e);
            |s'.ops| == |s.ops| || (e.TrySend? && |s'.ops| == |s.ops| + 1)
  {
    hide NewOp, SendChecks, FirstBlock, ListedBlock, BaseChecks, OnReply, BudgetFired, LostFired, EndUnload, Abort;
    hide OnStatus, ApplyStatus, Install;
    match e
    case SendEnds(ok) =>
      if ok && s.sending.value < |s.ops| { InstallOps(s.(sending := None, next := None), s.sending.value, 0); } else {}
    case _ =>
  }

  // Nothing is ever created but what is born there.
  lemma BornKept(s: Sys, e: Event, i: nat)
    requires Shape(s) && Possible(s, e) && i < |s.ops|
    ensures var s' := Step(s, e); i < |s'.born| && s'.born[i] == s.born[i]
  {
    hide NewOp, SendChecks, FirstBlock, ListedBlock, BaseChecks, OnReply, BudgetFired, LostFired, EndUnload, Abort;
    hide OnStatus, ApplyStatus, Install;
    match e
    case SendEnds(ok) =>
      if ok && s.sending.value < |s.ops| { InstallOps(s.(sending := None, next := None), s.sending.value, i); } else {}
    case _ =>
  }

  /** A send goes out exactly with the slot free, the editor up and no show running, and, for an
      operator, the engine known and no shutdown under way; it makes one operation, loading,
      with nothing seen yet, of what was asked. */
  lemma SendGoesIff(s: Sys)
    requires Possible(s, TrySend)
    ensures var a, s' := s.asked.value, Step(s, TrySend);
            && s'.asked == None
            && if s.slot == None && s.editorUp && s.eng.running != "yes"
                  && (a.source == Operator ==>
                        !s.shuttingDown && s.eng.connected && s.eng.running != "unknown")
               then
                 && s'.ops == s.ops + [Op(a.source, a.kind, a.project, a.unixName, Loading, NoReason, Pending, false,
                                          false, false, false, a.forced, a.missing, false, false,
                                          Timers(false, false, false))]
                 && s'.born == s.born + [|s.history|]
                 && s'.sending == s'.slot == Some(|s.ops|)
                 && s'.next == (if a.kind == Load then Some(|s.ops|) else None)
               else s' == s.(asked := None)
  {
    var a := s.asked.value;
    if a.source == Operator {} else {}
  }

  /** Every operation was made by the send of one request, and is still what was asked: its
      source, kind, project, force and missing nodes are the ask's, and so is its name if that
      was known. */
  lemma {:induction false} OperationIsAsked(states: seq<Sys>, events: seq<Event>, n: nat, i: nat) returns (b: nat, k: nat)
    requires IsRun(states, events) && n < |states| && i < |states[n].ops|
    ensures b < k < n && events[b].AskBegins? && events[k].TrySend?
    ensures forall m: nat :: b < m < k ==> !events[m].AskBegins?
    ensures |states[k].ops| == i < |states[k + 1].ops| && i < |states[n].born|
    ensures states[n].born[i] == |states[k].history|
    ensures MadeFor(states[n].ops[i], events[b].a)
  {
    var m: nat := n - 1;
    var s, e := states[m], events[m];
    assert Stepped(states, events, m);
    RunSound(states, events, m);
    OpsGrow(s, e);
    if i < |s.ops| {
      StepSame(s, e, i);
      BornKept(s, e, i);
      hide IsRun, Sound, OpSound, Step, Possible;
      b, k := OperationIsAsked(states, events, m, i);
    } else {
      k := m;
      SendGoesIff(s);
      b := AskMade(states, events, m);
    }
  }

  /** An operation is accepted only if, after the send of its own request, the engine's arm was
      seen to drop and then an `armed` yes came, with the engine's `load` the project that was
      asked for, whenever its name was known. */
  lemma AcceptedAsAsked(states: seq<Sys>, events: seq<Event>, n: nat, i: nat)
    returns (b: nat, k: nat, drop: int, arm: int, now: int)
    requires IsRun(states, events) && n < |states| && i < |states[n].ops| && states[n].ops[i].accepted
    ensures b < k < n && events[b].AskBegins? && events[k].TrySend?
    ensures |states[k].ops| == i < |states[k + 1].ops| && MadeFor(states[n].ops[i], events[b].a)
    ensures var h := states[n].history;
            && |states[k].history| <= drop < arm < now <= |h|
            && ArmFrame(h, drop, false) && ArmFrame(h, arm, true)
            && CacheOf(h[..now]).armed == "yes"
            && CacheOf(h[..now]).load == states[n].ops[i].unixName
            && (events[b].a.unixName != "" ==> CacheOf(h[..now]).load == events[b].a.unixName)
  {
    b, k := OperationIsAsked(states, events, n, i);
    drop, arm, now := AcceptanceBacked(states, events, n, i);
  }
}
