/** What ended an operation: every final state and reason goes back to the outcome of its own
    request, to the engine, to a timer or to a newer operation. */
module OpEnds {
  import opened OrderedDict
  import opened EngineState
  import opened OpRecords
  import opened OpRun
  import opened OpHistory

  predicate MarkTells(mark: EditorMark, out: Option<Outcome>) {
    match mark
    case Pending => true
    case Ok => out == Some(Replied)
    case TimedOut => out == Some(EngineTimeout)
    case EditorError => out == Some(Refused)
    case Lost => out == Some(Dropped)
  }

  // `out`: the outcome of the operation's request, once it has one; `told`: its callback ran.
  ghost predicate CausedBy(o: Op, out: Option<Outcome>, told: bool) {
    && (o.state == Unloaded ==> o.kind == Unload && o.reason == NoReason && out == Some(Replied))
    && (o.state == Failed ==>
          || (o.reason == EditorFailed && out == Some(Refused))
          || (o.reason == ShowRunning && (o.kind == Load || out == Some(Refused)))
          || (o.reason == EditorUnavailable && o.kind == Unload && out == Some(Dropped))
          || (o.reason == EditorSilence && o.kind == Unload)
          || (o.reason == EditorVanished && o.kind == Load)
          || o.reason == Shutdown)
    && (o.state == Superseded ==> o.reason == Replaced)
    && (o.state == Armed || o.state == Degraded ==> o.kind == Load && o.reason == NoReason)
    && (o.state == Loading ==> o.reason == NoReason)
    && MarkTells(o.editor, out) && (o.editor == Pending <==> !told)
  }

  function OutcomeAt(s: Sys, i: nat): Option<Outcome> {
    if i in s.outcomes then Some(s.outcomes[i]) else None
  }

  ghost predicate Caused(s: Sys) {
    && (forall i :: i in s.outcomes ==> i < |s.ops|)
    && (forall i :: i in s.told ==> i in s.outcomes)
    && (s.slot.Some? ==> s.slot.value < |s.ops| && s.slot.value !in s.outcomes)
    && forall i: nat :: i < |s.ops| ==> CausedBy(s.ops[i], OutcomeAt(s, i), i in s.told)
  }

  // ------------------------------------------------------------ one operation

  lemma StatusCause(o: Op, sig: Signal, eng: Cache, out: Option<Outcome>, told: bool)
    requires CausedBy(o, out, told)
    ensures CausedBy(OnStatus(o, sig, eng), out, told)
  {
    NoteCause(o, sig);
    EvaluateCause(Note(o, sig), eng, out, told);
    hide Evaluate, Note, MarkTells;
    if sig == Ignored || o.kind != Load {} else if Overtaken(o, sig) {} else {}
  }

  lemma NoteCause(o: Op, sig: Signal)
    ensures var o' := Note(o, sig);
            o'.state == o.state && o'.reason == o.reason && o'.kind == o.kind && o'.editor == o.editor
  {
    if sig == ArmedNot && !o.accepted {} else if sig == LoadFrame {} else if sig == RunningYes && o.accepted {} else {}
  }

  lemma EvaluateCause(o: Op, eng: Cache, out: Option<Outcome>, told: bool)
    requires CausedBy(o, out, told)
    ensures CausedBy(Evaluate(o, eng), out, told)
  {
    hide IsDegraded, LoadMatches, MarkTells;
    if o.kind != Load || o.accepted || o.state != Loading {} else {}
  }

  // The first outcome a request comes to.
  lemma OutcomeComes(o: Op, told: bool, out: Outcome)
    requires CausedBy(o, None, told)
    ensures CausedBy(o, Some(out), told)
  {}

  lemma ReplyCause(o: Op, out: Outcome, isCurrent: bool)
    requires CausedBy(o, Some(out), false)
    ensures CausedBy(OnReply(o, out, isCurrent), Some(out), true)
  {
    match out
    case Refused => RefusedCause(o, isCurrent);
    case Dropped => DroppedCause(o, isCurrent);
    case Replied =>
      hide Finish;
      assert OnReply(o, out, isCurrent) == o.(editor := Ok);
    case EngineTimeout =>
      hide Finish;
      assert OnReply(o, out, isCurrent) == o.(editor := TimedOut);
  }

  lemma DroppedCause(o: Op, isCurrent: bool)
    requires CausedBy(o, Some(Dropped), false)
    ensures CausedBy(OnReply(o, Dropped, isCurrent), Some(Dropped), true)
  {
    hide Finish;
    if isCurrent && o.state == Loading && o.kind == Load {} else {}
  }

  lemma RefusedCause(o: Op, isCurrent: bool)
    requires CausedBy(o, Some(Refused), false)
    ensures CausedBy(OnReply(o, Refused, isCurrent), Some(Refused), true)
  {
    if o.kind == Load { if o.state == Failed || o.state == Superseded {} else {} } else {}
  }

  lemma BudgetCause(o: Op, out: Option<Outcome>, told: bool)
    requires CausedBy(o, out, told)
    ensures CausedBy(BudgetFired(o), out, told)
  {
    hide MarkTells;
    if o.state != Loading || o.done {} else {}
  }

  lemma LostCause(o: Op, isCurrent: bool, out: Option<Outcome>, told: bool)
    requires CausedBy(o, out, told) && o.kind == Load
    ensures CausedBy(LostFired(o, isCurrent), out, told)
  {
    LostIs(o, isCurrent);
    hide MarkTells, LostFired;
  }

  lemma InstallCause(o: Op, out: Option<Outcome>, told: bool)
    requires CausedBy(o, out, told)
    ensures CausedBy(Installed(o), out, told) && CausedBy(Supersede(o), out, told)
  {
    if o.state == Loading {} else {}
  }

  lemma AbortCause(o: Op, out: Option<Outcome>, told: bool)
    requires CausedBy(o, out, told)
    ensures CausedBy(Abort(o, Shutdown), out, told)
  {
    hide MarkTells;
    if o.state == Loading {} else {}
  }

  lemma EndCause(o: Op, end: UnloadEnd, out: Option<Outcome>, told: bool)
    requires CausedBy(o, out, told) && o.kind == Unload
    requires match end
             case EditorGone => out == Some(Dropped)
             case EditorSilent => true
             case ErrorReply(reason) =>
               || (out == Some(EngineTimeout) && reason == EditorSilence)
               || (out == Some(Refused) && (reason == ShowRunning || reason == EditorFailed))
             case UnloadOk => out == Some(Replied)
    ensures CausedBy(EndUnload(o, end), out, told)
  {
    assert EndUnload(o, end) == Finish(o, EndState(end), EndReason(end));
    hide EndUnload, MarkTells;
    if o.state == Failed || o.state == Superseded {} else {}
  }

  // ------------------------------------------------------------ every step

  // Only loads hold the timer of the grace.
  ghost predicate GraceForLoads(s: Sys) {
    forall i :: 0 <= i < |s.ops| && s.ops[i].timers.editorLost ==> s.ops[i].kind == Load
  }

  lemma UpdateCaused(s: Sys, k: nat, o: Op)
    requires Caused(s) && k < |s.ops| && CausedBy(o, OutcomeAt(s, k), k in s.told)
    ensures Caused(Update(s, k, o))
  {
    var s' := Update(s, k, o);
    forall i: nat | i < |s'.ops| ensures CausedBy(s'.ops[i], OutcomeAt(s', i), i in s'.told) {
      assert OutcomeAt(s', i) == OutcomeAt(s, i);
    }
  }

  lemma FrameCaused(s: Sys, f: Frame)
    requires Caused(s)
    ensures Caused(Status(s, f))
  {
    var s' := Status(s, f);
    hide CausedBy, OnStatus, ApplyStatus;
    forall i: nat | i < |s'.ops| ensures CausedBy(s'.ops[i], OutcomeAt(s', i), i in s'.told) {
      StatusCause(s.ops[i], SignalOf(f), s'.eng, OutcomeAt(s, i), i in s.told);
    }
  }

  lemma EndRequestCaused(s: Sys, out: Outcome)
    requires Caused(s)
    ensures Caused(EndRequest(s, out))
  {
    var s' := EndRequest(s, out);
    hide CausedBy;
    forall i: nat | i < |s'.ops| ensures CausedBy(s'.ops[i], OutcomeAt(s', i), i in s'.told) {
      if s.slot == Some(i) { OutcomeComes(s.ops[i], i in s.told, out); }
    }
  }

  lemma CallbackCaused(s: Sys, k: nat)
    requires Caused(s) && Shape(s) && Possible(s, Callback(k))
    ensures Caused(Step(s, Callback(k)))
  {
    var s' := Step(s, Callback(k));
    assert CausedBy(s.ops[k], OutcomeAt(s, k), false);
    ReplyCause(s.ops[k], s.outcomes[k], s.op == Some(k));
    hide CausedBy, OnReply, Shape;
    forall i: nat | i < |s'.ops| ensures CausedBy(s'.ops[i], OutcomeAt(s', i), i in s'.told) {
      assert OutcomeAt(s', i) == OutcomeAt(s, i);
    }
  }

  lemma TimerCaused(s: Sys, e: Event)
    requires Caused(s) && GraceForLoads(s) && Possible(s, e) && (e.BudgetFires? || e.LostFires?)
    ensures Caused(Step(s, e))
  {
    var o, current := s.ops[e.i], s.op == Some(e.i);
    if e.LostFires? { LostCause(o, current, OutcomeAt(s, e.i), e.i in s.told); }
    else { BudgetCause(o, OutcomeAt(s, e.i), e.i in s.told); }
    hide CausedBy, BudgetFired, LostFired, Caused;
    UpdateCaused(s, e.i, if e.BudgetFires? then BudgetFired(o) else LostFired(o, current));
  }

  lemma EndCaused(s: Sys, k: nat, end: UnloadEnd)
    requires Caused(s) && Possible(s, UnloadEnds(k, end))
    ensures Caused(Step(s, UnloadEnds(k, end)))
  {
    EndCause(s.ops[k], end, OutcomeAt(s, k), k in s.told);
    hide CausedBy, EndUnload;
    UpdateCaused(s, k, EndUnload(s.ops[k], end));
    SameCaused(Update(s, k, EndUnload(s.ops[k], end)), Step(s, UnloadEnds(k, end)));
  }

  // Nothing changes that bears on it, but the slot perhaps freed.
  lemma SameCaused(s: Sys, s': Sys)
    requires Caused(s) && s'.ops == s.ops && s'.outcomes == s.outcomes && s'.told == s.told
    requires s'.slot == s.slot || s'.slot == None
    ensures Caused(s')
  {
    forall i: nat | i < |s'.ops| ensures CausedBy(s'.ops[i], OutcomeAt(s', i), i in s'.told) {
      assert OutcomeAt(s', i) == OutcomeAt(s, i);
    }
  }

  lemma AbortCaused(s: Sys)
    requires Caused(s)
    ensures Caused(Step(s, AbortOp(Shutdown)))
  {
    if s.op.Some? && s.op.value < |s.ops| {
      var k := s.op.value;
      AbortCause(s.ops[k], OutcomeAt(s, k), k in s.told);
      hide CausedBy, Abort, Caused;
      UpdateCaused(s, k, Abort(s.ops[k], Shutdown));
    }
  }

  lemma SendCaused(s: Sys)
    requires Caused(s) && Possible(s, TrySend)
    ensures Caused(Step(s, TrySend))
  {
    var s' := Step(s, TrySend);
    SendGoesIff(s);
    SendKeepsOutcomes(s);
    hide Step, Possible;
    if s'.ops == s.ops {
      SameCaused(s, s');
    } else {
      forall i: nat | i < |s'.ops| ensures CausedBy(s'.ops[i], OutcomeAt(s', i), i in s'.told) {
        if i < |s.ops| { assert CausedBy(s.ops[i], OutcomeAt(s, i), i in s.told); }
        assert OutcomeAt(s', i) == OutcomeAt(s, i);
      }
    }
  }

  lemma SendKeepsOutcomes(s: Sys)
    ensures var s' := Step(s, TrySend); s'.outcomes == s.outcomes && s'.told == s.told
  {
    hide SendChecks, NewOp;
  }

  lemma SendEndsCaused(s: Sys, ok: bool)
    requires Caused(s) && Shape(s) && Possible(s, SendEnds(ok))
    ensures Caused(Step(s, SendEnds(ok)))
  {
    var s', k := Step(s, SendEnds(ok)), s.sending.value;
    if ok {
      var s1 := s.(sending := None, next := None);
      InstallKeepsOutcomes(s1, k);
      hide CausedBy, Install, Installed, Supersede;
      forall i: nat | i < |s'.ops| ensures CausedBy(s'.ops[i], OutcomeAt(s', i), i in s'.told) {
        InstallOps(s1, k, i);
        InstallCause(s.ops[i], OutcomeAt(s, i), i in s.told);
        assert OutcomeAt(s', i) == OutcomeAt(s, i);
      }
    } else {
      hide Install, Shape;
      SameCaused(s, s');
    }
  }

  lemma InstallKeepsOutcomes(s: Sys, k: nat)
    requires k < |s.ops|
    ensures var s' := Install(s, k);
            s'.outcomes == s.outcomes && s'.told == s.told && s'.slot == s.slot && |s'.ops| == |s.ops|
  {}

  lemma StepCaused(s: Sys, e: Event)
    requires Caused(s) && GraceForLoads(s) && Shape(s) && Possible(s, e)
    ensures Caused(Step(s, e))
  {
    hide Caused, GraceForLoads, Shape, OnReply, BudgetFired, LostFired, EndUnload, Abort, ApplyStatus, SendChecks;
    hide FirstBlock, ListedBlock;
    match e
    case EngineFrame(f) => FrameCaused(s, f);
    case EditorDown =>
      EndRequestCaused(s, Dropped);
      SameCaused(EndRequest(s, Dropped), Step(s, e));
    case TrySend => SendCaused(s);
    case SendEnds(ok) => SendEndsCaused(s, ok);
    case ReplyArrives(out) => EndRequestCaused(s, out);
    case Callback(k) => CallbackCaused(s, k);
    case BudgetFires(k) => TimerCaused(s, e);
    case LostFires(k) => TimerCaused(s, e);
    case UnloadEnds(k, end) => EndCaused(s, k, end);
    case AbortOp(reason) => AbortCaused(s);
    case _ => SameCaused(s, Step(s, e));
  }

  lemma StepGrace(s: Sys, e: Event)
    requires GraceForLoads(s) && Shape(s) && Possible(s, e)
    ensures GraceForLoads(Step(s, e))
  {
    var s' := Step(s, e);
    OpsGrow(s, e);
    forall i: nat | i < |s'.ops| && s'.ops[i].timers.editorLost ensures s'.ops[i].kind == Load {
      if i < |s.ops| { StepSame(s, e, i); } else { SendGoesIff(s); }
    }
  }

  /** In every run each operation's state and reason, and what it holds of the editor, go back
      to the outcome of its own request, or to the engine, a timer, a shutdown or a newer
      operation. */
  lemma {:induction false} EndsAreCaused(states: seq<Sys>, events: seq<Event>, n: nat)
    requires IsRun(states, events) && n < |states|
    ensures Caused(states[n]) && GraceForLoads(states[n])
  {
    if n > 0 {
      EndsAreCaused(states, events, n - 1);
      RunSound(states, events, n - 1);
      assert Stepped(states, events, n - 1);
      hide Caused, GraceForLoads, Sound, OpSound, Guarded, Step, Possible;
      assert Shape(states[n - 1]) by { ShapeOf(states[n - 1]); }
      StepCaused(states[n - 1], events[n - 1]);
      StepGrace(states[n - 1], events[n - 1]);
    }
  }

  lemma ShapeOf(s: Sys)
    requires Sound(s)
    ensures Shape(s)
  {}
}
