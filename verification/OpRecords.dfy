/** The record of one load or unload operation, and what each event does to it. */
module OpRecords {
  import opened OrderedDict
  import opened Osc
  import opened EngineState

  datatype Source = Operator | AutoLoad
  datatype Kind = Load | Unload
  datatype OpState = Loading | Armed | Degraded | Failed | Superseded | Unloaded
  datatype EditorMark = Pending | Ok | TimedOut | EditorError | Lost
  datatype Reason =
    | NoReason | ShowRunning | EditorFailed | EditorVanished | EditorUnavailable | EditorSilence | Replaced
    | Shutdown
  // The call_later handles an op still holds.
  datatype Timers = Timers(budget: bool, editorWarn: bool, editorLost: bool)

  const NO_TIMERS := Timers(false, false, false)

  // How the request ended, as its future tells.
  datatype Outcome = Replied | EngineTimeout | Refused | Dropped

  datatype Op = Op(
    source: Source,
    kind: Kind,
    project: string,
    unixName: string,
    state: OpState,
    reason: Reason,
    editor: EditorMark,
    sawNotArmed: bool,
    loadSeen: bool,
    accepted: bool,
    ran: bool,
    forced: bool,
    nodesMissing: bool,
    overdue: bool,
    done: bool,
    timers: Timers
  )

  function NewOp(source: Source, kind: Kind, project: string, unixName: string, forced: bool, missing: bool): Op {
    Op(source, kind, project, unixName, Loading, NoReason, Pending, false, false, false, false, forced, missing,
       false, false, NO_TIMERS)
  }

  // ProjectOps._finish
  function Finish(o: Op, state: OpState, reason: Reason): Op {
    if o.state == Failed || o.state == Superseded then o
    else o.(state := state, reason := reason, timers := NO_TIMERS, done := true)
  }

  // ProjectOps._degraded
  predicate IsDegraded(o: Op, eng: Cache) {
    if eng.warningSeen && eng.warning.Some? && eng.warning.value.hasLoadId && eng.warning.value.project == o.unixName
    then eng.warning.value.unreachable
    else o.forced && o.nodesMissing
  }

  // The engine's load is the op's, or, if its name is not known yet, is some project.
  predicate LoadMatches(o: Op, eng: Cache) {
    if o.unixName != "" then eng.load == o.unixName else eng.load != "" && eng.load != UNKNOWN
  }

  // ProjectOps._evaluate
  function Evaluate(o: Op, eng: Cache): Op {
    if o.kind != Load || o.accepted || o.state != Loading then o
    else if eng.armed != "yes" || !o.sawNotArmed || !LoadMatches(o, eng) then o
    else
      var o1 := o.(unixName := if o.unixName != "" then o.unixName else eng.load, accepted := true);
      Finish(o1, if IsDegraded(o1, eng) then Degraded else Armed, NoReason)
  }

  // What a frame is to the operations.
  datatype Signal = ArmedYes | ArmedNot | LoadFrame | RunningYes | Reevaluate | Ignored

  function SignalOf(f: Frame): Signal {
    if f.key == "armed" then (if Str(f.value) == "yes" then ArmedYes else ArmedNot)
    else if f.key == "load" then LoadFrame
    else if f.key == "running" then (if IsYes(f.value) then RunningYes else Reevaluate)
    else if f.key == "cluster_warning" then Reevaluate
    else Ignored
  }

  // A GO started the loaded show before this load reached the engine.
  predicate Overtaken(o: Op, s: Signal) {
    s == RunningYes && !o.accepted && o.state == Loading && !o.sawNotArmed
  }

  // What ProjectOps.on_engine_status notes in one op, before it evaluates it.
  function Note(o: Op, s: Signal): Op {
    if s == ArmedNot && !o.accepted then o.(sawNotArmed := true)
    else if s == LoadFrame then o.(loadSeen := true)
    else if s == RunningYes && o.accepted then o.(ran := true)
    else o
  }

  // ProjectOps.on_engine_status, for one op; `eng` is the cache with the frame applied.
  function OnStatus(o: Op, s: Signal, eng: Cache): Op {
    if s == Ignored || o.kind != Load then o
    else if Overtaken(o, s) then Finish(o, Failed, ShowRunning)
    else Evaluate(Note(o, s), eng)
  }

  // ProjectOps._install, for the op it replaces and for the new one.
  function Supersede(o: Op): Op {
    if o.state == Loading then o.(state := Superseded, reason := Replaced, timers := NO_TIMERS, done := true) else o
  }

  function Installed(o: Op): Op {
    o.(timers := o.timers.(budget := true, editorWarn := true))
  }

  // ProjectOps._on_editor_reply
  function OnReply(o: Op, out: Outcome, isCurrent: bool): Op {
    match out
    case Replied => o.(editor := Ok)
    case EngineTimeout => o.(editor := TimedOut)
    case Refused =>
      var o1 := o.(editor := EditorError);
      if o.kind == Load then Finish(o1, Failed, EditorFailed) else o1
    case Dropped =>
      var o1 := o.(editor := Lost);
      if isCurrent && o.state == Loading && o.kind == Load then o1.(timers := o1.timers.(editorLost := true)) else o1
  }

  // ProjectOps._on_editor_lost
  function OnEditorLost(o: Op, isCurrent: bool): Op {
    if !isCurrent || o.state != Loading || o.sawNotArmed || o.loadSeen then o
    else Finish(o, Failed, EditorVanished)
  }

  // ProjectOps._on_budget
  function OnBudget(o: Op): Op {
    if o.state != Loading || o.done then o else o.(overdue := true, done := true)
  }

  // ProjectOps.abort, for the current op.
  function Abort(o: Op, reason: Reason): Op {
    if o.state == Loading then Finish(o, Failed, reason) else o
  }

  // How the unload handler ends its op.
  datatype UnloadEnd = EditorGone | EditorSilent | ErrorReply(reason: Reason) | UnloadOk

  function EndUnload(o: Op, end: UnloadEnd): Op {
    match end
    case EditorGone => Finish(o, Failed, EditorUnavailable)
    case EditorSilent => Finish(o, Failed, EditorSilence)
    case ErrorReply(reason) => Finish(o, Failed, reason)
    case UnloadOk => Finish(o, Unloaded, NoReason)
  }

  // ------------------------------------------------------------ one op's life

  // Every record: its waiters woken exactly when it is out of loading or overdue; accepted ops
  // only, and all of them, are armed, degraded or have failed since.
  ghost predicate OpOk(o: Op) {
    && (o.done <==> o.state != Loading || o.overdue)
    && (o.accepted ==> o.state == Armed || o.state == Degraded || o.state == Failed)
    && (o.state == Armed || o.state == Degraded ==> o.accepted)
    && (o.kind == Unload ==> !o.accepted)
    && (o.state == Unloaded ==> o.kind == Unload)
  }

  // No arm is missed: a load that saw the arm drop does not rest while the arm is back on
  // with its project loaded.
  ghost predicate NotMissed(o: Op, eng: Cache) {
    !(o.kind == Load && o.state == Loading && !o.accepted && o.sawNotArmed && eng.armed == "yes" && LoadMatches(o, eng))
  }

  // The states an op can move to, and what alone moves it out of armed or degraded.
  ghost predicate Moves(o: Op, o': Op, refused: bool) {
    && (o.state == Failed || o.state == Superseded ==> o'.state == o.state && o'.reason == o.reason)
    && (o.state == Unloaded ==> o'.state == Unloaded)
    && (o.state == Armed || o.state == Degraded ==> o'.state == o.state || (o'.state == Failed && refused))
    && (o.done ==> o'.done) && (o.accepted ==> o'.accepted) && (o.overdue ==> o'.overdue)
  }

  lemma MovesRefl(o: Op)
    ensures Moves(o, o, false)
  {}

  lemma FinishLife(o: Op, state: OpState, reason: Reason)
    requires OpOk(o) && (state == Failed || (state == Unloaded && o.kind == Unload))
    requires o.state == Loading || (o.state == Failed || o.state == Superseded)
    ensures OpOk(Finish(o, state, reason)) && Moves(o, Finish(o, state, reason), false)
  {}

  lemma EvaluateLife(o: Op, eng: Cache)
    requires OpOk(o)
    ensures OpOk(Evaluate(o, eng)) && Moves(o, Evaluate(o, eng), false) && NotMissed(Evaluate(o, eng), eng)
    ensures Evaluate(o, eng).accepted <==> o.accepted || !NotMissed(o, eng)
    ensures Evaluate(o, eng).kind == o.kind && Evaluate(o, eng).sawNotArmed == o.sawNotArmed
    ensures !o.accepted && Evaluate(o, eng).accepted ==> Evaluate(o, eng).unixName == eng.load
  {
    hide IsDegraded;
  }

  lemma StatusLife(o: Op, s: Signal, eng: Cache)
    requires OpOk(o)
    ensures OpOk(OnStatus(o, s, eng)) && Moves(o, OnStatus(o, s, eng), false)
    ensures s != Ignored ==> NotMissed(OnStatus(o, s, eng), eng)
  {
    NoteFacts(o, s);
    hide Evaluate, LoadMatches, Note;
    if s == Ignored || o.kind != Load {
      MovesRefl(o);
    } else if Overtaken(o, s) {
      FinishLife(o, Failed, ShowRunning);
    } else {
      EvaluateLife(Note(o, s), eng);
    }
  }

  /** An op is accepted exactly when it was, or when this frame leaves it loading, having seen
      the arm drop, with the arm on and its project loaded. */
  lemma AcceptedIff(o: Op, s: Signal, eng: Cache)
    requires OpOk(o)
    ensures OnStatus(o, s, eng).accepted <==>
              o.accepted
              || (s != Ignored && o.kind == Load && o.state == Loading && !Overtaken(o, s)
                  && (o.sawNotArmed || s == ArmedNot)
                  && eng.armed == "yes" && LoadMatches(o, eng))
    ensures !o.accepted && OnStatus(o, s, eng).accepted ==> OnStatus(o, s, eng).unixName == eng.load
  {
    NoteFacts(o, s);
    EvaluateLife(Note(o, s), eng);
    LoadMatchesNote(o, s, eng);
    hide Evaluate, LoadMatches, Note;
    if s == Ignored || o.kind != Load {} else if Overtaken(o, s) {} else {}
  }

  lemma LoadMatchesNote(o: Op, s: Signal, eng: Cache)
    ensures LoadMatches(Note(o, s), eng) == LoadMatches(o, eng)
  {}

  // What neither a reply nor a timer changes.
  ghost predicate Leaves(o: Op, o': Op, ended: bool) {
    && o'.accepted == o.accepted && o'.unixName == o.unixName && o'.sawNotArmed == o.sawNotArmed
    && o'.loadSeen == o.loadSeen && o'.kind == o.kind && (o.state != Loading ==> o'.state != Loading)
    && (o'.state == Unloaded ==> o.state == Unloaded || ended)
  }

  lemma FailLeaves(o: Op, reason: Reason)
    ensures Leaves(o, Finish(o, Failed, reason), false)
  {
    if o.state == Failed || o.state == Superseded {} else {}
  }

  lemma MarkLife(o: Op, out: Outcome, isCurrent: bool)
    requires OpOk(o) && out != Refused
    ensures OpOk(OnReply(o, out, isCurrent)) && Moves(o, OnReply(o, out, isCurrent), false)
    ensures Leaves(o, OnReply(o, out, isCurrent), false)
  {
    if out == Dropped {
      if isCurrent && o.state == Loading && o.kind == Load {} else {}
    } else if out == Replied {} else {}
  }

  // A definitive error fails a load, whatever it had come to.
  lemma RefusedLife(o: Op, isCurrent: bool)
    requires OpOk(o)
    ensures OpOk(OnReply(o, Refused, isCurrent)) && Moves(o, OnReply(o, Refused, isCurrent), true)
    ensures Leaves(o, OnReply(o, Refused, isCurrent), false)
  {
    var o1 := o.(editor := EditorError);
    FailLeaves(o1, EditorFailed);
    if o.kind == Load { FailedMoves(o1, EditorFailed); }
    hide Finish;
    if o.kind == Load {} else {}
  }

  lemma FailedMoves(o: Op, reason: Reason)
    requires OpOk(o) && o.kind == Load
    ensures OpOk(Finish(o, Failed, reason)) && Moves(o, Finish(o, Failed, reason), true)
  {
    if o.state == Failed || o.state == Superseded {} else {}
  }

  lemma ReplyLife(o: Op, out: Outcome, isCurrent: bool)
    requires OpOk(o)
    ensures OpOk(OnReply(o, out, isCurrent)) && Moves(o, OnReply(o, out, isCurrent), out == Refused)
    ensures Leaves(o, OnReply(o, out, isCurrent), false)
  {
    hide OnReply;
    if out == Refused { RefusedLife(o, isCurrent); } else { MarkLife(o, out, isCurrent); }
  }

  // A timer that fires is no longer held.
  function BudgetFired(o: Op): Op {
    OnBudget(o.(timers := o.timers.(budget := false)))
  }

  function LostFired(o: Op, isCurrent: bool): Op {
    OnEditorLost(o.(timers := o.timers.(editorLost := false)), isCurrent)
  }

  lemma BudgetLife(o: Op)
    requires OpOk(o)
    ensures OpOk(BudgetFired(o)) && Moves(o, BudgetFired(o), false) && Leaves(o, BudgetFired(o), false)
  {
    if o.state != Loading || o.done {} else {}
  }

  lemma LostIs(o: Op, isCurrent: bool)
    ensures var o1 := o.(timers := o.timers.(editorLost := false));
            LostFired(o, isCurrent) == if isCurrent && o.state == Loading && !o.sawNotArmed && !o.loadSeen
                                       then Finish(o1, Failed, EditorVanished) else o1
  {
    hide Finish;
  }

  lemma LostLife(o: Op, isCurrent: bool)
    requires OpOk(o)
    ensures OpOk(LostFired(o, isCurrent)) && Moves(o, LostFired(o, isCurrent), false)
    ensures Leaves(o, LostFired(o, isCurrent), false)
  {
    if !isCurrent || o.state != Loading || o.sawNotArmed || o.loadSeen {} else {}
  }

  lemma EndLife(o: Op, reason: Reason)
    requires OpOk(o)
    ensures OpOk(Abort(o, reason)) && Moves(o, Abort(o, reason), false) && Leaves(o, Abort(o, reason), false)
    ensures OpOk(Supersede(o)) && Moves(o, Supersede(o), false)
    ensures Supersede(o).state != Loading && Leaves(o, Supersede(o), false)
    ensures o.state == Loading ==> Abort(o, reason).state == Failed && Abort(o, reason).reason == reason
    ensures o.state == Loading ==> Supersede(o).state == Superseded && Supersede(o).reason == Replaced
    ensures o.state != Loading ==> Abort(o, reason) == o == Supersede(o)
  {
    if o.state == Loading {} else {}
  }

  function EndState(end: UnloadEnd): OpState {
    if end == UnloadOk then Unloaded else Failed
  }

  function EndReason(end: UnloadEnd): Reason {
    match end
    case EditorGone => EditorUnavailable
    case EditorSilent => EditorSilence
    case ErrorReply(reason) => reason
    case UnloadOk => NoReason
  }

  lemma UnloadLife(o: Op, end: UnloadEnd)
    requires OpOk(o) && o.kind == Unload && o.state != Unloaded
    ensures OpOk(EndUnload(o, end)) && Moves(o, EndUnload(o, end), false) && Leaves(o, EndUnload(o, end), true)
  {
    assert EndUnload(o, end) == Finish(o, EndState(end), EndReason(end));
    FinishLife(o, EndState(end), EndReason(end));
    if o.state == Failed || o.state == Superseded {} else {}
  }

  // ------------------------------------------------------------ what each event leaves alone

  lemma StatusFacts(o: Op, sig: Signal, eng: Cache)
    ensures var o' := OnStatus(o, sig, eng);
            && o'.kind == o.kind
            && (sig == Ignored ==> o' == o)
            && (o'.sawNotArmed ==> o.sawNotArmed || sig == ArmedNot)
            && (o.accepted ==> o'.unixName == o.unixName)
            && (o'.state == Unloaded ==> o.state == Unloaded)
            && (o.state != Loading ==> o'.state != Loading)
  {
    EvaluateFacts(Note(o, sig), eng);
    NoteFacts(o, sig);
    hide Evaluate, Note;
    if sig == Ignored || o.kind != Load {} else if Overtaken(o, sig) {} else {}
  }

  lemma NoteFacts(o: Op, sig: Signal)
    ensures var o' := Note(o, sig);
            && o'.kind == o.kind && o'.unixName == o.unixName && o'.accepted == o.accepted && o'.state == o.state
            && o'.sawNotArmed == (o.sawNotArmed || (sig == ArmedNot && !o.accepted))
            && (OpOk(o) ==> OpOk(o'))
            && Moves(o, o', false)
  {
    if sig == ArmedNot && !o.accepted {} else if sig == LoadFrame {} else if sig == RunningYes && o.accepted {} else {}
  }

  lemma EvaluateFacts(o: Op, eng: Cache)
    ensures var o' := Evaluate(o, eng);
            && o'.kind == o.kind && o'.sawNotArmed == o.sawNotArmed
            && (o.accepted ==> o'.unixName == o.unixName)
            && (o'.state == Unloaded ==> o.state == Unloaded)
            && (o.state != Loading ==> o'.state != Loading)
  {
    hide IsDegraded, LoadMatches;
  }

  // ------------------------------------------------------------ what ends an operation

  // The engine's own diagnosis of this load, if there is one for it.
  ghost predicate Diagnosed(eng: Cache, name: string, unreachable: bool) {
    && eng.warningSeen && eng.warning.Some? && eng.warning.value.hasLoadId
    && eng.warning.value.project == name && eng.warning.value.unreachable == unreachable
  }

  /** An accepted load ends degraded exactly when the engine's diagnosis of this very load
      names unreachable nodes, or, without such a diagnosis, when it was forced past missing
      nodes; otherwise it ends armed. */
  lemma DegradedIff(o: Op, s: Signal, eng: Cache)
    requires OpOk(o) && !o.accepted && OnStatus(o, s, eng).accepted
    ensures var o' := OnStatus(o, s, eng);
            && (o'.state == Degraded <==>
                  Diagnosed(eng, eng.load, true)
                  || (!Diagnosed(eng, eng.load, false) && o.forced && o.nodesMissing))
            && (o'.state == Armed || o'.state == Degraded) && o'.reason == NoReason && o'.done
  {
    AcceptedIff(o, s, eng);
    AcceptedEnds(Note(o, s), eng);
    NoteFacts(o, s);
    hide Evaluate, LoadMatches, IsDegraded;
  }

  lemma AcceptedEnds(o: Op, eng: Cache)
    requires OpOk(o) && !o.accepted && Evaluate(o, eng).accepted
    ensures var o' := Evaluate(o, eng);
            && (o'.state == Degraded <==>
                  Diagnosed(eng, eng.load, true)
                  || (!Diagnosed(eng, eng.load, false) && o.forced && o.nodesMissing))
            && (o'.state == Armed || o'.state == Degraded) && o'.reason == NoReason && o'.done
  {
    var o1 := o.(unixName := if o.unixName != "" then o.unixName else eng.load, accepted := true);
    assert o1.unixName == eng.load;
    DegradedMeans(o1, eng);
    hide IsDegraded, Diagnosed, LoadMatches;
  }

  lemma DegradedMeans(o: Op, eng: Cache)
    ensures IsDegraded(o, eng) <==>
              Diagnosed(eng, o.unixName, true)
              || (!Diagnosed(eng, o.unixName, false) && o.forced && o.nodesMissing)
  {}

  /** A loading operation fails on a frame exactly when a run of the show overtook it. */
  lemma FrameFailsIff(o: Op, s: Signal, eng: Cache)
    requires OpOk(o) && o.state == Loading
    ensures OnStatus(o, s, eng).state == Failed <==> o.kind == Load && Overtaken(o, s)
    ensures OnStatus(o, s, eng).state == Failed ==> OnStatus(o, s, eng).reason == ShowRunning
  {
    NoteFacts(o, s);
    EvaluateNeverFails(Note(o, s), eng);
    hide Evaluate, Note, LoadMatches;
    if o.kind == Load && Overtaken(o, s) {} else {}
  }

  /** It fails on the end of its request exactly when it is a load and met a definitive error;
      after a lost editor exactly when it is still the current one and the engine has shown no
      sign of the load; and a budget that runs out leaves it loading, overdue, its waiters
      woken. */
  lemma CallbackFailsIff(o: Op, out: Outcome, isCurrent: bool)
    requires OpOk(o) && o.state == Loading
    ensures OnReply(o, out, isCurrent).state == Failed <==> out == Refused && o.kind == Load
    ensures OnReply(o, out, isCurrent).state == Failed ==> OnReply(o, out, isCurrent).reason == EditorFailed
    ensures LostFired(o, isCurrent).state == Failed <==> isCurrent && !o.sawNotArmed && !o.loadSeen
    ensures LostFired(o, isCurrent).state == Failed ==> LostFired(o, isCurrent).reason == EditorVanished
    ensures BudgetFired(o).state == Loading && BudgetFired(o).overdue && BudgetFired(o).done
  {
    ReplyEnds(o, out, isCurrent);
    TimersEnd(o, isCurrent);
    hide OnReply, LostFired, BudgetFired;
  }

  lemma ReplyEnds(o: Op, out: Outcome, isCurrent: bool)
    requires o.state == Loading
    ensures OnReply(o, out, isCurrent).state == Failed <==> out == Refused && o.kind == Load
    ensures OnReply(o, out, isCurrent).state == Failed ==> OnReply(o, out, isCurrent).reason == EditorFailed
  {
    if out == Refused { if o.kind == Load {} else {} } else {}
  }

  lemma TimersEnd(o: Op, isCurrent: bool)
    requires OpOk(o) && o.state == Loading
    ensures LostFired(o, isCurrent).state == Failed <==> isCurrent && !o.sawNotArmed && !o.loadSeen
    ensures LostFired(o, isCurrent).state == Failed ==> LostFired(o, isCurrent).reason == EditorVanished
    ensures BudgetFired(o).state == Loading && BudgetFired(o).overdue && BudgetFired(o).done
  {
    if isCurrent && !o.sawNotArmed && !o.loadSeen {} else {}
  }

  lemma EvaluateNeverFails(o: Op, eng: Cache)
    ensures o.state == Loading ==> Evaluate(o, eng).state != Failed
  {
    hide IsDegraded, LoadMatches;
  }
}
