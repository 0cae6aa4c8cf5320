/** What a tracked operation has seen of the engine, told from the engine's history, and what
    becomes of it at each frame and timer. */
module OpSeen {
  import opened OrderedDict
  import opened Osc
  import opened EngineState
  import opened OpRecords
  import opened OpRun
  import opened OpHistory

  ghost predicate SawLoad(h: seq<EngineEvent>, born: nat) {
    exists i :: born <= i < |h| && h[i].Got? && h[i].f.key == "load"
  }

  // A tracked load has noted whether the arm dropped since its send, up to its acceptance, and
  // whether a `load` frame came.
  ghost predicate Seen(o: Op, h: seq<EngineEvent>, born: nat) {
    && (!o.accepted ==> (o.sawNotArmed <==> SawDrop(h, born)))
    && (o.loadSeen <==> SawLoad(h, born))
  }

  ghost predicate Noticed(s: Sys) {
    |s.born| == |s.ops|
    && forall i :: 0 <= i < |s.ops| && Tracked(s, i) && s.ops[i].kind == Load ==> Seen(s.ops[i], s.history, s.born[i])
  }

  lemma SeenGrows(h: seq<EngineEvent>, x: EngineEvent, born: nat)
    requires born <= |h|
    ensures SawDrop(h + [x], born) <==> SawDrop(h, born) || (x.Got? && x.f.key == "armed" && Str(x.f.value) != "yes")
    ensures SawLoad(h + [x], born) <==> SawLoad(h, born) || (x.Got? && x.f.key == "load")
  {
    var h' := h + [x];
    if i :| born <= i && ArmFrame(h, i, false) { assert ArmFrame(h', i, false); }
    if i :| born <= i < |h| && h[i].Got? && h[i].f.key == "load" { assert h'[i] == h[i]; }
    if i :| born <= i && ArmFrame(h', i, false) { if i < |h| { assert ArmFrame(h, i, false); } }
    if i :| born <= i < |h'| && h'[i].Got? && h'[i].f.key == "load" { if i < |h| { assert h[i] == h'[i]; } }
    if x.Got? && x.f.key == "armed" && Str(x.f.value) != "yes" { assert ArmFrame(h', |h|, false); }
    if x.Got? && x.f.key == "load" { assert h'[|h|] == x; }
  }

  lemma SeenStatus(o: Op, f: Frame, eng: Cache)
    requires o.kind == Load
    ensures var o' := OnStatus(o, SignalOf(f), eng);
            && (!o'.accepted ==>
                  !o.accepted && o'.sawNotArmed == (o.sawNotArmed || (f.key == "armed" && Str(f.value) != "yes")))
            && o'.loadSeen == (o.loadSeen || f.key == "load")
  {
    var sig := SignalOf(f);
    NoteFacts(o, sig);
    NoteCarries(o, sig);
    EvaluateFacts(Note(o, sig), eng);
    EvaluateCarries(Note(o, sig), eng);
    FinishSeen(o, Failed, ShowRunning);
    hide Evaluate, Note, Finish;
    if sig == Ignored {} else if Overtaken(o, sig) {} else {}
  }

  lemma FinishSeen(o: Op, state: OpState, reason: Reason)
    ensures var o' := Finish(o, state, reason);
            o'.accepted == o.accepted && o'.sawNotArmed == o.sawNotArmed && o'.loadSeen == o.loadSeen
  {}

  lemma FrameSeen(s: Sys, f: Frame)
    requires Noticed(s) && Shape(s)
    ensures Noticed(Status(s, f))
  {
    var s' := Status(s, f);
    forall i | 0 <= i < |s'.ops| && Tracked(s', i) && s'.ops[i].kind == Load
      ensures Seen(s'.ops[i], s'.history, s'.born[i])
    {
      TrackedSeen(s, f, i);
    }
  }

  lemma TrackedSeen(s: Sys, f: Frame, i: nat)
    requires Noticed(s) && Shape(s) && i < |s.ops| && Tracked(s, i) && Status(s, f).ops[i].kind == Load
    ensures Seen(Status(s, f).ops[i], s.history + [Got(f)], s.born[i])
  {
    StatusFacts(s.ops[i], SignalOf(f), ApplyStatus(s.eng, f));
    SeenStatus(s.ops[i], f, ApplyStatus(s.eng, f));
    SeenGrows(s.history, Got(f), s.born[i]);
    hide OnStatus, ApplyStatus, SignalOf;
  }

  lemma LinkSeen(s: Sys, s': Sys, x: EngineEvent)
    requires Noticed(s) && Shape(s) && !x.Got?
    requires s' == s.(eng := s'.eng, history := s.history + [x])
    ensures Noticed(s')
  {
    forall i | 0 <= i < |s.ops| && Tracked(s, i) && s.ops[i].kind == Load
      ensures Seen(s.ops[i], s'.history, s.born[i])
    {
      SeenGrows(s.history, x, s.born[i]);
    }
  }

  // Operation k alone changes, and what it saw stays.
  lemma UpdateSeen(s: Sys, k: nat, o: Op)
    requires Noticed(s) && k < |s.ops|
    requires o.kind == s.ops[k].kind && o.accepted == s.ops[k].accepted
    requires o.sawNotArmed == s.ops[k].sawNotArmed && o.loadSeen == s.ops[k].loadSeen
    ensures Noticed(Update(s, k, o))
  {
    var s' := Update(s, k, o);
    forall i | 0 <= i < |s'.ops| && Tracked(s', i) && s'.ops[i].kind == Load
      ensures Seen(s'.ops[i], s'.history, s'.born[i])
    {
      assert Tracked(s, i);
    }
  }

  // Nothing that bears on it changes but who is tracked, and no operation comes to be.
  lemma RestSeen(s: Sys, s': Sys)
    requires Noticed(s) && s'.ops == s.ops && s'.born == s.born && s'.history == s.history
    requires forall i :: 0 <= i < |s.ops| && Tracked(s', i) && s.ops[i].kind == Load ==> Tracked(s, i)
    ensures Noticed(s')
  {
    forall i | 0 <= i < |s'.ops| && Tracked(s', i) && s'.ops[i].kind == Load
      ensures Seen(s'.ops[i], s'.history, s'.born[i])
    {
      assert Tracked(s, i);
    }
  }

  lemma SendSeen(s: Sys)
    requires Noticed(s) && Shape(s) && Possible(s, TrySend)
    ensures Noticed(Step(s, TrySend))
  {
    var s' := Step(s, TrySend);
    SendGoesIff(s);
    SendKeepsRest(s);
    hide Step, Possible, SendChecks;
    if s'.ops == s.ops {
      RestSeen(s, s');
    } else {
      forall i | 0 <= i < |s'.ops| && Tracked(s', i) && s'.ops[i].kind == Load
        ensures Seen(s'.ops[i], s'.history, s'.born[i])
      {
        if i < |s.ops| { assert Tracked(s, i); }
      }
    }
  }

  lemma SendKeepsRest(s: Sys)
    requires Possible(s, TrySend)
    ensures var s' := Step(s, TrySend);
            && s'.history == s.history && s'.op == s.op
            && (s'.ops == s.ops ==> s'.next == s.next && s'.born == s.born)
  {
    hide SendChecks;
  }

  lemma InstallSeen(s: Sys, ok: bool)
    requires Noticed(s) && Shape(s) && Possible(s, SendEnds(ok))
    ensures Noticed(Step(s, SendEnds(ok)))
  {
    var k, s' := s.sending.value, Step(s, SendEnds(ok));
    var s1 := s.(sending := None, next := None);
    if ok {
      InstallTracks(s1, k);
      forall i | 0 <= i < |s'.ops| && Tracked(s', i) && s'.ops[i].kind == Load
        ensures Seen(s'.ops[i], s'.history, s'.born[i])
      {
        InstallOps(s1, k, i);
        assert i == k && Tracked(s, i);
      }
    } else {
      hide Install;
      RestSeen(s, s');
    }
  }

  lemma InstallTracks(s: Sys, k: nat)
    requires k < |s.ops|
    ensures var s' := Install(s, k);
            s'.op == Some(k) && s'.next == s.next && s'.history == s.history && |s'.ops| == |s.ops| && s'.born == s.born
  {}

  lemma StepNoticed(s: Sys, e: Event)
    requires Noticed(s) && Sound(s) && Possible(s, e)
    ensures Noticed(Step(s, e))
  {
    hide Noticed, OnReply, BudgetFired, LostFired, EndUnload, Abort, ApplyStatus, SendChecks, FirstBlock, ListedBlock;
    hide OpOk, NotMissed, Proven, Leaves, Moves;
    match e
    case EngineUp => LinkSeen(s, Step(s, e), Up);
    case EngineDown => LinkSeen(s, Step(s, e), Down);
    case EngineFrame(f) => FrameSeen(s, f);
    case TrySend => SendSeen(s);
    case SendEnds(ok) => InstallSeen(s, ok);
    case Callback(k) => CallbackSeen(s, k);
    case BudgetFires(k) => TimerSeen(s, e);
    case LostFires(k) => TimerSeen(s, e);
    case UnloadEnds(k, end) => EndSeen(s, k, end);
    case AbortOp(reason) => AbortSeen(s, reason);
    case _ => QuietSeen(s, e);
  }

  lemma QuietSeen(s: Sys, e: Event)
    requires Noticed(s) && Shape(s) && Possible(s, e)
    requires e.EditorUp? || e.EditorDown? || e.ShutdownLock? || e.AskBegins? || e.AskListed? || e.AskDropped?
             || e.ReplyArrives?
    ensures Noticed(Step(s, e))
  {
    hide Noticed, FirstBlock, ListedBlock;
    RestSeen(s, Step(s, e));
  }

  lemma CallbackSeen(s: Sys, k: nat)
    requires Noticed(s) && Sound(s) && Possible(s, Callback(k))
    ensures Noticed(Step(s, Callback(k)))
  {
    assert OpSound(s, k);
    ReplyLife(s.ops[k], s.outcomes[k], s.op == Some(k));
    hide Noticed, OnReply, OpSound, OpOk, Moves;
    var s1 := Update(s, k, OnReply(s.ops[k], s.outcomes[k], s.op == Some(k)));
    UpdateSeen(s, k, s1.ops[k]);
    RestSeen(s1, Step(s, Callback(k)));
  }

  lemma TimerSeen(s: Sys, e: Event)
    requires Noticed(s) && Sound(s) && Possible(s, e) && (e.BudgetFires? || e.LostFires?)
    ensures Noticed(Step(s, e))
  {
    var o, current := s.ops[e.i], s.op == Some(e.i);
    assert OpSound(s, e.i);
    if e.BudgetFires? { BudgetLife(o); } else { LostLife(o, current); }
    hide Noticed, BudgetFired, LostFired, OpSound, OpOk, Moves;
    UpdateSeen(s, e.i, if e.BudgetFires? then BudgetFired(o) else LostFired(o, current));
  }

  lemma EndSeen(s: Sys, k: nat, end: UnloadEnd)
    requires Noticed(s) && Possible(s, UnloadEnds(k, end))
    ensures Noticed(Step(s, UnloadEnds(k, end)))
  {
    assert EndUnload(s.ops[k], end) == Finish(s.ops[k], EndState(end), EndReason(end));
    FinishSeen(s.ops[k], EndState(end), EndReason(end));
    var s1 := Update(s, k, EndUnload(s.ops[k], end));
    assert EndUnload(s.ops[k], end).kind == s.ops[k].kind;
    hide Noticed, EndUnload, Finish;
    UpdateSeen(s, k, s1.ops[k]);
    RestSeen(s1, Step(s, UnloadEnds(k, end)));
  }

  lemma AbortSeen(s: Sys, reason: Reason)
    requires Noticed(s) && Sound(s)
    ensures Noticed(Step(s, AbortOp(reason)))
  {
    if s.op.Some? {
      var k := s.op.value;
      assert OpSound(s, k);
      AbortLeaves(s.ops[k], reason);
      hide Noticed, Abort, Sound, OpSound;
      UpdateSeen(s, k, Abort(s.ops[k], reason));
    }
  }

  lemma AbortLeaves(o: Op, reason: Reason)
    ensures var o' := Abort(o, reason);
            && o'.kind == o.kind && o'.accepted == o.accepted && o'.sawNotArmed == o.sawNotArmed
            && o'.loadSeen == o.loadSeen
  {
    if o.state == Loading {} else {}
  }

  lemma {:induction false} RunNoticed(states: seq<Sys>, events: seq<Event>, n: nat)
    requires IsRun(states, events) && n < |states|
    ensures Noticed(states[n])
  {
    if n > 0 {
      RunNoticed(states, events, n - 1);
      RunSound(states, events, n - 1);
      assert Stepped(states, events, n - 1);
      hide Noticed, Sound, Step, Possible;
      StepNoticed(states[n - 1], events[n - 1]);
    }
  }

  // ------------------------------------------------------------ what becomes of it

  // The engine's load is the asked project's, or any project while its name is not known.
  predicate IsLoaded(o: Op, eng: Cache) {
    if o.unixName == "" then eng.load != "" && eng.load != "unknown" else eng.load == o.unixName
  }

  // A run of the show that came before the arm dropped for this load.
  ghost predicate RunFirst(s: Sys, i: nat, f: Frame)
    requires i < |s.ops| && i < |s.born|
  {
    f.key == "running" && f.value.Text? && f.value.s == "yes" && !SawDrop(s.history, s.born[i])
  }

  /** A frame decides a tracked, loading load, by the engine's history alone: it is accepted
      exactly if the arm has dropped since its send, the engine is armed now with its project
      loaded, and the frame is one that is looked at; it fails exactly if the frame says that
      the show runs while the arm has not dropped yet; otherwise it stays loading. */
  lemma FrameDecides(states: seq<Sys>, events: seq<Event>, n: nat, i: nat, f: Frame)
    requires IsRun(states, events) && n < |states| && i < |states[n].ops| && Tracked(states[n], i)
    requires states[n].ops[i].kind == Load && states[n].ops[i].state == Loading
    ensures var s, s' := states[n], Step(states[n], EngineFrame(f));
            var looked := f.key == "armed" || f.key == "load" || f.key == "running" || f.key == "cluster_warning";
            && |s.born| == |s'.ops| == |s.ops|
            && (s'.ops[i].accepted <==>
                  looked && !RunFirst(s, i, f) && SawDrop(s.history + [Got(f)], s.born[i])
                  && s'.eng.armed == "yes" && IsLoaded(s.ops[i], s'.eng))
            && (s'.ops[i].state == Failed <==> RunFirst(s, i, f))
            && (s'.ops[i].state == Failed ==> s'.ops[i].reason == ShowRunning)
            && (s'.ops[i].state == Loading <==> !s'.ops[i].accepted && !RunFirst(s, i, f))
  {
    var s, eng := states[n], ApplyStatus(states[n].eng, f);
    var o, sig := s.ops[i], SignalOf(f);
    RunSound(states, events, n);
    RunNoticed(states, events, n);
    assert OpSound(s, i) && Seen(o, s.history, s.born[i]) && s.born[i] <= |s.history|;
    assert Step(s, EngineFrame(f)).ops[i] == OnStatus(o, sig, eng);
    SignalMeans(f);
    SeenGrows(s.history, Got(f), s.born[i]);
    AcceptedIff(o, sig, eng);
    FrameFailsIff(o, sig, eng);
    StaysOrEnds(o, sig, eng);
    hide OnStatus, ApplyStatus, SignalOf, IsRun, Sound, OpSound, SawDrop, Noticed;
  }

  lemma SignalMeans(f: Frame)
    ensures SignalOf(f) != Ignored
            <==> f.key == "armed" || f.key == "load" || f.key == "running" || f.key == "cluster_warning"
    ensures SignalOf(f) == RunningYes <==> f.key == "running" && f.value.Text? && f.value.s == "yes"
    ensures SignalOf(f) == ArmedNot <==> f.key == "armed" && Str(f.value) != "yes"
  {}

  lemma StaysOrEnds(o: Op, sig: Signal, eng: Cache)
    requires OpOk(o) && o.state == Loading
    ensures var o' := OnStatus(o, sig, eng); o'.state == Loading || o'.state == Failed || o'.accepted
    ensures OnStatus(o, sig, eng).accepted ==> OnStatus(o, sig, eng).state != Loading
    ensures OnStatus(o, sig, eng).state == Failed ==> !OnStatus(o, sig, eng).accepted
  {
    StatusLife(o, sig, eng);
    NoteFacts(o, sig);
    hide Note, LoadMatches, IsDegraded;
    if sig == Ignored || o.kind != Load {} else if Overtaken(o, sig) {} else {}
  }

  /** When the grace after a lost editor is over, a load that is still loading fails exactly if
      it is the current one and the engine has shown neither a drop of the arm nor a `load`
      since its send. */
  lemma GraceDecides(states: seq<Sys>, events: seq<Event>, n: nat, i: nat)
    requires IsRun(states, events) && n < |states| && i < |states[n].ops|
    requires states[n].ops[i].kind == Load && states[n].ops[i].state == Loading && states[n].op == Some(i)
    ensures var s, o' := states[n], Step(states[n], LostFires(i)).ops[i];
            && i < |s.born|
            && (o'.state == Failed <==> !SawDrop(s.history, s.born[i]) && !SawLoad(s.history, s.born[i]))
            && (o'.state == Failed ==> o'.reason == EditorVanished)
            && (o'.state != Failed ==> o'.state == Loading)
  {
    var s := states[n];
    RunSound(states, events, n);
    RunNoticed(states, events, n);
    assert OpSound(s, i) && Tracked(s, i) && Seen(s.ops[i], s.history, s.born[i]);
    hide IsRun, Sound, OpSound, Noticed;
  }

  /** No tracked load rests loading while, since its send, the arm has dropped, and the engine
      is armed now with its project loaded. */
  lemma NoArmMissedInHistory(states: seq<Sys>, events: seq<Event>, n: nat, i: nat)
    requires IsRun(states, events) && n < |states| && i < |states[n].ops| && Tracked(states[n], i)
    requires states[n].ops[i].kind == Load && states[n].ops[i].state == Loading
    ensures var s := states[n];
            i < |s.born| && !(SawDrop(s.history, s.born[i]) && s.eng.armed == "yes" && IsLoaded(s.ops[i], s.eng))
  {
    RunNoticed(states, events, n);
    RunSound(states, events, n);
    assert OpSound(states[n], i) && Seen(states[n].ops[i], states[n].history, states[n].born[i]);
    NoArmMissed(states, events, n, i);
    hide IsRun, Sound, OpSound, Noticed;
  }

  // ------------------------------------------------------------ the budget

  ghost predicate AllWatched(s: Sys) {
    forall i :: i in s.installed && i < |s.ops| ==> Watched(s.ops[i])
  }

  lemma StepWatched(s: Sys, e: Event)
    requires AllWatched(s) && Sound(s) && Possible(s, e)
    ensures AllWatched(Step(s, e))
  {
    var s' := Step(s, e);
    OpsGrow(s, e);
    InstalledGrows(s, e);
    forall i | i in s'.installed && i < |s'.ops| ensures Watched(s'.ops[i]) {
      assert i < |s.ops|;
      StepWatchedOne(s, e, i);
    }
  }

  lemma InstalledGrows(s: Sys, e: Event)
    requires Possible(s, e)
    ensures forall i :: i in Step(s, e).installed ==> i in s.installed || (e == SendEnds(true) && s.sending == Some(i))
  {
    hide OnReply, BudgetFired, LostFired, EndUnload, Abort, OnStatus, ApplyStatus, SendChecks, FirstBlock, ListedBlock;
    match e
    case SendEnds(ok) =>
    case _ =>
  }

  lemma StepWatchedOne(s: Sys, e: Event, i: nat)
    requires AllWatched(s) && Sound(s) && Possible(s, e) && i < |s.ops|
    requires i in s.installed || (e == SendEnds(true) && s.sending == Some(i))
    ensures i < |Step(s, e).ops| && Watched(Step(s, e).ops[i])
  {
    assert OpSound(s, i);
    hide SameOp, Step, Possible, Watched;
    match e
    case EngineFrame(f) => FrameCarries(s, f, i);
    case SendEnds(ok) => SendEndsSame(s, ok, i);
    case Callback(k) => assert k < |s.ops| && k in s.outcomes by { CallbackIs(s, k); } CallbackSame(s, k, i);
    case BudgetFires(k) => TimerIs(s, e); if k == i { BudgetSame(s, k, i); } else { BudgetOther(s, k, i); }
    case LostFires(k) => TimerIs(s, e); LostSame(s, k, i);
    case UnloadEnds(k, end) => EndIs(s, k, end); EndSame(s, k, end, i);
    case AbortOp(reason) => AbortSame(s, reason, i);
    case _ => OthersKeepOps(s, e, i);
  }

  lemma CallbackIs(s: Sys, k: nat)
    requires Shape(s) && Possible(s, Callback(k))
    ensures k < |s.ops| && k in s.outcomes
  {}

  lemma TimerIs(s: Sys, e: Event)
    requires Possible(s, e) && (e.BudgetFires? || e.LostFires?)
    ensures e.i < |s.ops|
  {}

  lemma EndIs(s: Sys, k: nat, end: UnloadEnd)
    requires Possible(s, UnloadEnds(k, end))
    ensures k < |s.ops|
  {}

  lemma BudgetOther(s: Sys, k: nat, i: nat)
    requires k != i && k < |s.ops| && i < |s.ops|
    ensures Step(s, BudgetFires(k)).ops[i] == s.ops[i]
  {
    hide BudgetFired;
  }

  /** Every installed operation that is still loading has its budget timer running, or has been
      told overdue: none is waited for without an end. */
  lemma BudgetWatches(states: seq<Sys>, events: seq<Event>, n: nat, i: nat)
    requires IsRun(states, events) && n < |states| && i in states[n].installed && i < |states[n].ops|
    ensures var o := states[n].ops[i];
            o.state == Loading ==> o.timers.budget || (o.overdue && o.done)
  {
    RunWatched(states, events, n);
    RunSound(states, events, n);
    assert OpSound(states[n], i);
  }

  lemma {:induction false} RunWatched(states: seq<Sys>, events: seq<Event>, n: nat)
    requires IsRun(states, events) && n < |states|
    ensures AllWatched(states[n])
  {
    if n > 0 {
      RunWatched(states, events, n - 1);
      RunSound(states, events, n - 1);
      assert Stepped(states, events, n - 1);
      hide AllWatched, Sound, Step, Possible;
      StepWatched(states[n - 1], events[n - 1]);
    }
  }
}
