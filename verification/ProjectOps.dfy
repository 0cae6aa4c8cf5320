/** The operations as the program keeps them: records changed in place by callbacks. */
module ProjectOps {
  import opened OrderedDict
  import opened Osc
  import opened EngineState
  import Spec = OpRecords

  class Operation {
    const source: Spec.Source
    const kind: Spec.Kind
    const project: string
    const forced: bool
    const nodesMissing: bool
    var unixName: string
    var state: Spec.OpState
    var reason: Spec.Reason
    var editor: Spec.EditorMark
    var sawNotArmed: bool
    var loadSeen: bool
    var accepted: bool
    var ran: bool
    var overdue: bool
    var done: bool
    var timers: Spec.Timers

    ghost function Now(): Spec.Op
      reads this
    {
      Spec.Op(source, kind, project, unixName, state, reason, editor, sawNotArmed, loadSeen, accepted, ran, forced,
              nodesMissing, overdue, done, timers)
    }

    constructor (source: Spec.Source, kind: Spec.Kind, project: string, unixName: string, forced: bool, missing: bool)
      ensures Now() == Spec.NewOp(source, kind, project, unixName, forced, missing)
    {
      this.source, this.kind, this.project, this.unixName := source, kind, project, unixName;
      this.forced, nodesMissing := forced, missing;
      state, reason, editor := Spec.Loading, Spec.NoReason, Spec.Pending;
      sawNotArmed, loadSeen, accepted, ran, overdue, done := false, false, false, false, false, false;
      timers := Spec.NO_TIMERS;
    }

    method Finish(to: Spec.OpState, why: Spec.Reason)
      modifies this
      ensures Now() == Spec.Finish(old(Now()), to, why)
    {
      if state == Spec.Failed || state == Spec.Superseded { return; }
      state, reason := to, why;
      timers := Spec.NO_TIMERS;
      done := true;
    }
  }

  class Ops {
    const engine: EngineClient
    var op: Operation?
    // The op whose frame is being sent.
    var next: Operation?

    constructor (engine: EngineClient)
      ensures this.engine == engine && op == null && next == null
    {
      this.engine, op, next := engine, null, null;
    }

    method Degraded(o: Operation) returns (r: bool)
      ensures r == Spec.IsDegraded(o.Now(), engine.Now())
    {
      if engine.warningSeen && engine.warning.Some? {
        var w := engine.warning.value;
        if w.hasLoadId && w.project == o.unixName { return w.unreachable; }
      }
      return o.forced && o.nodesMissing;
    }

    method Evaluate(o: Operation)
      modifies o
      ensures o.Now() == Spec.Evaluate(old(o.Now()), engine.Now())
    {
      if o.kind != Spec.Load || o.accepted || o.state != Spec.Loading { return; }
      if engine.armed != "yes" || !o.sawNotArmed { return; }
      if o.unixName != "" {
        if engine.load != o.unixName { return; }
      } else if engine.load == "" || engine.load == UNKNOWN {
        return;
      } else {
        o.unixName := engine.load;
      }
      o.accepted := true;
      var degraded := Degraded(o);
      o.Finish(if degraded then Spec.Degraded else Spec.Armed, Spec.NoReason);
    }

    // The body of the listener's loop, for one operation.
    method Note(o: Operation, f: Frame)
      modifies o
      ensures o.Now() == Spec.OnStatus(old(o.Now()), Spec.SignalOf(f), engine.Now())
    {
      if f.key != "armed" && f.key != "load" && f.key != "running" && f.key != "cluster_warning" { return; }
      if o.kind != Spec.Load { return; }
      if f.key == "armed" && !o.accepted && Str(f.value) != "yes" {
        o.sawNotArmed := true;
      } else if f.key == "load" {
        o.loadSeen := true;
      } else if f.key == "running" && IsYes(f.value) {
        if o.accepted {
          o.ran := true;
        } else if o.state == Spec.Loading && !o.sawNotArmed {
          o.Finish(Spec.Failed, Spec.ShowRunning);
          return;
        }
      }
      Evaluate(o);
    }

    /** The engine status listener: the frame, already in the cache, reaches the operation being
        sent and the current one. */
    method OnEngineStatus(f: Frame)
      requires op != null ==> op != next
      modifies op, next
      ensures op != null ==> op.Now() == Spec.OnStatus(old(op.Now()), Spec.SignalOf(f), engine.Now())
      ensures next != null ==> next.Now() == Spec.OnStatus(old(next.Now()), Spec.SignalOf(f), engine.Now())
    {
      if next != null { Note(next, f); }
      if op != null { Note(op, f); }
    }

    method Install(o: Operation)
      requires o != op
      modifies this`op, op, o
      ensures op == o && o.Now() == Spec.Installed(old(o.Now()))
      ensures old(op) != null ==> old(op).Now() == Spec.Supersede(old(op.Now()))
    {
      if op != null && op.state == Spec.Loading {
        op.state, op.reason := Spec.Superseded, Spec.Replaced;
        op.timers := Spec.NO_TIMERS;
        op.done := true;
      }
      op := o;
      o.timers := o.timers.(budget := true, editorWarn := true);
    }

    // The done callback of the operation's request.
    method OnEditorReply(o: Operation, out: Spec.Outcome)
      modifies o
      ensures o.Now() == Spec.OnReply(old(o.Now()), out, o == op)
    {
      match out
      case Dropped =>
        o.editor := Spec.Lost;
        if o == op && o.state == Spec.Loading && o.kind == Spec.Load {
          o.timers := o.timers.(editorLost := true);
        }
      case Replied => o.editor := Spec.Ok;
      case EngineTimeout => o.editor := Spec.TimedOut;
      case Refused =>
        o.editor := Spec.EditorError;
        if o.kind == Spec.Load { o.Finish(Spec.Failed, Spec.EditorFailed); }
    }

    method OnEditorLost(o: Operation)
      modifies o
      ensures o.Now() == Spec.LostFired(old(o.Now()), o == op)
    {
      o.timers := o.timers.(editorLost := false);
      if o != op || o.state != Spec.Loading { return; }
      if o.sawNotArmed || o.loadSeen { return; }
      o.Finish(Spec.Failed, Spec.EditorVanished);
    }

    method OnBudget(o: Operation)
      modifies o
      ensures o.Now() == Spec.BudgetFired(old(o.Now()))
    {
      o.timers := o.timers.(budget := false);
      if o.state != Spec.Loading || o.done { return; }
      o.overdue := true;
      o.done := true;
    }

    // Shutdown and stop.
    method Abort(why: Spec.Reason)
      modifies op
      ensures op != null ==> op.Now() == Spec.Abort(old(op.Now()), why)
    {
      if op != null && op.state == Spec.Loading { op.Finish(Spec.Failed, why); }
    }

    // The ends of the unload handler.
    method EndUnload(o: Operation, end: Spec.UnloadEnd)
      modifies o
      ensures o.Now() == Spec.EndUnload(old(o.Now()), end)
    {
      match end
      case EditorGone => o.Finish(Spec.Failed, Spec.EditorUnavailable);
      case EditorSilent => o.Finish(Spec.Failed, Spec.EditorSilence);
      case ErrorReply(why) => o.Finish(Spec.Failed, why);
      case UnloadOk => o.Finish(Spec.Unloaded, Spec.NoReason);
    }
  }
}
