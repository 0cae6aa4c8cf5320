/** The operations as objects take the very steps of the protocol's runs. */
module OpSteps {
  import opened OrderedDict
  import opened EngineState
  import opened OpRecords
  import opened ProjectOps
  import OpRun

  // The object a number stands for.
  ghost predicate Stands(o: Operation?, n: Option<nat>, all: seq<Operation>) {
    match n
    case None => o == null
    case Some(i) => i < |all| && o == all[i]
  }

  ghost predicate Records(all: seq<Operation>, ops: seq<Op>)
    reads all
  {
    && |all| == |ops| && (forall i, j :: 0 <= i < j < |all| ==> all[i] != all[j])
    && forall i :: 0 <= i < |all| ==> all[i].Now() == ops[i]
  }

  // `all` are the operations of the protocol state s, by number.
  ghost predicate Mirrors(p: Ops, all: seq<Operation>, s: OpRun.Sys)
    reads p, p.engine, all
  {
    Records(all, s.ops) && p.engine.Now() == s.eng && Stands(p.op, s.op, all) && Stands(p.next, s.next, all)
  }

  lemma TrackedDiffer(p: Ops, all: seq<Operation>, s: OpRun.Sys)
    requires Mirrors(p, all, s) && OpRun.Sound(s)
    ensures p.op != null ==> p.op != p.next
  {}

  lemma StatusOps(s: OpRun.Sys, f: Frame)
    ensures var s' := OpRun.Step(s, OpRun.EngineFrame(f));
            && s'.eng == ApplyStatus(s.eng, f) && s'.op == s.op && s'.next == s.next && |s'.ops| == |s.ops|
            && forall i: nat :: i < |s.ops| ==>
                 s'.ops[i] == if OpRun.Tracked(s, i) then OnStatus(s.ops[i], SignalOf(f), s'.eng) else s.ops[i]
  {
    hide OnStatus, ApplyStatus, SignalOf;
  }

  // EngineClient applies a frame and calls the operations' listener.
  method Frame(p: Ops, f: Frame, ghost all: seq<Operation>, ghost s: OpRun.Sys)
    requires Mirrors(p, all, s) && OpRun.Sound(s)
    modifies p.engine, p.op, p.next
    ensures Mirrors(p, all, OpRun.Step(s, OpRun.EngineFrame(f)))
  {
    TrackedDiffer(p, all, s);
    StatusOps(s, f);
    hide OnStatus, ApplyStatus, SignalOf, OpRun.Sound, OpRun.Step;
    p.engine.Apply(f);
    p.OnEngineStatus(f);
    ghost var s' := OpRun.Step(s, OpRun.EngineFrame(f));
    forall i: nat | i < |all| ensures all[i].Now() == s'.ops[i] {
      if OpRun.Tracked(s, i) {} else {
        assert all[i] != p.op && all[i] != p.next;
      }
    }
  }

  // The send of the load or unload came through.
  method Sent(p: Ops, o: Operation, ghost i: nat, ghost all: seq<Operation>, ghost s: OpRun.Sys)
    requires Mirrors(p, all, s) && s.sending == Some(i) && i < |all| && o == all[i] && s.op != Some(i)
    modifies p, p.op, o
    ensures Mirrors(p, all, OpRun.Step(s, OpRun.SendEnds(true)))
  {
    hide Supersede, Installed;
    p.next := null;
    p.Install(o);
  }

  // The done callback of operation i's request.
  method Replied(p: Ops, o: Operation, out: Outcome, ghost i: nat, ghost all: seq<Operation>, ghost s: OpRun.Sys)
    requires Mirrors(p, all, s) && i < |all| && o == all[i] && i in s.outcomes && s.outcomes[i] == out
    modifies o
    ensures Mirrors(p, all, OpRun.Step(s, OpRun.Callback(i)))
  {
    hide OnReply;
    assert (o == p.op) == (s.op == Some(i));
    p.OnEditorReply(o, out);
  }

  method BudgetRanOut(p: Ops, o: Operation, ghost i: nat, ghost all: seq<Operation>, ghost s: OpRun.Sys)
    requires Mirrors(p, all, s) && i < |all| && o == all[i]
    modifies o
    ensures Mirrors(p, all, OpRun.Step(s, OpRun.BudgetFires(i)))
  {
    hide BudgetFired;
    p.OnBudget(o);
  }

  method GraceRanOut(p: Ops, o: Operation, ghost i: nat, ghost all: seq<Operation>, ghost s: OpRun.Sys)
    requires Mirrors(p, all, s) && i < |all| && o == all[i]
    modifies o
    ensures Mirrors(p, all, OpRun.Step(s, OpRun.LostFires(i)))
  {
    hide LostFired;
    assert (o == p.op) == (s.op == Some(i));
    p.OnEditorLost(o);
  }

  method UnloadEnded(p: Ops, o: Operation, end: UnloadEnd, ghost i: nat, ghost all: seq<Operation>, ghost s: OpRun.Sys)
    requires Mirrors(p, all, s) && i < |all| && o == all[i]
    modifies o
    ensures Mirrors(p, all, OpRun.Step(s, OpRun.UnloadEnds(i, end)))
  {
    hide EndUnload;
    p.EndUnload(o, end);
  }

  method Aborted(p: Ops, why: Reason, ghost all: seq<Operation>, ghost s: OpRun.Sys)
    requires Mirrors(p, all, s)
    modifies p.op
    ensures Mirrors(p, all, OpRun.Step(s, OpRun.AbortOp(why)))
  {
    hide Abort;
    p.Abort(why);
  }
}
