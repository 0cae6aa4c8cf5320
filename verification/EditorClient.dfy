/** The editor client as the source writes it: its pending list and the futures, updated in
    place, each method proved to be its function in EditorModel. */
module EditorClient {
  import opened OrderedDict
  import opened EditorModel

  class EditorClient {
    var connected: bool
    var pending: seq<Request>
    var futures: map<nat, Future>
    var nextId: nat

    ghost function Now(): Editor
      reads this
    {
      Editor(pending, futures, connected)
    }

    constructor ()
      ensures Now() == INITIAL && nextId == 0
    {
      connected, pending, futures, nextId := false, [], map[], 0;
    }

    method Outstanding() returns (r: Option<Request>)
      ensures r == EditorModel.Outstanding(pending)
    {
      for i := 0 to |pending|
        invariant EditorModel.Outstanding(pending) == EditorModel.Outstanding(pending[i..])
      {
        if SingleFlight(pending[i].action) { return Some(pending[i]); }
      }
      return None;
    }

    // None: RequestPending is raised.
    method Register(action: Action, value: string) returns (req: Option<Request>)
      modifies this
      ensures match EditorModel.Register(old(Now()), old(nextId), action, value)
              case None => req == None && Now() == old(Now()) && nextId == old(nextId)
              case Some(e) => req == Some(Request(old(nextId), action, value)) && Now() == e && nextId == old(nextId) + 1
    {
      if SingleFlight(action) {
        var busy := Outstanding();
        if busy.Some? { return None; }
      }
      var r := Request(nextId, action, value);
      nextId := nextId + 1;
      futures := futures[r.id := Waiting];
      pending := pending + [r];
      return Some(r);
    }

    method Unregister(req: Request)
      modifies `pending, `futures
      ensures Now() == EditorModel.Unregister(old(Now()), req.id)
    {
      pending := EditorModel.Without(pending, req.id);
      if req.id in futures && futures[req.id] == Waiting {
        futures := futures[req.id := Cancelled];
      }
    }

    method FindHits(m: Reply) returns (hits: seq<Request>)
      ensures hits == Hits(pending, m)
    {
      hits := [];
      for i := 0 to |pending|
        invariant hits == Hits(pending[..i], m)
      {
        assert pending[..i + 1][..i] == pending[..i];
        if Matches(pending[i], m) { hits := hits + [pending[i]]; }
      }
      assert pending[..|pending|] == pending;
    }

    method Resolve(m: Reply)
      modifies `pending, `futures
      ensures Now() == EditorModel.Resolve(old(Now()), m)
    {
      var hits := FindHits(m);
      if hits == [] { return; }
      if !FannedOut(m) { hits := hits[..1]; }
      for i := 0 to |hits|
        invariant Now() == Deliver(old(Now()), hits[..i], m)
      {
        assert hits[..i + 1][..i] == hits[..i];
        pending := EditorModel.Without(pending, hits[i].id);
        if hits[i].id in futures && futures[hits[i].id] == Waiting {
          futures := futures[hits[i].id := Done(m)];
        }
      }
      assert hits[..|hits|] == hits;
    }

    method FailPending()
      modifies `pending, `futures
      ensures Now() == EditorModel.FailPending(old(Now()))
    {
      var failed := pending;
      pending := [];
      for i := 0 to |failed|
        invariant Now() == FailAll(old(Now()), failed[..i])
      {
        assert failed[..i + 1][..i] == failed[..i];
        if failed[i].id in futures && futures[failed[i].id] == Waiting {
          futures := futures[failed[i].id := Disconnected];
        }
      }
      assert failed[..|failed|] == failed;
    }
  }
}
