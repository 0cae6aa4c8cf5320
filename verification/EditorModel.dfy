/** Requests to the editor matched to its replies, one engine-bound request at a time, with an
    editor at the other end that answers what it was sent. */
module EditorModel {
  import opened OrderedDict

  datatype Action = ProjectReady | ProjectUnload | ProjectList | Other(name: string)

  // A request; its id stands for its identity, its future is kept in Editor.futures.
  datatype Request = Request(id: nat, action: Action, value: string)

  // An editor frame. An error may carry no action; only project_ready errors carry a uuid.
  datatype Reply =
    | Success(action: Action, value: string)
    | Error(failed: Option<Action>, uuid: string, message: string)

  datatype Future = Waiting | Done(reply: Reply) | Disconnected | Cancelled

  datatype Editor = Editor(pending: seq<Request>, futures: map<nat, Future>, connected: bool)

  const INITIAL := Editor([], map[], false)

  predicate SingleFlight(a: Action) {
    a == ProjectReady || a == ProjectUnload
  }

  // str.lower(), on the ASCII letters a uuid has.
  function Lower(s: string): string {
    if s == [] then []
    else
      var c := s[0];
      [if 'A' <= c <= 'Z' then (c as int + 32) as char else c] + Lower(s[1..])
  }

  // match_project_ready for project_ready requests; the others match by action alone.
  predicate Matches(r: Request, m: Reply) {
    match m
    case Success(action, value) =>
      r.action == action && (r.action == ProjectReady ==> Lower(value) == Lower(r.value))
    case Error(failed, uuid, _) =>
      failed == Some(r.action) && (r.action == ProjectReady ==> Lower(uuid) == Lower(r.value))
  }

  // EditorClient.outstanding
  function Outstanding(pending: seq<Request>): (r: Option<Request>)
    ensures r.Some? ==> r.value in pending && SingleFlight(r.value.action)
    ensures r.None? ==> forall x :: x in pending ==> !SingleFlight(x.action)
  {
    if pending == [] then None
    else if SingleFlight(pending[0].action) then Some(pending[0])
    else Outstanding(pending[1..])
  }

  function Without(pending: seq<Request>, id: nat): seq<Request> {
    if pending == [] then []
    else
      var rest := Without(pending[..|pending| - 1], id);
      if pending[|pending| - 1].id == id then rest else rest + [pending[|pending| - 1]]
  }

  // Completing a future that is done already changes nothing.
  function Complete(futures: map<nat, Future>, id: nat, f: Future): map<nat, Future> {
    if id in futures && futures[id] == Waiting then futures[id := f] else futures
  }

  // EditorClient.register; None is RequestPending.
  function Register(e: Editor, id: nat, action: Action, value: string): Option<Editor> {
    if SingleFlight(action) && Outstanding(e.pending).Some? then None
    else Some(e.(pending := e.pending + [Request(id, action, value)], futures := e.futures[id := Waiting]))
  }

  // EditorClient.unregister
  function Unregister(e: Editor, id: nat): Editor {
    e.(pending := Without(e.pending, id), futures := Complete(e.futures, id, Cancelled))
  }

  // The pending requests a reply matches, oldest first.
  function Hits(pending: seq<Request>, m: Reply): seq<Request> {
    if pending == [] then []
    else
      var rest := Hits(pending[..|pending| - 1], m);
      if Matches(pending[|pending| - 1], m) then rest + [pending[|pending| - 1]] else rest
  }

  function FannedOut(m: Reply): bool {
    match m
    case Success(action, _) => action == ProjectList
    case Error(failed, _, _) => failed == Some(ProjectList)
  }

  function Deliver(e: Editor, hits: seq<Request>, m: Reply): Editor {
    if hits == [] then e
    else
      var e1 := Deliver(e, hits[..|hits| - 1], m);
      var r := hits[|hits| - 1];
      e1.(pending := Without(e1.pending, r.id), futures := Complete(e1.futures, r.id, Done(m)))
  }

  // EditorClient._resolve: list replies go to every list request, others to the oldest match.
  function Resolve(e: Editor, m: Reply): Editor {
    var hits := Hits(e.pending, m);
    Deliver(e, if FannedOut(m) || hits == [] then hits else hits[..1], m)
  }

  // EditorClient._fail_pending
  function FailAll(e: Editor, pending: seq<Request>): Editor {
    if pending == [] then e.(pending := [])
    else
      var e1 := FailAll(e, pending[..|pending| - 1]);
      e1.(futures := Complete(e1.futures, pending[|pending| - 1].id, Disconnected))
  }

  function FailPending(e: Editor): Editor {
    FailAll(e, e.pending)
  }

  // ------------------------------------------------------------ the editor at the other end

  // delivered: sent on the current socket; unanswered: those it has not answered yet.
  datatype World = World(editor: Editor, delivered: set<Request>, unanswered: set<Request>, nextId: nat)

  const START := World(INITIAL, {}, {}, 0)

  datatype Event =
    | Connect
    | Disconnect
    | Ask(action: Action, value: string)
    | Arrive(r: Request)
    | GiveUp(r: Request)
    | Answer(r: Request, m: Reply)

  // The editor echoes the request it answers.
  predicate ReplyTo(r: Request, m: Reply) {
    Matches(r, m)
  }

  // Or it fails without saying what: no action, or a project_ready error without its uuid.
  predicate Nameless(r: Request, m: Reply) {
    m.Error? && (m.failed == None || (r.action == ProjectReady && m.failed == Some(ProjectReady) && m.uuid == ""))
  }

  // What can happen: a frame is delivered once, while its request is pending and the socket is
  // up; only a delivered request is answered, once per socket; any pending request may be
  // dropped, by a send that failed or was cancelled or a waiter that gave up.
  ghost predicate Allowed(w: World, ev: Event) {
    match ev
    case Connect => !w.editor.connected
    case Disconnect => true
    case Ask(_, _) => true
    case Arrive(r) => w.editor.connected && r in w.editor.pending && r !in w.delivered
    case GiveUp(r) => r in w.editor.pending
    case Answer(r, m) => r in w.unanswered && (ReplyTo(r, m) || Nameless(r, m))
  }

  // The same, with no engine-bound request dropped that was delivered.
  ghost predicate Possible(w: World, ev: Event) {
    Allowed(w, ev) && (ev.GiveUp? && SingleFlight(ev.r.action) ==> ev.r !in w.unanswered)
  }

  function Step(w: World, ev: Event): World {
    match ev
    case Connect => w.(editor := w.editor.(connected := true))
    case Disconnect => w.(editor := FailPending(w.editor).(connected := false), delivered := {}, unanswered := {})
    case Ask(action, value) =>
      (match Register(w.editor, w.nextId, action, value)
       case Some(e) => w.(editor := e, nextId := w.nextId + 1)
       case None => w)
    case Arrive(r) => w.(delivered := w.delivered + {r}, unanswered := w.unanswered + {r})
    case GiveUp(r) => w.(editor := Unregister(w.editor, r.id))
    case Answer(r, m) => w.(editor := Resolve(w.editor, m), unanswered := w.unanswered - {r})
  }

  function Run(events: seq<Event>): World {
    if events == [] then START else Step(Run(events[..|events| - 1]), events[|events| - 1])
  }

  ghost predicate AllowedRun(events: seq<Event>) {
    events == []
    || (AllowedRun(events[..|events| - 1]) && Allowed(Run(events[..|events| - 1]), events[|events| - 1]))
  }

  ghost predicate PossibleRun(events: seq<Event>) {
    events == []
    || (PossibleRun(events[..|events| - 1]) && Possible(Run(events[..|events| - 1]), events[|events| - 1]))
  }

  // ------------------------------------------------------------ single flight

  // What holds however requests are dropped.
  ghost predicate Tidy(w: World) {
    && AtMostOne(w.editor.pending)
    && (forall i :: 0 <= i < |w.editor.pending| ==> PendingOk(w, w.editor.pending[i]))
    && DistinctIds(w.editor.pending)
  }

  ghost predicate DistinctIds(pending: seq<Request>) {
    forall i, j :: 0 <= i < j < |pending| ==> pending[i].id != pending[j].id
  }

  // And, if none is dropped that was delivered: whatever is owed an answer is still pending.
  ghost predicate Sound(w: World) {
    Tidy(w) && forall r :: r in w.unanswered && SingleFlight(r.action) ==> r in w.editor.pending
  }

  // A pending request's future waits.
  ghost predicate PendingOk(w: World, r: Request) {
    r.id < w.nextId && r.id in w.editor.futures && w.editor.futures[r.id] == Waiting
  }

  ghost predicate AtMostOne(pending: seq<Request>) {
    forall i, j :: 0 <= i < j < |pending| ==> !(SingleFlight(pending[i].action) && SingleFlight(pending[j].action))
  }

  lemma {:induction false} WithoutMember(pending: seq<Request>, id: nat, r: Request)
    ensures r in Without(pending, id) <==> r in pending && r.id != id
  {
    if pending != [] {
      assert pending == pending[..|pending| - 1] + [pending[|pending| - 1]];
      WithoutMember(pending[..|pending| - 1], id, r);
    }
  }

  // What is left of a list without some elements keeps pairwise facts.
  lemma {:induction false} WithoutKeeps(pending: seq<Request>, id: nat)
    requires AtMostOne(pending) && DistinctIds(pending)
    ensures var p := Without(pending, id);
            AtMostOne(p) && DistinctIds(p)
  {
    if pending != [] {
      var s, last := pending[..|pending| - 1], pending[|pending| - 1];
      assert forall i :: 0 <= i < |s| ==> s[i] == pending[i];
      WithoutKeeps(s, id);
      var p := Without(s, id);
      forall i | 0 <= i < |p|
        ensures p[i].id != last.id && !(SingleFlight(p[i].action) && SingleFlight(last.action))
      {
        WithoutMember(s, id, p[i]);
        var j :| 0 <= j < |s| && s[j] == p[i];
        assert pending[j] == p[i];
      }
    }
  }

  lemma {:induction false} HitsMember(pending: seq<Request>, m: Reply, r: Request)
    ensures r in Hits(pending, m) <==> r in pending && Matches(r, m)
  {
    if pending != [] {
      assert pending == pending[..|pending| - 1] + [pending[|pending| - 1]];
      HitsMember(pending[..|pending| - 1], m, r);
    }
  }

  // A reply to a single-flight request hits that request alone.
  lemma {:induction false} OnlyHit(pending: seq<Request>, m: Reply, r: Request)
    requires AtMostOne(pending) && r in pending && SingleFlight(r.action) && Matches(r, m)
    requires DistinctIds(pending)
    ensures Hits(pending, m) == [r]
  {
    var n := |pending| - 1;
    var s, last := pending[..n], pending[n];
    assert pending == s + [last];
    if last == r {
      NoHits(s, m, r);
    } else {
      assert forall i :: 0 <= i < |s| ==> s[i] == pending[i];
      OnlyHit(s, m, r);
      var i :| 0 <= i < n && pending[i] == r;
      assert !SingleFlight(last.action);
    }
  }

  lemma {:induction false} NoHits(pending: seq<Request>, m: Reply, r: Request)
    requires Matches(r, m) && SingleFlight(r.action)
    requires forall i :: 0 <= i < |pending| ==> !SingleFlight(pending[i].action)
    ensures Hits(pending, m) == []
  {
    if pending != [] { NoHits(pending[..|pending| - 1], m, r); }
  }

  /** A reply that matches a pending single-flight request ends that request and no other. */
  lemma ReplyFindsItsRequest(w: World, r: Request, m: Reply)
    requires Tidy(w) && r in w.editor.pending && SingleFlight(r.action) && ReplyTo(r, m)
    ensures var e := Resolve(w.editor, m);
            && e.pending == Without(w.editor.pending, r.id)
            && e.futures == w.editor.futures[r.id := Done(m)]
            && Outstanding(e.pending).None?
  {
    OnlyHit(w.editor.pending, m, r);
    assert [r][..1] == [r] && [r][..0] == [];
    assert !FannedOut(m) && Deliver(w.editor, [r][..0], m) == w.editor;
    PendingHasFuture(w, r);
    if Outstanding(Without(w.editor.pending, r.id)).Some? {
      var x := Outstanding(Without(w.editor.pending, r.id)).value;
      WithoutMember(w.editor.pending, r.id, x);
      OneSingleFlight(w, r, x);
    }
  }

  lemma UnmatchedEndsNothing(e: Editor, m: Reply)
    requires forall x :: x in e.pending ==> !Matches(x, m)
    ensures Resolve(e, m) == e
  {
    if Hits(e.pending, m) != [] {
      assert Hits(e.pending, m)[0] in Hits(e.pending, m);
      HitsMember(e.pending, m, Hits(e.pending, m)[0]);
    }
  }

  // What delivering leaves: the requests that were not hit, with their futures.
  lemma {:induction false} DeliverKeeps(e: Editor, hits: seq<Request>, m: Reply)
    requires AtMostOne(e.pending)
    requires DistinctIds(e.pending)
    ensures var e' := Deliver(e, hits, m);
            && AtMostOne(e'.pending)
            && DistinctIds(e'.pending)
            && (forall r :: r in e'.pending <==> r in e.pending && !HasId(hits, r.id))
            && e'.futures.Keys == e.futures.Keys
            && (forall id :: id in e.futures && !HasId(hits, id) ==> e'.futures[id] == e.futures[id])
            && e'.connected == e.connected
  {
    if hits != [] {
      var n := |hits| - 1;
      DeliverKeeps(e, hits[..n], m);
      var e1 := Deliver(e, hits[..n], m);
      WithoutKeeps(e1.pending, hits[n].id);
      hide AtMostOne, DistinctIds, HasId, Without;
      forall id ensures HasId(hits, id) <==> HasId(hits[..n], id) || hits[n].id == id { HasIdLast(hits, id); }
      forall r ensures r in Without(e1.pending, hits[n].id) <==> r in e1.pending && r.id != hits[n].id {
        WithoutMember(e1.pending, hits[n].id, r);
      }
    }
  }

  ghost predicate HasId(rs: seq<Request>, id: nat) {
    exists i :: 0 <= i < |rs| && rs[i].id == id
  }

  lemma HasIdLast(rs: seq<Request>, id: nat)
    requires rs != []
    ensures HasId(rs, id) <==> HasId(rs[..|rs| - 1], id) || rs[|rs| - 1].id == id
  {
    var n := |rs| - 1;
    if HasId(rs, id) {
      var i :| 0 <= i < |rs| && rs[i].id == id;
      assert i < n ==> rs[..n][i].id == id;
    }
    if HasId(rs[..n], id) {
      var i :| 0 <= i < n && rs[..n][i].id == id;
      assert rs[i].id == id;
    }
  }

  lemma SameId(w: World, r: Request, x: Request)
    requires Tidy(w) && r in w.editor.pending && x in w.editor.pending && r.id == x.id
    ensures r == x
  {
    var i :| 0 <= i < |w.editor.pending| && w.editor.pending[i] == r;
    var j :| 0 <= j < |w.editor.pending| && w.editor.pending[j] == x;
  }

  lemma PendingHasFuture(w: World, r: Request)
    requires Tidy(w) && r in w.editor.pending
    ensures r.id in w.editor.futures && w.editor.futures[r.id] == Waiting && r.id < w.nextId
  {
    var j :| 0 <= j < |w.editor.pending| && w.editor.pending[j] == r;
    assert PendingOk(w, w.editor.pending[j]);
  }

  // Two single-flight requests that are both pending are the same.
  lemma OneSingleFlight(w: World, r: Request, x: Request)
    requires Tidy(w) && r in w.editor.pending && x in w.editor.pending
    ensures SingleFlight(r.action) && SingleFlight(x.action) ==> r == x
  {
    if SingleFlight(r.action) && SingleFlight(x.action) {
      var i :| 0 <= i < |w.editor.pending| && w.editor.pending[i] == r;
      var j :| 0 <= j < |w.editor.pending| && w.editor.pending[j] == x;
    }
  }

  lemma AskTidy(w: World, action: Action, value: string)
    requires Tidy(w)
    ensures Tidy(Step(w, Ask(action, value)))
  {
    var w' := Step(w, Ask(action, value));
    var p := w.editor.pending;
    if w' != w {
      var r := Request(w.nextId, action, value);
      forall i | 0 <= i < |p|
        ensures p[i].id != r.id && PendingOk(w', p[i]) && !(SingleFlight(p[i].action) && SingleFlight(action))
      {
        assert PendingOk(w, p[i]) && p[i] in p;
      }
      assert PendingOk(w', r);
    }
  }

  // Fewer requests pending, their futures as they were.
  lemma StillTidy(w: World, w': World)
    requires Tidy(w) && w'.nextId == w.nextId && AtMostOne(w'.editor.pending) && DistinctIds(w'.editor.pending)
    requires forall r :: r in w'.editor.pending ==>
               r in w.editor.pending && r.id in w'.editor.futures && r.id in w.editor.futures
               && w'.editor.futures[r.id] == w.editor.futures[r.id]
    ensures Tidy(w')
  {
    var p := w'.editor.pending;
    forall i | 0 <= i < |p| ensures PendingOk(w', p[i]) {
      assert p[i] in p;
      PendingHasFuture(w, p[i]);
    }
  }

  lemma GiveUpTidy(w: World, r: Request)
    requires Tidy(w) && r in w.editor.pending
    ensures Tidy(Step(w, GiveUp(r)))
    ensures forall x :: x in Step(w, GiveUp(r)).editor.pending <==> x in w.editor.pending && x != r
  {
    var e := Unregister(w.editor, r.id);
    WithoutKeeps(w.editor.pending, r.id);
    forall x ensures x in e.pending <==> x in w.editor.pending && x.id != r.id {
      WithoutMember(w.editor.pending, r.id, x);
    }
    forall x | x in w.editor.pending ensures x.id == r.id <==> x == r {
      if x.id == r.id { SameId(w, x, r); }
    }
    forall x | x in e.pending ensures x.id in e.futures && e.futures[x.id] == w.editor.futures[x.id] {
      PendingHasFuture(w, x);
    }
    StillTidy(w, Step(w, GiveUp(r)));
  }

  // A resolved reply takes away matching requests only.
  lemma ResolveTidy(w: World, w': World, m: Reply)
    requires Tidy(w) && w'.editor == Resolve(w.editor, m) && w'.nextId == w.nextId
    ensures Tidy(w')
    ensures forall x :: x in w'.editor.pending ==> x in w.editor.pending
    ensures forall x :: x in w.editor.pending && !Matches(x, m) ==> x in w'.editor.pending
  {
    var e := w'.editor;
    var hits := Hits(w.editor.pending, m);
    var done := if FannedOut(m) || hits == [] then hits else hits[..1];
    DeliverKeeps(w.editor, done, m);
    forall x | x in e.pending ensures x.id in e.futures && e.futures[x.id] == w.editor.futures[x.id] {
      PendingHasFuture(w, x);
    }
    StillTidy(w, w');
    forall x | x in w.editor.pending && !Matches(x, m) ensures x in e.pending {
      if HasId(done, x.id) {
        var i :| 0 <= i < |done| && done[i].id == x.id;
        assert done[i] == hits[i] && hits[i] in hits;
        HitsMember(w.editor.pending, m, hits[i]);
        SameId(w, x, hits[i]);
      }
    }
  }

  lemma StepTidy(w: World, ev: Event)
    requires Tidy(w) && Allowed(w, ev)
    ensures Tidy(Step(w, ev))
  {
    match ev
    case Connect => SameEditorTidy(w, Step(w, ev));
    case Disconnect => FailAllEmpties(w.editor, w.editor.pending);
    case Ask(action, value) => AskTidy(w, action, value);
    case Arrive(r) => SameEditorTidy(w, Step(w, ev));
    case GiveUp(r) => GiveUpTidy(w, r);
    case Answer(r, m) => ResolveTidy(w, Step(w, ev), m);
  }

  lemma SameEditorTidy(w: World, w': World)
    requires Tidy(w) && w'.nextId == w.nextId
    requires w'.editor.pending == w.editor.pending && w'.editor.futures == w.editor.futures
    ensures Tidy(w')
  {
    var p := w.editor.pending;
    forall i | 0 <= i < |p| ensures PendingOk(w', p[i]) { assert PendingOk(w, p[i]); }
  }

  // An answer takes no other engine-bound request that is owed one.
  lemma AnswerKeepsOwed(w: World, r: Request, m: Reply, x: Request)
    requires Sound(w) && Possible(w, Answer(r, m)) && x in w.unanswered && x != r && SingleFlight(x.action)
    ensures x in Step(w, Answer(r, m)).editor.pending
  {
    ResolveTidy(w, Step(w, Answer(r, m)), m);
    if Matches(x, m) {
      assert SingleFlight(r.action);
      OneSingleFlight(w, r, x);
    }
  }

  lemma StepSound(w: World, ev: Event)
    requires Sound(w) && Possible(w, ev)
    ensures Sound(Step(w, ev))
  {
    StepTidy(w, ev);
    hide Tidy;
    match ev
    case Connect =>
    case Disconnect =>
    case Ask(action, value) =>
    case Arrive(r) =>
    case GiveUp(r) => GiveUpTidy(w, r);
    case Answer(r, m) =>
      forall x | x in w.unanswered - {r} && SingleFlight(x.action) ensures x in Step(w, ev).editor.pending {
        AnswerKeepsOwed(w, r, m, x);
      }
  }

  /** A disconnect fails every pending request and frees the slot. */
  lemma {:induction false} FailAllEmpties(e: Editor, pending: seq<Request>)
    ensures var e' := FailAll(e, pending);
            && e'.pending == [] && e'.futures.Keys == e.futures.Keys
            && (forall id :: id in e.futures ==>
                  e'.futures[id] == if e.futures[id] == Waiting && HasId(pending, id) then Disconnected else e.futures[id])
  {
    if pending != [] {
      var n := |pending| - 1;
      FailAllEmpties(e, pending[..n]);
      forall id ensures HasId(pending, id) <==> HasId(pending[..n], id) || pending[n].id == id { HasIdLast(pending, id); }
    }
  }

  lemma {:induction false} RunTidy(events: seq<Event>)
    requires AllowedRun(events)
    ensures Tidy(Run(events))
  {
    if events != [] {
      RunTidy(events[..|events| - 1]);
      hide Tidy, Step, Allowed;
      StepTidy(Run(events[..|events| - 1]), events[|events| - 1]);
    }
  }

  lemma {:induction false} RunSound(events: seq<Event>)
    requires PossibleRun(events)
    ensures Sound(Run(events)) && AllowedRun(events)
  {
    if events != [] {
      RunSound(events[..|events| - 1]);
      assert Allowed(Run(events[..|events| - 1]), events[|events| - 1]);
      hide Sound, Step, Allowed;
      StepSound(Run(events[..|events| - 1]), events[|events| - 1]);
    }
  }

  // ------------------------------------------------------------ what a reply ends

  predicate SameLetter(c: char, d: char) {
    c == d || ('A' <= c <= 'Z' && d as int == c as int + 32) || ('A' <= d <= 'Z' && c as int == d as int + 32)
  }

  // Equal but for the case of ASCII letters.
  predicate SameUuid(a: string, b: string) {
    |a| == |b| && forall i :: 0 <= i < |a| ==> SameLetter(a[i], b[i])
  }

  lemma {:induction false} LowerMeans(a: string, b: string)
    ensures Lower(a) == Lower(b) <==> SameUuid(a, b)
  {
    if a != [] && b != [] {
      LowerMeans(a[1..], b[1..]);
      assert Lower(a)[1..] == Lower(a[1..]) && Lower(b)[1..] == Lower(b[1..]);
      if SameUuid(a, b) {
        forall i | 0 <= i < |a| - 1 ensures SameLetter(a[1..][i], b[1..][i]) { assert SameLetter(a[i + 1], b[i + 1]); }
      }
      if SameUuid(a[1..], b[1..]) && SameLetter(a[0], b[0]) {
        forall i | 0 <= i < |a| ensures SameLetter(a[i], b[i]) {
          if i > 0 { assert SameLetter(a[1..][i - 1], b[1..][i - 1]); }
        }
      }
      if Lower(a) == Lower(b) { assert Lower(a)[0] == Lower(b)[0]; }
    }
  }

  // A success names its action, an error the one that failed; for a project's load both also
  // name the project.
  predicate Answers(r: Request, m: Reply) {
    match m
    case Success(action, value) => action == r.action && (action == ProjectReady ==> SameUuid(value, r.value))
    case Error(failed, uuid, _) => failed == Some(r.action) && (r.action == ProjectReady ==> SameUuid(uuid, r.value))
  }

  lemma AnswersMeans(r: Request, m: Reply)
    ensures Matches(r, m) <==> Answers(r, m)
  {
    match m
    case Success(_, value) => LowerMeans(value, r.value);
    case Error(_, uuid, _) => LowerMeans(uuid, r.value);
  }

  // The reply is about the project list.
  predicate AboutList(m: Reply) {
    (m.Success? && m.action == ProjectList) || (m.Error? && m.failed == Some(ProjectList))
  }

  // The i-th pending request is ended by the reply: it is answered by it, and, unless that is
  // about the project list, the oldest that is.
  ghost predicate Ends(pending: seq<Request>, m: Reply, i: nat)
    requires i < |pending|
  {
    Answers(pending[i], m) && (AboutList(m) || forall k :: 0 <= k < i ==> !Answers(pending[k], m))
  }

  lemma {:induction false} FirstHit(pending: seq<Request>, m: Reply)
    requires Hits(pending, m) != []
    ensures exists i: nat :: i < |pending| && pending[i] == Hits(pending, m)[0] && Matches(pending[i], m)
                             && forall k :: 0 <= k < i ==> !Matches(pending[k], m)
  {
    var n := |pending| - 1;
    var s := pending[..n];
    if Hits(s, m) != [] {
      FirstHit(s, m);
      var i: nat :| i < |s| && s[i] == Hits(s, m)[0] && Matches(s[i], m) && forall k :: 0 <= k < i ==> !Matches(s[k], m);
      assert pending[i] == s[i] && forall k :: 0 <= k < i ==> pending[k] == s[k];
    } else {
      forall k | 0 <= k < n ensures !Matches(pending[k], m) {
        assert s[k] == pending[k] && s[k] in s;
        HitsMember(s, m, s[k]);
      }
      assert pending[n] == Hits(pending, m)[0];
    }
  }

  lemma {:induction false} DeliverDone(e: Editor, hits: seq<Request>, m: Reply, id: nat)
    requires id in e.futures && e.futures[id] == Waiting && HasId(hits, id)
    ensures id in Deliver(e, hits, m).futures && Deliver(e, hits, m).futures[id] == Done(m)
  {
    var n := |hits| - 1;
    HasIdLast(hits, id);
    DeliverKeys(e, hits[..n], m, id);
    if HasId(hits[..n], id) { DeliverDone(e, hits[..n], m, id); }
  }

  // Delivering turns a waiting future into a done one at most.
  lemma {:induction false} DeliverKeys(e: Editor, hits: seq<Request>, m: Reply, id: nat)
    requires id in e.futures && e.futures[id] == Waiting
    ensures id in Deliver(e, hits, m).futures && Deliver(e, hits, m).futures[id] in {Waiting, Done(m)}
  {
    if hits != [] { DeliverKeys(e, hits[..|hits| - 1], m, id); }
  }

  // The requests a reply goes to.
  function Targets(pending: seq<Request>, m: Reply): seq<Request> {
    var hits := Hits(pending, m);
    if FannedOut(m) || hits == [] then hits else hits[..1]
  }

  lemma TargetsEnd(w: World, m: Reply, i: nat)
    requires Tidy(w) && i < |w.editor.pending|
    ensures HasId(Targets(w.editor.pending, m), w.editor.pending[i].id) <==> Ends(w.editor.pending, m, i)
  {
    var p := w.editor.pending;
    var x, hits, done := p[i], Hits(p, m), Targets(p, m);
    forall r ensures Matches(r, m) <==> Answers(r, m) { AnswersMeans(r, m); }
    assert FannedOut(m) == AboutList(m);
    HitsMember(p, m, x);
    hide Tidy, Matches, Answers, FannedOut, AboutList, Hits;
    if hits != [] { FirstHit(p, m); }
    if HasId(done, x.id) {
      var k :| 0 <= k < |done| && done[k].id == x.id;
      assert done[k] == hits[k] && hits[k] in hits;
      HitsMember(p, m, hits[k]);
      SameId(w, x, hits[k]);
      if !AboutList(m) { FirstIs(w, hits[0], m, i); }
    }
    if Ends(p, m, i) {
      assert x in hits;
      if AboutList(m) {
        var k :| 0 <= k < |hits| && hits[k] == x;
        assert done[k].id == x.id;
      } else {
        var j: nat :| j < |p| && p[j] == hits[0] && Matches(p[j], m) && forall k :: 0 <= k < j ==> !Matches(p[k], m);
        assert j == i && done[0].id == x.id;
      }
    }
  }

  // The first match, found at i, has none before it.
  lemma FirstIs(w: World, x: Request, m: Reply, i: nat)
    requires Tidy(w) && i < |w.editor.pending| && w.editor.pending[i] == x
    requires exists j: nat :: j < |w.editor.pending| && w.editor.pending[j] == x && Matches(w.editor.pending[j], m)
                              && forall k :: 0 <= k < j ==> !Matches(w.editor.pending[k], m)
    ensures forall k :: 0 <= k < i ==> !Matches(w.editor.pending[k], m)
  {
    var j: nat :| j < |w.editor.pending| && w.editor.pending[j] == x && Matches(w.editor.pending[j], m)
                  && forall k :: 0 <= k < j ==> !Matches(w.editor.pending[k], m);
    hide Matches;
    assert i == j;
  }

  /** A reply ends the oldest pending request that it answers, or, if it is about the project
      list, each that it answers: its future is done with it, and it leaves. All others stay
      pending, their futures as they were. */
  lemma ResolveEnds(w: World, m: Reply, i: nat)
    requires Tidy(w) && i < |w.editor.pending|
    ensures var e, e', x := w.editor, Resolve(w.editor, m), w.editor.pending[i];
            && x.id in e'.futures
            && if Ends(e.pending, m, i) then x !in e'.pending && e'.futures[x.id] == Done(m)
               else x in e'.pending && e'.futures[x.id] == Waiting
  {
    var x := w.editor.pending[i];
    var done := Targets(w.editor.pending, m);
    assert x in w.editor.pending;
    PendingHasFuture(w, x);
    TargetsEnd(w, m, i);
    DeliverKeeps(w.editor, done, m);
    hide Ends, Hits, HasId;
    if Ends(w.editor.pending, m, i) { DeliverDone(w.editor, done, m, x.id); }
  }

  /** What nobody waits for any more is cancelled: a request that is dropped leaves, its waiting
      future cancelled, and all others stay. */
  lemma DropCancels(w: World, r: Request)
    requires Tidy(w) && r in w.editor.pending
    ensures var e := Step(w, GiveUp(r)).editor;
            && e.futures == w.editor.futures[r.id := Cancelled]
            && forall x :: x in e.pending <==> x in w.editor.pending && x != r
  {
    PendingHasFuture(w, r);
    GiveUpTidy(w, r);
  }

  // ------------------------------------------------------------ over every run

  /** In every run, however requests were dropped, at most one engine-bound request is pending,
      and an answer to it ends it and frees the slot, or, if it does not say what it answers,
      ends nothing. */
  lemma SingleFlightHolds(events: seq<Event>, r: Request, m: Reply)
    requires AllowedRun(events) && SingleFlight(r.action)
    requires r in Run(events).editor.pending && Allowed(Run(events), Answer(r, m))
    ensures var w, e := Run(events).editor, Step(Run(events), Answer(r, m)).editor;
            && Outstanding(w.pending) == Some(r)
            && (forall x :: x in w.pending && SingleFlight(x.action) ==> x == r)
            && if Matches(r, m) then e.futures == w.futures[r.id := Done(m)] && Outstanding(e.pending) == None else e == w
  {
    var w := Run(events);
    RunTidy(events);
    forall x | x in w.editor.pending && SingleFlight(x.action) ensures x == r { OneSingleFlight(w, r, x); }
    hide Tidy, Run;
    if Matches(r, m) { ReplyFindsItsRequest(w, r, m); } else { UnmatchedEndsNothing(w.editor, m); }
  }

  /** If none was dropped that had been delivered, every engine-bound request that the editor
      still owes an answer holds the slot, so any such answer ends the request that caused it. */
  lemma OwedHoldsSlot(events: seq<Event>, r: Request)
    requires PossibleRun(events) && SingleFlight(r.action) && r in Run(events).unanswered
    ensures AllowedRun(events) && r in Run(events).editor.pending
    ensures Outstanding(Run(events).editor.pending) == Some(r)
  {
    RunSound(events);
    OnlyHolder(Run(events).editor.pending, r);
  }

  /** Then every answer ends the request that caused it, and no other. */
  lemma AnswersEndTheirOwn(events: seq<Event>, r: Request, m: Reply)
    requires PossibleRun(events) && SingleFlight(r.action) && Possible(Run(events), Answer(r, m))
    ensures var w, e := Run(events).editor, Step(Run(events), Answer(r, m)).editor;
            && Outstanding(w.pending) == Some(r)
            && if Matches(r, m) then e.futures == w.futures[r.id := Done(m)] && Outstanding(e.pending) == None else e == w
  {
    OwedHoldsSlot(events, r);
    SingleFlightHolds(events, r, m);
  }

  /** A sent engine-bound request leaves only by its own answer or a disconnect. */
  lemma SlotFreedOnlyBy(events: seq<Event>, ev: Event, r: Request)
    requires PossibleRun(events) && Possible(Run(events), ev)
    requires SingleFlight(r.action) && r in Run(events).unanswered
    ensures r in Step(Run(events), ev).editor.pending || ev.Disconnect? || (ev.Answer? && ev.r == r)
  {
    var w := Run(events);
    RunSound(events);
    if ev.GiveUp? { GiveUpTidy(w, ev.r); }
    if ev.Answer? && ev.r != r { AnswerKeepsOwed(w, ev.r, ev.m, r); }
  }

  /** A second engine-bound request is refused exactly while one is pending. */
  lemma RefusedIffOutstanding(e: Editor, id: nat, action: Action, value: string)
    requires SingleFlight(action)
    ensures Register(e, id, action, value) == None <==> exists r :: r in e.pending && SingleFlight(r.action)
  {
    if r :| r in e.pending && SingleFlight(r.action) { assert Outstanding(e.pending).Some?; }
  }

  // A cancelled send whose frame did go out: the request is dropped, yet it will be answered.
  function CancelledButSent(uuid: string): seq<Event> {
    var first := Request(0, ProjectReady, uuid);
    [Connect, Ask(ProjectReady, uuid), Arrive(first), GiveUp(first), Ask(ProjectReady, uuid)]
  }

  // The first three events, the cancelled send, and the next request.
  lemma FirstSend(uuid: string)
    ensures var r0 := Request(0, ProjectReady, uuid);
            && AllowedRun(CancelledButSent(uuid)[..3])
            && Run(CancelledButSent(uuid)[..3]) == World(Editor([r0], map[0 := Waiting], true), {r0}, {r0}, 1)
  {
    var e, r0 := CancelledButSent(uuid), Request(0, ProjectReady, uuid);
    RunNext([], e[0]);
    RunNext(e[..1], e[1]);
    RunNext(e[..2], e[2]);
    assert [] + [e[0]] == e[..1] && e[..1] + [e[1]] == e[..2] && e[..2] + [e[2]] == e[..3];
    assert [] + [r0] == [r0] && [r0][..0] == [];
    assert Run(e[..1]) == World(Editor([], map[], true), {}, {}, 0);
    assert Run(e[..2]) == World(Editor([r0], map[0 := Waiting], true), {}, {}, 1);
  }

  lemma SecondSend(uuid: string)
    ensures var r0, r1 := Request(0, ProjectReady, uuid), Request(1, ProjectReady, uuid);
            && AllowedRun(CancelledButSent(uuid))
            && Run(CancelledButSent(uuid))
               == World(Editor([r1], map[0 := Cancelled, 1 := Waiting], true), {r0}, {r0}, 2)
  {
    var e, r0, r1 := CancelledButSent(uuid), Request(0, ProjectReady, uuid), Request(1, ProjectReady, uuid);
    FirstSend(uuid);
    RunNext(e[..3], e[3]);
    RunNext(e[..4], e[4]);
    assert e[..3] + [e[3]] == e[..4] && e[..4] + [e[4]] == e;
    assert Without([r0], 0) == [] by { assert [r0][..0] == []; }
    assert [] + [r1] == [r1];
    hide Run, AllowedRun;
    assert Run(e[..4]) == World(Editor([], map[0 := Cancelled], true), {r0}, {r0}, 1);
  }

  /** Not every answer ends the request that caused it: once a delivered request was dropped,
      its answer can end the next one for the same project, which was never sent. */
  lemma CancelledSendMisroutes(uuid: string)
    ensures var w, r0, r1 := Run(CancelledButSent(uuid)), Request(0, ProjectReady, uuid), Request(1, ProjectReady, uuid);
            var late := Success(ProjectReady, uuid);
            && AllowedRun(CancelledButSent(uuid)) && Allowed(w, Answer(r0, late))
            && Outstanding(w.editor.pending) == Some(r1) && r1 !in w.delivered
            && 1 in Step(w, Answer(r0, late)).editor.futures && Step(w, Answer(r0, late)).editor.futures[1] == Done(late)
  {
    var r1, late := Request(1, ProjectReady, uuid), Success(ProjectReady, uuid);
    SecondSend(uuid);
    RunTidy(CancelledButSent(uuid));
    var w := Run(CancelledButSent(uuid));
    assert r1 in w.editor.pending && r1 !in w.delivered;
    hide Run, AllowedRun, Tidy;
    ReplyFindsItsRequest(w, r1, late);
    hide Resolve;
  }

  // A reply to one could be taken for a reply to the other.
  predicate SameTarget(r: Request, x: Request) {
    x.action == r.action && (r.action == ProjectReady ==> Lower(x.value) == Lower(r.value))
  }

  /** In every run, a late answer, to a request no longer pending, does no harm exactly when the
      slot is free or its holder asks for something else; else it ends the holder. */
  lemma LateAnswerHarmlessIff(events: seq<Event>, r: Request, m: Reply)
    requires AllowedRun(events) && SingleFlight(r.action) && ReplyTo(r, m)
    requires r !in Run(events).editor.pending && Allowed(Run(events), Answer(r, m))
    ensures var e, e' := Run(events).editor, Step(Run(events), Answer(r, m)).editor;
            var holder := Outstanding(e.pending);
            && (e' == e <==> holder.None? || !SameTarget(r, holder.value))
            && (holder.Some? && SameTarget(r, holder.value) ==>
                  e'.pending == Without(e.pending, holder.value.id)
                  && e'.futures == e.futures[holder.value.id := Done(m)])
  {
    var w := Run(events);
    var holder := Outstanding(w.editor.pending);
    RunTidy(events);
    hide Run, AllowedRun;
    if holder.Some? {
      LateEnds(w, holder.value, r, m);
      if SameTarget(r, holder.value) { ReplyFindsItsRequest(w, holder.value, m); }
    } else {
      UnmatchedEndsNothing(w.editor, m);
    }
  }

  // A late answer that would change what is pending.
  ghost predicate Misroutes(w: World, r: Request, m: Reply) {
    && SingleFlight(r.action) && r !in w.editor.pending && ReplyTo(r, m) && Allowed(w, Answer(r, m))
    && Step(w, Answer(r, m)).editor != w.editor
  }

  // A dropped request for the same target is still owed its answer.
  ghost predicate Haunted(w: World, x: Request) {
    exists r :: r in w.unanswered && r !in w.editor.pending && SingleFlight(r.action) && SameTarget(r, x)
  }

  /** Whether a new engine-bound request is safe shows before it is registered: some late answer
      could end it exactly if a dropped one for the same target is owed its answer. */
  lemma RegisterSafeIff(events: seq<Event>, action: Action, value: string)
    requires AllowedRun(events) && SingleFlight(action) && Outstanding(Run(events).editor.pending) == None
    ensures var x, w' := Request(Run(events).nextId, action, value), Run(events + [Ask(action, value)]);
            && Outstanding(w'.editor.pending) == Some(x)
            && ((exists r, m :: Misroutes(w', r, m)) <==> Haunted(Run(events), x))
  {
    var w, ask := Run(events), Ask(action, value);
    RunNext(events, ask);
    RunTidy(events);
    RunTidy(events + [ask]);
    RunNumbered(events);
    hide Run, AllowedRun, Tidy, Misroutes, Haunted, Outstanding;
    AskRegisters(w, action, value);
    AskHaunted(w, action, value);
  }

  lemma AskRegisters(w: World, action: Action, value: string)
    requires Outstanding(w.editor.pending) == None && SingleFlight(action)
    requires Tidy(Step(w, Ask(action, value)))
    ensures var x, w' := Request(w.nextId, action, value), Step(w, Ask(action, value));
            w'.editor.pending == w.editor.pending + [x] && Outstanding(w'.editor.pending) == Some(x)
            && w'.unanswered == w.unanswered
  {
    var x, w' := Request(w.nextId, action, value), Step(w, Ask(action, value));
    assert x in w'.editor.pending;
    OnlyHolder(w'.editor.pending, x);
  }

  lemma AskHaunted(w: World, action: Action, value: string)
    requires Outstanding(w.editor.pending) == None && SingleFlight(action)
    requires Tidy(Step(w, Ask(action, value))) && forall r :: r in w.unanswered ==> r.id < w.nextId
    ensures var x, w' := Request(w.nextId, action, value), Step(w, Ask(action, value));
            (exists r, m :: Misroutes(w', r, m)) <==> Haunted(w, x)
  {
    var x, w' := Request(w.nextId, action, value), Step(w, Ask(action, value));
    AskRegisters(w, action, value);
    hide Tidy, Register, Outstanding, Misroutes, Haunted, Step;
    forall r, m | Misroutes(w', r, m) ensures Haunted(w, x) { MisroutedHaunts(w, w', x, r, m); }
    if Haunted(w, x) {
      var r, m := HauntMisroutes(w, w', x);
    }
  }

  lemma MisroutedHaunts(w: World, w': World, x: Request, r: Request, m: Reply)
    requires Tidy(w') && Outstanding(w'.editor.pending) == Some(x) && Misroutes(w', r, m)
    requires w'.editor.pending == w.editor.pending + [x] && w'.unanswered == w.unanswered
    ensures Haunted(w, x)
  {
    LateEnds(w', x, r, m);
    hide Tidy, Outstanding, Resolve, SameTarget, Matches;
  }

  lemma HauntMisroutes(w: World, w': World, x: Request) returns (r: Request, m: Reply)
    requires Tidy(w') && Outstanding(w'.editor.pending) == Some(x) && Haunted(w, x)
    requires w'.editor.pending == w.editor.pending + [x] && w'.unanswered == w.unanswered
    requires x !in w.unanswered
    ensures Misroutes(w', r, m)
  {
    r :| r in w.unanswered && r !in w.editor.pending && SingleFlight(r.action) && SameTarget(r, x);
    m := Success(r.action, r.value);
    LateEnds(w', x, r, m);
    hide Tidy, Outstanding, Resolve, SameTarget;
  }

  lemma LateEnds(w: World, x: Request, r: Request, m: Reply)
    requires Tidy(w) && Outstanding(w.editor.pending) == Some(x) && SingleFlight(r.action) && ReplyTo(r, m)
    ensures Resolve(w.editor, m) != w.editor <==> SameTarget(r, x)
  {
    if SameTarget(r, x) {
      ReplyFindsItsRequest(w, x, m);
    } else {
      forall y | y in w.editor.pending ensures !Matches(y, m) {
        if Matches(y, m) { OnlyHolder(w.editor.pending, y); }
      }
      UnmatchedEndsNothing(w.editor, m);
    }
  }

  lemma {:induction false} RunNumbered(events: seq<Event>)
    requires AllowedRun(events)
    ensures forall r :: r in Run(events).unanswered ==> r.id < Run(events).nextId
  {
    if events != [] {
      var prev, ev := events[..|events| - 1], events[|events| - 1];
      RunNumbered(prev);
      RunTidy(prev);
      if ev.Arrive? { PendingHasFuture(Run(prev), ev.r); }
      hide Tidy, Run, Register, Resolve, Unregister;
    }
  }

  lemma {:induction false} OnlyHolder(pending: seq<Request>, x: Request)
    requires AtMostOne(pending) && x in pending && SingleFlight(x.action)
    ensures Outstanding(pending) == Some(x)
  {
    if !SingleFlight(pending[0].action) {
      assert pending == [pending[0]] + pending[1..];
      OnlyHolder(pending[1..], x);
    } else {
      var i :| 0 <= i < |pending| && pending[i] == x;
      assert i == 0;
    }
  }

  lemma RunNext(events: seq<Event>, ev: Event)
    ensures Run(events + [ev]) == Step(Run(events), ev)
    ensures AllowedRun(events) && Allowed(Run(events), ev) ==> AllowedRun(events + [ev])
  {
    assert (events + [ev])[..|events|] == events;
  }
}
