/** The state lane: an ordered queue that coalesces by address, with link changes at the head. */
module StateLane {
  import opened OrderedDict
  import opened Osc

  type Queue = seq<Item<string, Arg>>

  // OscRelay._put_state
  function PutState(q: Queue, address: string, arg: Arg, head: bool): Queue {
    if address == LINK_PATH && Has(q, address) && !head then Set(q, address, arg)
    else if head then [Item(address, arg)] + Without(q, address)
    else Without(q, address) + [Item(address, arg)]
  }

  lemma PutStateDistinct(q: Queue, address: string, arg: Arg, head: bool)
    requires Distinct(q)
    ensures Distinct(PutState(q, address, arg, head))
  {
    WithoutDistinct(q, address);
    WithoutHas(q, address, address);
    SetDistinct(q, address, arg);
    var r := Without(q, address);
    assert (r + [Item(address, arg)])[..|r|] == r;
    DistinctLast(r + [Item(address, arg)]);
    forall i | 0 <= i < |r| ensures r[i].key != address {}
  }

  /** Queueing a frame does to the receiver's final view what sending it directly would. */
  lemma PutStateIsDirectSend(m: map<string, Arg>, q: Queue, address: string, arg: Arg, head: bool)
    requires Distinct(q)
    ensures Receive(m, PutState(q, address, arg, head)) == Receive(m, q)[address := arg]
  {
    var r, x := Without(q, address), Item(address, arg);
    if address == LINK_PATH && Has(q, address) && !head {
      SetReceive(m, q, address, arg);
    } else {
      WithoutReceive(m, q, address, arg);
      ReceiveOne(m, r, address, arg);
      ReceiveConcat(m, [x], r);
      assert Receive(m, [x]) == m[address := arg] by { assert [x][..0] == []; }
    }
  }

  // ------------------------------------------------------------ order

  // The position in `puts` of the last put of `address`, -1 if there is none.
  function LastPut(puts: Queue, address: string): (i: int)
    ensures -1 <= i < |puts|
  {
    if puts == [] then -1
    else if puts[|puts| - 1].key == address then |puts| - 1
    else LastPut(puts[..|puts| - 1], address)
  }

  lemma {:induction false} LastPutIsLast(puts: Queue, address: string)
    ensures var i := LastPut(puts, address);
            && (0 <= i ==> puts[i].key == address)
            && forall j :: i < j < |puts| ==> puts[j].key != address
  {
    if puts != [] && puts[|puts| - 1].key != address {
      LastPutIsLast(puts[..|puts| - 1], address);
      assert forall j :: 0 <= j < |puts| - 1 ==> puts[..|puts| - 1][j] == puts[j];
    }
  }

  // The queue holds the last put of each of its addresses, in the order of those puts;
  // the link state alone may stand elsewhere.
  ghost predicate InPutOrder(q: Queue, puts: Queue) {
    && (forall i :: 0 <= i < |q| ==> IsLastPut(q[i], puts))
    && (forall i, j :: 0 <= i < j < |q| ==> PutBefore(q[i].key, q[j].key, puts))
  }

  ghost predicate IsLastPut(x: Item<string, Arg>, puts: Queue) {
    0 <= LastPut(puts, x.key) && puts[LastPut(puts, x.key)] == x
  }

  ghost predicate PutBefore(a: string, b: string, puts: Queue) {
    a == LINK_PATH || b == LINK_PATH || LastPut(puts, a) < LastPut(puts, b)
  }

  lemma LastPutNext(puts: Queue, x: Item<string, Arg>, address: string)
    ensures LastPut(puts + [x], address) == if x.key == address then |puts| else LastPut(puts, address)
  {
    assert (puts + [x])[..|puts|] == puts;
  }

  lemma {:induction false} WithoutInOrder(q: Queue, puts: Queue, k: string)
    requires InPutOrder(q, puts)
    ensures InPutOrder(Without(q, k), puts)
  {
    if q != [] {
      var s, last := q[..|q| - 1], q[|q| - 1];
      assert forall i :: 0 <= i < |s| ==> s[i] == q[i];
      WithoutInOrder(s, puts, k);
      var w := Without(s, k);
      forall i | 0 <= i < |w| ensures PutBefore(w[i].key, last.key, puts) {
        WithoutMember(s, k, w[i]);
        var j :| 0 <= j < |s| && s[j] == w[i];
        assert q[j] == w[i];
      }
    }
  }

  lemma OtherLastPuts(q: Queue, puts: Queue, x: Item<string, Arg>)
    requires forall i :: 0 <= i < |q| ==> q[i].key != x.key
    ensures forall i :: 0 <= i < |q| ==> LastPut(puts + [x], q[i].key) == LastPut(puts, q[i].key)
  {
    forall i | 0 <= i < |q| ensures LastPut(puts + [x], q[i].key) == LastPut(puts, q[i].key) {
      LastPutNext(puts, x, q[i].key);
    }
  }

  lemma AddedIsLastPut(q: Queue, puts: Queue, x: Item<string, Arg>)
    requires forall i :: 0 <= i < |q| ==> q[i].key != x.key
    requires forall i :: 0 <= i < |q| ==> IsLastPut(q[i], puts)
    ensures IsLastPut(x, puts + [x])
    ensures forall i :: 0 <= i < |q| ==> IsLastPut(q[i], puts + [x])
  {
    LastPutNext(puts, x, x.key);
    OtherLastPuts(q, puts, x);
  }

  lemma AddedIsPutLast(q: Queue, puts: Queue, x: Item<string, Arg>)
    requires forall i :: 0 <= i < |q| ==> q[i].key != x.key
    requires InPutOrder(q, puts)
    ensures forall i :: 0 <= i < |q| ==> PutBefore(q[i].key, x.key, puts + [x])
    ensures forall i, j :: 0 <= i < j < |q| ==> PutBefore(q[i].key, q[j].key, puts + [x])
  {
    LastPutNext(puts, x, x.key);
    OtherLastPuts(q, puts, x);
  }

  lemma AddInOrder(q: Queue, puts: Queue, x: Item<string, Arg>, head: bool)
    requires forall i :: 0 <= i < |q| ==> q[i].key != x.key
    requires InPutOrder(q, puts)
    requires head ==> x.key == LINK_PATH
    ensures InPutOrder(if head then [x] + q else q + [x], puts + [x])
  {
    AddedIsLastPut(q, puts, x);
    AddedIsPutLast(q, puts, x);
  }

  lemma LinkInPlaceInOrder(q: Queue, puts: Queue, i: nat, x: Item<string, Arg>)
    requires Distinct(q) && InPutOrder(q, puts)
    requires i < |q| && q[i].key == x.key == LINK_PATH
    ensures InPutOrder(q[i := x], puts + [x])
  {
    LastPutNext(puts, x, x.key);
    forall j | 0 <= j < |q| && j != i ensures LastPut(puts + [x], q[j].key) == LastPut(puts, q[j].key) {
      LastPutNext(puts, x, q[j].key);
    }
  }

  lemma PutStateInOrder(q: Queue, puts: Queue, address: string, arg: Arg, head: bool)
    requires Distinct(q) && InPutOrder(q, puts)
    requires head ==> address == LINK_PATH
    ensures InPutOrder(PutState(q, address, arg, head), puts + [Item(address, arg)])
  {
    var x := Item(address, arg);
    if address == LINK_PATH && Has(q, address) && !head {
      LinkInPlaceInOrder(q, puts, Find(q, address), x);
    } else {
      WithoutInOrder(q, puts, address);
      WithoutHas(q, address, address);
      var r := Without(q, address);
      assert forall i :: 0 <= i < |r| ==> r[i].key != address;
      AddInOrder(r, puts, x, head);
    }
  }

  lemma PopInOrder(q: Queue, puts: Queue)
    requires q != [] && InPutOrder(q, puts)
    ensures InPutOrder(q[1..], puts)
  {}

  // ------------------------------------------------------------ link first

  ghost predicate LinkFirst(q: Queue, connected: bool) {
    q != [] && q[0] == LinkItem(connected)
  }

  function LinkItem(connected: bool): Item<string, Arg> {
    Item(LINK_PATH, Int(if connected then 1 else 0))
  }

  lemma {:induction false} WithoutKeepsHead(q: Queue, k: string)
    requires q != [] && q[0].key != k
    ensures Without(q, k) != [] && Without(q, k)[0] == q[0]
  {
    if |q| > 1 { WithoutKeepsHead(q[..|q| - 1], k); }
  }

  /** Once at the head, the link state stays there, with the value of the latest link put,
      whatever else is queued, until it is sent. */
  lemma PutStateKeepsLinkFirst(q: Queue, connected: bool, address: string, arg: Arg, head: bool)
    requires LinkFirst(q, connected)
    requires head ==> address == LINK_PATH
    requires address == LINK_PATH ==> arg == LinkItem(connected).value
    ensures LinkFirst(PutState(q, address, arg, head), connected)
  {
    if address != LINK_PATH {
      WithoutKeepsHead(q, address);
    } else {
      assert q[0].key == address;
    }
  }
}
