/** Calls to the Shelly relay: up to four attempts, with growing delays. */
module Shelly {
  import opened OrderedDict

  // What one HTTP exchange comes to. Unreachable: a client error or a timeout.
  datatype Exchange<T> = Unreachable | Response(status: int, body: Option<T>) | Crash

  // ShellyClient._call: an answer, an error worth a retry, or any other exception.
  datatype Attempt<T> = Answered(value: T) | Retryable | Fatal

  // How a retried call ends.
  datatype Reply<T> = Value(value: T) | GaveUp | Raised

  const DELAYS: seq<nat> := [1, 3, 9]
  const ATTEMPTS := 4

  // A body that is no JSON counts as `empty`.
  function Call<T>(x: Exchange<T>, empty: T): Attempt<T> {
    match x
    case Unreachable => Retryable
    case Crash => Fatal
    case Response(status, body) =>
      if status != 200 then Retryable else Answered(match body case Some(v) => v case None => empty)
  }

  // The outcome of each attempt, should it be made.
  type Wire<!T> = nat -> Attempt<T>

  // The n-th attempt is the first not worth a retry, or the last, and ends the call so.
  ghost predicate EndsAt<T>(wire: Wire<T>, reply: Reply<T>, n: nat) {
    && 1 <= n <= 4
    && (forall k: nat :: k < n - 1 ==> wire(k) == Retryable)
    && match wire(n - 1)
       case Answered(v) => reply == Value(v)
       case Fatal => reply == Raised
       case Retryable => n == 4 && reply == GaveUp
  }

  ghost predicate Gives<T>(wire: Wire<T>, reply: Reply<T>) {
    exists n: nat :: EndsAt(wire, reply, n)
  }

  lemma GivesOne<T>(wire: Wire<T>, a: Reply<T>, b: Reply<T>)
    requires Gives(wire, a) && Gives(wire, b)
    ensures a == b
  {
    var m: nat :| EndsAt(wire, a, m);
    var n: nat :| EndsAt(wire, b, n);
    var endA: nat, endB: nat := m - 1, n - 1;
    assert endA < endB ==> wire(endA) == Retryable;
    assert endB < endA ==> wire(endB) == Retryable;
  }

  /** A call is tried until an attempt is not worth a retry, four times at most, sleeping 1, 3
      and 9 seconds in between. */
  method CallWithRetry<T>(wire: Wire<T>) returns (reply: Reply<T>, attempts: nat, slept: seq<nat>)
    ensures EndsAt(wire, reply, attempts) && Gives(wire, reply)
    ensures slept == [1, 3, 9][..attempts - 1]
  {
    slept := [];
    for attempt := 0 to ATTEMPTS
      invariant forall k: nat :: k < attempt ==> wire(k) == Retryable
      invariant slept == if attempt < |DELAYS| then DELAYS[..attempt] else DELAYS
    {
      match wire(attempt) {
        case Answered(v) =>
          assert EndsAt(wire, Value(v), attempt + 1);
          return Value(v), attempt + 1, slept;
        case Fatal =>
          assert EndsAt(wire, Raised, attempt + 1);
          return Raised, attempt + 1, slept;
        case Retryable =>
          if attempt < |DELAYS| {
            slept := slept + [DELAYS[attempt]];
          }
      }
    }
    assert EndsAt(wire, GaveUp, ATTEMPTS);
    return GaveUp, ATTEMPTS, slept;
  }

  // ------------------------------------------------------------ the two calls

  // A status answer: no JSON object, or one whose `output` is missing, false or anything else.
  datatype Output = Missing | False | Other
  datatype Json = NotAnObject | Object(output: Output)

  // What is read from a status: whether `output`, true if missing, is false.
  datatype Relay = NotOpen | Open | Unreadable

  function RelayOf(status: Json): Relay {
    match status
    case NotAnObject => Unreadable
    case Object(output) => if output == False then Open else NotOpen
  }

  // A body that is empty, or no JSON, reads as an empty object, so as a relay that is not open.
  function Attempts(exchanges: nat -> Exchange<Json>): Wire<Json> {
    (k: nat) => Call(exchanges(k), Object(Missing))
  }

  // The call ended with an answer that reads so.
  ghost predicate Reads(wire: Wire<Json>, relay: Relay) {
    exists v :: Gives(wire, Value(v)) && RelayOf(v) == relay
  }

  ghost predicate Accepted(wire: Wire<Json>) {
    exists v :: Gives(wire, Value(v))
  }

  /** One reply decides everything asked of a call. */
  lemma Decided(wire: Wire<Json>, reply: Reply<Json>)
    requires Gives(wire, reply)
    ensures forall relay :: Reads(wire, relay) <==> reply.Value? && RelayOf(reply.value) == relay
    ensures Accepted(wire) <==> reply.Value?
    ensures Gives(wire, GaveUp) <==> reply == GaveUp
  {
    forall other | Gives(wire, other) ensures other == reply { GivesOne(wire, other, reply); }
  }

  // The exchange did not reach the relay, or was answered with an error.
  predicate Failed(x: Exchange<Json>) {
    x.Unreachable? || (x.Response? && x.status != 200)
  }

  // The n-th of the first four attempts is answered with 200, those before it having failed.
  ghost predicate FirstAnswer(exchanges: nat -> Exchange<Json>, n: nat) {
    && n < 4 && exchanges(n).Response? && exchanges(n).status == 200
    && forall k: nat :: k < n ==> Failed(exchanges(k))
  }

  lemma AnswerAt(exchanges: nat -> Exchange<Json>, v: Json) returns (n: nat)
    requires Gives(Attempts(exchanges), Value(v))
    ensures FirstAnswer(exchanges, n)
    ensures v == match exchanges(n).body case Some(b) => b case None => Object(Missing)
  {
    var wire := Attempts(exchanges);
    var e: nat :| EndsAt(wire, Value(v), e);
    n := e - 1;
    forall k: nat | k < n ensures Failed(exchanges(k)) {
      assert wire(k) == Retryable;
    }
    assert wire(n) == Answered(v);
  }

  lemma AnswerGiven(exchanges: nat -> Exchange<Json>, n: nat) returns (v: Json)
    requires FirstAnswer(exchanges, n)
    ensures Gives(Attempts(exchanges), Value(v))
    ensures v == match exchanges(n).body case Some(b) => b case None => Object(Missing)
  {
    var wire := Attempts(exchanges);
    v := match exchanges(n).body case Some(b) => b case None => Object(Missing);
    assert wire(n) == Answered(v);
    forall k: nat | k < n ensures wire(k) == Retryable { assert Failed(exchanges(k)); }
    assert EndsAt(wire, Value(v), n + 1);
  }

  /** A relay is taken to be not open exactly if one of the first four attempts is answered with
      200, those before it having failed, and that answer has no JSON body at all, or a JSON
      object in which `output` is anything but false. */
  lemma NotOpenMeans(exchanges: nat -> Exchange<Json>)
    ensures Reads(Attempts(exchanges), NotOpen) <==>
              exists n: nat :: FirstAnswer(exchanges, n)
                               && (exchanges(n).body == None
                                   || (exchanges(n).body.value.Object? && exchanges(n).body.value.output != False))
  {
    if Reads(Attempts(exchanges), NotOpen) {
      var v :| Gives(Attempts(exchanges), Value(v)) && RelayOf(v) == NotOpen;
      var n := AnswerAt(exchanges, v);
    }
    if n: nat :| FirstAnswer(exchanges, n)
                 && (exchanges(n).body == None
                     || (exchanges(n).body.value.Object? && exchanges(n).body.value.output != False))
    {
      var v := AnswerGiven(exchanges, n);
    }
  }

  /** It is taken to be open exactly if that answer is a JSON object in which `output` is false. */
  lemma OpenMeans(exchanges: nat -> Exchange<Json>)
    ensures Reads(Attempts(exchanges), Open) <==>
              exists n: nat :: FirstAnswer(exchanges, n) && exchanges(n).body == Some(Object(False))
  {
    if Reads(Attempts(exchanges), Open) {
      var v :| Gives(Attempts(exchanges), Value(v)) && RelayOf(v) == Open;
      var n := AnswerAt(exchanges, v);
    }
    if n: nat :| FirstAnswer(exchanges, n) && exchanges(n).body == Some(Object(False)) {
      var v := AnswerGiven(exchanges, n);
    }
  }

  /** A call is accepted exactly if one of the first four attempts is answered with 200, those
      before it having failed; it is given up exactly if all four have failed. */
  lemma CallMeans(exchanges: nat -> Exchange<Json>)
    ensures Accepted(Attempts(exchanges)) <==> exists n: nat :: FirstAnswer(exchanges, n)
    ensures Gives(Attempts(exchanges), GaveUp) <==> forall k: nat :: k < 4 ==> Failed(exchanges(k))
  {
    var wire := Attempts(exchanges);
    if Accepted(wire) {
      var v :| Gives(wire, Value(v));
      var n := AnswerAt(exchanges, v);
    }
    if n: nat :| FirstAnswer(exchanges, n) {
      var v := AnswerGiven(exchanges, n);
    }
    if Gives(wire, GaveUp) {
      var n: nat :| EndsAt(wire, GaveUp, n);
      forall k: nat | k < 4 ensures Failed(exchanges(k)) { assert wire(k) == Retryable; }
    }
    if forall k: nat :: k < 4 ==> Failed(exchanges(k)) {
      forall k: nat | k < 4 ensures wire(k) == Retryable { assert Failed(exchanges(k)); }
      assert EndsAt(wire, GaveUp, 4);
    }
  }
}
