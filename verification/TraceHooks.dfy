/** The hooks that run before every transmission of a request, retries of the
    transport included (services/api_recovery.py). One context lives as long as
    one request of the HTTP client; a 429 makes the client open the next. */
module TraceHooks {
  import opened Common

  datatype Kind = CreatesChannel | MovesMember | Other

  /** What the headers hook meets: the gate's verdict, and what the mutation's
      precondition says at that moment, if the caller has set one. */
  datatype Moment = Moment(admitted: bool, waiting: Option<bool>)

  datatype Outcome = Transmits | Defers | Ambiguous

  /** The hook that precedes the headers of attempt number `sends`. */
  function Hook(kind: Kind, sends: nat, m: Moment): Outcome {
    if !m.admitted then Defers
    else if kind != Other && m.waiting == Some(false) then Defers
    else if kind == CreatesChannel && sends > 0 then Ambiguous
    else Transmits
  }

  /** The transmissions of one request: the attempts until a hook raises. */
  function Transmitted(kind: Kind, sends: nat, attempts: seq<Moment>): seq<Moment>
    decreases |attempts|
  {
    if attempts == [] || Hook(kind, sends, attempts[0]) != Transmits then []
    else [attempts[0]] + Transmitted(kind, sends + 1, attempts[1..])
  }

  /** How the request comes out of its hooks. */
  function Result(kind: Kind, sends: nat, attempts: seq<Moment>): Outcome
    decreases |attempts|
  {
    if attempts == [] then Transmits
    else if Hook(kind, sends, attempts[0]) != Transmits then Hook(kind, sends, attempts[0])
    else Result(kind, sends + 1, attempts[1..])
  }

  class TraceContext {
    const kind: Kind
    var sends: nat

    constructor (kind: Kind)
      ensures this.kind == kind && sends == 0
    {
      this.kind := kind;
      sends := 0;
    }

    /** on_request_headers_sent */
    method HeadersSent(m: Moment) returns (outcome: Outcome)
      modifies this`sends
      ensures outcome == Hook(kind, old(sends), m)
      ensures sends == old(sends) + (if outcome == Transmits then 1 else 0)
    {
      if !m.admitted {
        return Defers;
      }
      if kind != Other && m.waiting.Some? && !m.waiting.value {
        return Defers;
      }
      if kind == CreatesChannel && sends > 0 {
        return Ambiguous;
      }
      sends := sends + 1;
      return Transmits;
    }

    /** The transport tries until it has a reply or a hook raises. */
    method Attempt(attempts: seq<Moment>) returns (sent: seq<Moment>, outcome: Outcome)
      requires sends == 0
      modifies this`sends
      ensures sent == Transmitted(kind, 0, attempts) && sends == |sent|
      ensures outcome == Result(kind, 0, attempts)
    {
      sent := [];
      for i := 0 to |attempts|
        invariant sends == |sent| == i
        invariant sent + Transmitted(kind, i, attempts[i..]) == Transmitted(kind, 0, attempts)
        invariant Result(kind, i, attempts[i..]) == Result(kind, 0, attempts)
      {
        assert attempts[i..][1..] == attempts[i + 1..];
        outcome := HeadersSent(attempts[i]);
        if outcome != Transmits {
          NoneTransmitted(kind, i, attempts[i..]);
          return;
        }
        sent := sent + [attempts[i]];
      }
      return sent, Transmits;
    }
  }

  lemma NoneTransmitted(kind: Kind, sends: nat, attempts: seq<Moment>)
    requires attempts != [] && Hook(kind, sends, attempts[0]) != Transmits
    ensures Transmitted(kind, sends, attempts) == []
  {
  }

  /** Whatever the transport retries: each transmission of a guarded create or
      move happens at a moment when the gate admits it and its precondition
      holds, and a create is transmitted at most once for each request. */
  lemma {:induction false} EveryTransmissionIsGuarded(kind: Kind, sends: nat, attempts: seq<Moment>)
    ensures forall m | m in Transmitted(kind, sends, attempts) ::
              m in attempts && m.admitted && (kind != Other ==> m.waiting != Some(false))
    ensures kind == CreatesChannel ==> |Transmitted(kind, sends, attempts)| <= 1
    ensures kind == CreatesChannel && sends > 0 ==> Transmitted(kind, sends, attempts) == []
    decreases |attempts|
  {
    if attempts != [] {
      EveryTransmissionIsGuarded(kind, sends + 1, attempts[1..]);
    }
  }

  /** Exactly what goes out: an admitted attempt that is no guarded mutation whose
      member has left, and no second create. */
  lemma TransmitsExactly(kind: Kind, sends: nat, m: Moment)
    ensures Hook(kind, sends, m) == Transmits <==>
            && m.admitted && (m.waiting == Some(false) ==> kind == Other) && (sends > 0 ==> kind != CreatesChannel)
    ensures Hook(kind, sends, m) == Ambiguous <==>
            && m.admitted && kind == CreatesChannel && sends > 0 && m.waiting != Some(false)
  {
  }

  /** A create that transport would send again ends in doubt or deferred, never
      in a second transmission. */
  lemma ReplayIsAmbiguous(attempts: seq<Moment>, again: Moment)
    requires Transmitted(CreatesChannel, 0, attempts) == attempts && attempts != []
    ensures Transmitted(CreatesChannel, 0, attempts + [again]) == attempts
    ensures Hook(CreatesChannel, |attempts|, again) ==
            if again.admitted && again.waiting != Some(false) then Ambiguous else Defers
  {
    EveryTransmissionIsGuarded(CreatesChannel, 0, attempts + [again]);
    EveryTransmissionIsGuarded(CreatesChannel, 0, attempts);
    assert (attempts + [again])[0] == attempts[0] && |attempts| == 1;
    EveryTransmissionIsGuarded(CreatesChannel, 1, (attempts + [again])[1..]);
  }

  /** When the gate or the precondition ends a create whose headers have already
      gone out: exactly when the transport sends it a second time and the gate
      refuses, or the member has left. Without a second attempt, a deferral means
      that nothing was sent. */
  lemma SentCreateDefersExactly(attempts: seq<Moment>)
    ensures Result(CreatesChannel, 0, attempts) == Defers && Transmitted(CreatesChannel, 0, attempts) != []
            <==> |attempts| > 1 && attempts[0].admitted && attempts[0].waiting != Some(false)
                 && (!attempts[1].admitted || attempts[1].waiting == Some(false))
    ensures |attempts| <= 1 && Result(CreatesChannel, 0, attempts) == Defers ==> Transmitted(CreatesChannel, 0, attempts) == []
  {
    if attempts != [] && Hook(CreatesChannel, 0, attempts[0]) == Transmits && |attempts| > 1 {
      assert attempts[1..][0] == attempts[1];
    }
  }

  /** Attempt number j is transmitted exactly if no hook has raised up to it. */
  lemma {:induction false} TransmittedExactly(kind: Kind, sends: nat, attempts: seq<Moment>, j: nat)
    requires j < |attempts|
    ensures j < |Transmitted(kind, sends, attempts)|
            <==> forall k: nat | k <= j :: Hook(kind, sends + k, attempts[k]) == Transmits
    ensures j < |Transmitted(kind, sends, attempts)| ==> Transmitted(kind, sends, attempts)[j] == attempts[j]
    decreases j
  {
    if j > 0 {
      TransmittedExactly(kind, sends + 1, attempts[1..], j - 1);
      if forall k: nat | k <= j - 1 :: Hook(kind, sends + 1 + k, attempts[1..][k]) == Transmits {
        forall k: nat | 0 < k <= j ensures Hook(kind, sends + k, attempts[k]) == Transmits {
          assert attempts[1..][k - 1] == attempts[k] && Hook(kind, sends + 1 + (k - 1), attempts[1..][k - 1]) == Transmits;
        }
      } else {
        var k: nat :| k <= j - 1 && Hook(kind, sends + 1 + k, attempts[1..][k]) != Transmits;
        assert attempts[k + 1] == attempts[1..][k];
      }
    }
  }
}
