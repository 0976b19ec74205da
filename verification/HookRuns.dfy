/** The transport's hooks at the transmissions of the protocol: which attempts of
    a create or move go out, over runs from a first boot. */
module HookRuns {
  import opened Common
  import opened Tables
  import opened Protocol
  import opened ProtocolInvariant
  import opened ProtocolTheorems
  import opened TraceHooks

  /** One attempt of the transport: the run up to it, and the gate's verdict. */
  datatype Try = Try(acts: seq<Action>, admitted: bool)

  /** Worker w is at the call when attempt number j is made: before a create's
      first one, awaiting its reply at a later one, or at the move. */
  ghost predicate AtCall(s: State, w: nat, kind: Kind, j: nat, t: Try) {
    && After(s, t.acts).Some? && w in Final(s, t.acts).runs && Final(s, t.acts).runs[w].JoinRun?
    && var pc := Final(s, t.acts).runs[w].pc;
       match kind
       case CreatesChannel => if j == 0 then pc.Create? else pc.Await?
       case MovesMember => pc.Moving?
       case Other => false
  }

  /** The transport's attempts at one request of worker w's call. */
  ghost predicate Attempts(s: State, w: nat, kind: Kind, tries: seq<Try>) {
    forall j | 0 <= j < |tries| :: AtCall(s, w, kind, j, tries[j])
  }

  /** What the hook meets: still_waiting is evaluated at this very moment. */
  ghost function Met(s: State, w: nat, t: Try): Moment
    requires After(s, t.acts).Some? && w in Final(s, t.acts).runs && Final(s, t.acts).runs[w].JoinRun?
  {
    var e := Final(s, t.acts);
    Moment(t.admitted, Some(StillWaiting(e, e.runs[w].row)))
  }

  ghost function AllMet(s: State, w: nat, kind: Kind, tries: seq<Try>): (ms: seq<Moment>)
    requires Attempts(s, w, kind, tries)
    ensures |ms| == |tries| && forall j | 0 <= j < |tries| :: AtCall(s, w, kind, j, tries[j]) && ms[j] == Met(s, w, tries[j])
  {
    seq(|tries|, j requires 0 <= j < |tries| =>
      assert AtCall(s, w, kind, j, tries[j]);
      Met(s, w, tries[j]))
  }

  /** The hook lets an attempt out exactly when the gate admits it and the
      protocol has a transmission at this point. */
  lemma HookIsTheGuard(s: State, w: nat, kind: Kind, j: nat, t: Try)
    requires AtCall(s, w, kind, j, t)
    ensures Hook(kind, j, Met(s, w, t)) == Transmits
            <==> t.admitted && Next(Final(s, t.acts), JoinStep(w, Transmit)).Some?
  {
    hide After, StillWaiting;
  }

  /** Retries included: an attempt is transmitted if and only if it and all
      before it were admitted and the protocol could transmit at each of them. */
  lemma RetriesIncluded(s: State, w: nat, kind: Kind, tries: seq<Try>, j: nat)
    requires Attempts(s, w, kind, tries) && j < |tries|
    ensures j < |Transmitted(kind, 0, AllMet(s, w, kind, tries))|
            <==> forall k | 0 <= k <= j ::
                   tries[k].admitted && Next(Final(s, tries[k].acts), JoinStep(w, Transmit)).Some?
  {
    var ms := AllMet(s, w, kind, tries);
    TransmittedExactly(kind, 0, ms, j);
    forall k | 0 <= k <= j
      ensures Hook(kind, k, ms[k]) == Transmits
              <==> tries[k].admitted && Next(Final(s, tries[k].acts), JoinStep(w, Transmit)).Some?
    {
      HookIsTheGuard(s, w, kind, k, tries[k]);
    }
  }

  /** So whatever the transport retries, a create goes out once for each request,
      for an intent that has made nothing and has nothing in flight, and a move
      towards the one room of its intent, and each while the owner is in the
      lobby of the row. */
  lemma TransmittedAttemptsAreGuarded(s: State, w: nat, kind: Kind, tries: seq<Try>, j: nat)
    requires Init(s) && Attempts(s, w, kind, tries) && j < |Transmitted(kind, 0, AllMet(s, w, kind, tries))|
    ensures j < |tries| && AtCall(s, w, kind, j, tries[j]) && tries[j].admitted
    ensures var e := Final(s, tries[j].acts);
            var row, pc := e.runs[w].row, e.runs[w].pc;
            && (row.guild, row.user) in e.voice && e.voice[(row.guild, row.user)] == row.lobby
            && (kind == CreatesChannel ==> j == 0 && pc.Create? && Fresh(e.world, pc.h.id))
            && (kind == MovesMember ==> pc.Moving? && pc.h.channel.Some? && pc.h.channel.value in e.world.made
                                        && e.world.made[pc.h.channel.value] == pc.h.id)
  {
    var ms := AllMet(s, w, kind, tries);
    TransmittedIsPrefix(kind, 0, ms);
    EveryTransmissionIsGuarded(kind, 0, ms);
    RetriesIncluded(s, w, kind, tries, j);
    assert AtCall(s, w, kind, j, tries[j]);
    hide After, Next, Transmitted;
    if kind == CreatesChannel {
      CreateIsGuarded(s, tries[j].acts, w);
    } else {
      MoveIsGuarded(s, tries[j].acts, w);
    }
  }

  lemma {:induction false} TransmittedIsPrefix(kind: Kind, sends: nat, attempts: seq<Moment>)
    ensures |Transmitted(kind, sends, attempts)| <= |attempts|
    decreases |attempts|
  {
    if attempts != [] {
      TransmittedIsPrefix(kind, sends + 1, attempts[1..]);
    }
  }
}
