/** The gate opens again: a restriction lasts exactly as long as Discord said, one
    probe passes then, and its success gives back the gate as it was before. */
module GateRecovery {
  import opened Common
  import opened ApiGate
  import opened GateDurability
  import ApiRecovery

  /** A restriction of scope k whose save has landed. */
  function Closing(route: Route, k: Key, seen: real, delay: real, dt: real, rest: seq<Action>): seq<Action> {
    [Reject(route, k, seen, Some(delay))] + ([Stored] + ([Tick(dt)] + rest))
  }

  /** The gate in between, dt later. */
  function Closed(g: Gate, route: Route, k: Key, delay: real, dt: real): Gate {
    var c := Cool(g.clock + delay, g.clock + delay, 1, route);
    g.(clock := g.clock + dt, states := g.states[k := c], aliases := g.aliases[route := k], disk := g.disk[k := AsRow(c)])
  }

  /** Ready for a first restriction of scope k. */
  ghost predicate Quiet(g: Gate, k: Key) {
    Inv(g) && g.up && g.lock.Free? && k !in g.states && !k.Plain? && g.clock >= 0.0
  }

  lemma ClosesAndWaits(g: Gate, route: Route, k: Key, delay: real, dt: real, rest: seq<Action>)
    requires Quiet(g, k) && delay > 0.0 && dt >= 0.0
    ensures After(g, Closing(route, k, g.clock, delay, dt, rest)) == After(Closed(g, route, k, delay, dt), rest)
  {
    var c := Cool(g.clock + delay, g.clock + delay, 1, route);
    var g1 := g.(states := g.states[k := c], aliases := g.aliases[route := k], lock := Saving(k, AsRow(c), 0, []));
    var g2 := Closed(g, route, k, delay, 0.0);
    assert k !in g.disk && k !in g.probes && g.probes - {k} == g.probes;
    assert Next(g, Reject(route, k, g.clock, Some(delay))) == Some(g1);
    assert Next(g1, Stored) == Some(g2);
    assert Next(g2, Tick(dt)) == Some(Closed(g, route, k, delay, dt));
    hide Next, After;
    Then(g2, Tick(dt), Closed(g, route, k, delay, dt), rest);
    Then(g1, Stored, g2, [Tick(dt)] + rest);
    Then(g, Reject(route, k, g.clock, Some(delay)), g1, [Stored] + ([Tick(dt)] + rest));
  }

  lemma {:induction false} ClosedKeepsInv(g: Gate, route: Route, k: Key, delay: real, dt: real)
    requires Quiet(g, k) && delay > 0.0 && dt >= 0.0
    ensures Inv(Closed(g, route, k, delay, dt))
  {
  }

  /** While nothing else happens, a request of that scope, with no other scope
      restricted, passes exactly once the named delay is over; under a global
      restriction that is the identity request. */
  lemma OpensExactlyOnTime(g: Gate, route: Route, k: Key, delay: real, dt: real, task: Task, me: bool)
    requires Quiet(g, k) && delay > 0.0 && dt >= 0.0 && (k == Global ==> me) && (k != Global ==> Global !in g.states)
    ensures var e := After(g, Closing(route, k, g.clock, delay, dt, []));
            e.Some? && (Passes(e.value, task, Request(route, me)) <==> dt >= delay)
  {
    var e := Closed(g, route, k, delay, dt);
    ClosesAndWaits(g, route, k, delay, dt, []);
    ClosedKeepsInv(g, route, k, delay, dt);
    assert After(e, []) == Some(e);
    PassesExactly(e, task, Request(route, me));
    assert Keys(e.aliases, Request(route, me))[1] == k;
  }

  // ---- the probe ------------------------------------------------------------------

  /** Each restriction the request meets has run out, and nobody else probes it. */
  ghost predicate MayProbe(g: Gate, task: Task, req: Request) {
    forall k | k in Keys(g.aliases, req) && k in g.states ::
      && g.states[k].mono <= g.clock && g.states[k].utc <= g.clock
      && (k in g.probes ==> g.probes[k] == task) && (k == Global ==> req.me)
  }

  /** The gate without the restrictions of these scopes. */
  function Without(g: Gate, ks: set<Key>): Gate {
    g.(states := g.states - ks, probes := g.probes - ks, disk := g.disk - ks)
  }

  lemma {:induction false} ProbePasses(g: Gate, task: Task, req: Request)
    requires Inv(g) && g.up && g.lock.Free? && MayProbe(g, task, req)
    ensures Passes(g, task, req)
  {
    PassesExactly(g, task, req);
    var own := Keys(g.aliases, req)[1];
    assert Keys(g.aliases, req)[0] == Global && Global in Keys(g.aliases, req) && own in Keys(g.aliases, req);
  }

  /** What the admission takes: the probe of each scope it meets. */
  function Probing(g: Gate, task: Task, req: Request): Gate {
    g.(probes := g.probes + (map k | k in Keys(g.aliases, req) && k in g.states :: task))
  }

  lemma {:induction false} AdmissionTakes(g: Gate, task: Task, req: Request)
    requires Inv(g) && g.up && g.lock.Free? && MayProbe(g, task, req)
    ensures Next(g, Admit(task, req)) == Some(Probing(g, task, req))
  {
    ProbePasses(g, task, req);
    ApiRecovery.WalkTakes(g.states, g.probes, task, req.me, Keys(g.aliases, req), g.clock);
  }

  /** The deletes that a success awaits: one for each scope it probed. */
  function Deletes(g: Gate, req: Request): seq<Action> {
    var own := Keys(g.aliases, req)[1];
    (if Global in g.states then [Stored] else []) + (if own != Global && own in g.states then [Stored] else [])
  }

  /** One scope is cleared, and the success goes on with the rest. */
  lemma {:induction false} ClearsNext(g: Gate, task: Task, k: Key, rest: seq<Key>)
    requires g.up && g.lock == Deleting(k, task, rest)
    ensures Next(g, Stored) == Some(Clearing(Without(g, {k}).(lock := Free), task, rest))
  {
    ApiRecovery.LockIsReplaced(Without(g, {k}), task, rest);
  }

  lemma {:induction false} ClearingOne(g: Gate, task: Task, k: Key, rest: seq<Key>)
    requires g.lock.Free?
    ensures Clearing(g, task, [k] + rest)
            == if k in g.probes && g.probes[k] == task then g.(lock := Deleting(k, task, rest)) else Clearing(g, task, rest)
  {
    assert ([k] + rest)[1..] == rest && ([k] + rest)[0] == k;
  }

  lemma {:induction false} ClearingNone(g: Gate, task: Task)
    requires g.lock.Free?
    ensures Clearing(g, task, []) == g
  {
  }

  /** The scopes of the request that are restricted. */
  function Met(g: Gate, req: Request): set<Key> {
    set k | k in Keys(g.aliases, req) && k in g.states
  }

  lemma {:induction false} ProbedAre(g: Gate, task: Task, req: Request, k: Key)
    requires Inv(g) && MayProbe(g, task, req) && g.up && k in Keys(g.aliases, req)
    ensures var p := Probing(g, task, req); (k in p.probes && p.probes[k] == task) <==> k in g.states
  {
  }

  lemma {:induction false} BothCleared(p: Gate, task: Task, own: Key)
    requires p.up && p.lock.Free? && Mine(p, task, Global) && Mine(p, task, own) && own != Global
    ensures After(Clearing(p, task, [Global] + ([own] + [])), [Stored] + ([Stored] + []))
            == Some(Without(Without(p, {Global}), {own}))
  {
    var p1 := Without(p, {Global});
    var p2 := Without(p1, {own});
    ClearingOne(p, task, Global, [own] + []);
    ClearsNext(p.(lock := Deleting(Global, task, [own] + [])), task, Global, [own] + []);
    ClearingOne(p1, task, own, []);
    ClearsNext(p1.(lock := Deleting(own, task, [])), task, own, []);
    ClearingNone(p2, task);
    assert After(p2, []) == Some(p2);
    assert Without(p.(lock := Deleting(Global, task, [own] + [])), {Global}).(lock := Free) == p1;
    assert Without(p1.(lock := Deleting(own, task, [])), {own}).(lock := Free) == p2;
    hide Next, After, Clearing, Without;
    Then(p1.(lock := Deleting(own, task, [])), Stored, p2, []);
    Then(p.(lock := Deleting(Global, task, [own] + [])), Stored, p1.(lock := Deleting(own, task, [])), [Stored] + []);
  }

  predicate Mine(g: Gate, task: Task, k: Key) {
    k in g.probes && g.probes[k] == task
  }

  /** One of the two is probed, and cleared. */
  lemma {:induction false} OneCleared(p: Gate, task: Task, own: Key, k: Key)
    requires p.up && p.lock.Free? && Mine(p, task, k)
    requires (k == Global && (own == Global || !Mine(p, task, own))) || (k == own && !Mine(p, task, Global))
    ensures After(Clearing(p, task, [Global] + ([own] + [])), [Stored] + []) == Some(Without(p, {k}))
  {
    var rest := if k == Global then [own] + [] else [];
    var p1 := Without(p, {k});
    ClearingOne(p, task, Global, [own] + []);
    if k != Global {
      ClearingOne(p, task, own, []);
    }
    assert Clearing(p, task, [Global] + ([own] + [])) == p.(lock := Deleting(k, task, rest));
    ClearsNext(p.(lock := Deleting(k, task, rest)), task, k, rest);
    assert Without(p.(lock := Deleting(k, task, rest)), {k}).(lock := Free) == p1;
    if k == Global {
      ClearingOne(p1, task, own, []);
    }
    ClearingNone(p1, task);
    assert After(p1, []) == Some(p1);
    hide Next, After, Clearing, Without;
    Then(p.(lock := Deleting(k, task, rest)), Stored, p1, []);
  }

  lemma {:induction false} NoneCleared(p: Gate, task: Task, own: Key)
    requires p.lock.Free? && !Mine(p, task, Global) && !Mine(p, task, own)
    ensures After(Clearing(p, task, [Global] + ([own] + [])), []) == Some(p)
  {
    ClearingOne(p, task, Global, [own] + []);
    ClearingOne(p, task, own, []);
    ClearingNone(p, task);
  }

  lemma {:induction false} SuccessClears(g: Gate, task: Task, req: Request)
    requires Inv(g) && g.up && g.lock.Free? && MayProbe(g, task, req)
    ensures var p := Probing(g, task, req);
            After(Clearing(p, task, Keys(g.aliases, req)), Deletes(g, req)) == Some(Without(p, Met(g, req)))
  {
    var p, own := Probing(g, task, req), Keys(g.aliases, req)[1];
    assert Keys(g.aliases, req) == [Global] + ([own] + []);
    assert Keys(g.aliases, req)[0] == Global && Global in Keys(g.aliases, req) && own in Keys(g.aliases, req);
    ProbedAre(g, task, req, Global);
    ProbedAre(g, task, req, own);
    MetAre(g, req);
    hide Clearing, After, Inv, Probing, Met, MayProbe;
    if Global in g.states && own in g.states && own != Global {
      BothCleared(p, task, own);
      WithoutBoth(p, own);
    } else if Global in g.states {
      OneCleared(p, task, own, Global);
    } else if own in g.states {
      OneCleared(p, task, own, own);
    } else {
      NoneCleared(p, task, own);
      WithoutNone(p);
    }
  }

  lemma MetAre(g: Gate, req: Request)
    ensures var own := Keys(g.aliases, req)[1];
            && Met(g, req) == (if Global in g.states && own in g.states then {Global, own}
                               else if Global in g.states then {Global} else if own in g.states then {own} else {})
            && Deletes(g, req) == (if Global in g.states && own in g.states && own != Global then [Stored] + ([Stored] + [])
                                   else if Global in g.states || own in g.states then [Stored] + [] else [])
            && (own == Global ==> {Global, own} == {Global})
  {
    var own := Keys(g.aliases, req)[1];
    assert Keys(g.aliases, req)[0] == Global;
    assert forall k :: k in Keys(g.aliases, req) <==> k == Global || k == own;
  }

  lemma WithoutBoth(p: Gate, own: Key)
    ensures Without(Without(p, {Global}), {own}) == Without(p, {Global, own})
  {
    assert (p.states - {Global}) - {own} == p.states - {Global, own};
    assert (p.probes - {Global}) - {own} == p.probes - {Global, own};
    assert (p.disk - {Global}) - {own} == p.disk - {Global, own};
  }

  lemma WithoutNone(p: Gate)
    ensures Without(p, {}) == p
  {
    assert p.states - {} == p.states && p.probes - {} == p.probes && p.disk - {} == p.disk;
  }

  /** A probe whose restrictions have run out passes; once its success and the
      deletes it awaits are through, exactly those restrictions are gone, from
      memory, from the probes and from the disk, and every task passes. */
  lemma {:induction false} SuccessfulProbeReopens(g: Gate, task: Task, req: Request)
    requires Inv(g) && g.up && g.lock.Free? && MayProbe(g, task, req)
    ensures Passes(g, task, req)
    ensures var e := After(g, [Admit(task, req)] + ([Success(task, req)] + Deletes(g, req)));
            && e == Some(Without(g, Met(g, req)))
            && forall other, me :: Passes(e.value, other, Request(req.route, me))
  {
    var p := Probing(g, task, req);
    ProbePasses(g, task, req);
    AdmissionTakes(g, task, req);
    SuccessClears(g, task, req);
    assert Next(p, Success(task, req)) == Some(Clearing(p, task, Keys(g.aliases, req)));
    WithoutProbing(g, task, req);
    var e := Without(g, Met(g, req));
    assert Keys(g.aliases, req)[0] in Keys(g.aliases, req) && Keys(g.aliases, req)[1] in Keys(g.aliases, req);
    forall other, me ensures Passes(e, other, Request(req.route, me)) {
      ApiRecovery.OpenPasses(e, other, Request(req.route, me));
    }
    hide Next, After, Clearing, Probing, Inv, Passes;
    Then(p, Success(task, req), Clearing(p, task, Keys(g.aliases, req)), Deletes(g, req));
    Then(g, Admit(task, req), p, [Success(task, req)] + Deletes(g, req));
  }

  lemma {:induction false} WithoutProbing(g: Gate, task: Task, req: Request)
    ensures Without(Probing(g, task, req), Met(g, req)) == Without(g, Met(g, req))
  {
  }

  /** So a restriction leaves no trace: closed at once, for exactly the delay, and
      then, after one successful probe, the same scopes, probes and disk as before. */
  lemma {:induction false} RejectionRoundTrip(g: Gate, route: Route, k: Key, delay: real, task: Task, me: bool)
    requires Quiet(g, k) && delay > 0.0 && (k == Global ==> me) && (k != Global ==> Global !in g.states)
    ensures var req := Request(route, me);
            var c := Closed(g, route, k, delay, delay);
            var acts := Closing(route, k, g.clock, delay, delay, [Admit(task, req)] + ([Success(task, req)] + Deletes(c, req)));
            After(g, acts) == Some(g.(clock := g.clock + delay, aliases := g.aliases[route := k]))
  {
    var req, c := Request(route, me), Closed(g, route, k, delay, delay);
    ClosesAndWaits(g, route, k, delay, delay, [Admit(task, req)] + ([Success(task, req)] + Deletes(c, req)));
    ClosedKeepsInv(g, route, k, delay, delay);
    assert Keys(c.aliases, req) == [Global, k];
    assert Met(c, req) == {k};
    SuccessfulProbeReopens(c, task, req);
    ClosedWithout(g, route, k, delay);
    hide Quiet, Inv, After, Closed, Passes;
  }

  lemma ClosedWithout(g: Gate, route: Route, k: Key, delay: real)
    requires Quiet(g, k)
    ensures Without(Closed(g, route, k, delay, delay), {k}) == g.(clock := g.clock + delay, aliases := g.aliases[route := k])
  {
    assert k !in g.disk && k !in g.probes;
    assert g.states[k := Cool(g.clock + delay, g.clock + delay, 1, route)] - {k} == g.states;
    assert g.probes - {k} == g.probes;
  }
}
