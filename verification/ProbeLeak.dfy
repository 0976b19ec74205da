/** A deferral that keeps the global probe (services/api_recovery.py): when it
    happens, that it happens, and what it does to everybody else. */
module ProbeLeak {
  import opened Common
  import opened ApiGate
  import GateDurability

  /** The scope of the request besides the global one. */
  function Own(g: Gate, req: Request): Key {
    Keys(g.aliases, req)[1]
  }

  /** The deferral that AdmitRequest raises. */
  function Admission(g: Gate, task: Task, req: Request): Verdict {
    Walk(g.states, g.probes, task, req.me, Keys(g.aliases, req), g.clock)
  }

  /** The request is deferred, and leaves with a global probe it did not bring. */
  predicate Leaks(g: Gate, task: Task, req: Request) {
    var v := Admission(g, task, req);
    v.deferral.Some? && Global in v.probes && Global !in g.probes
  }

  /** The second scope is restricted, or another task probes it. */
  predicate OwnStops(g: Gate, task: Task, req: Request) {
    var k := Own(g, req);
    k != Global && k in g.states && (g.states[k].mono > g.clock || (k in g.probes && g.probes[k] != task))
  }

  lemma WalkOne(g: Gate, probes: map<Key, Task>, task: Task, me: bool, k: Key)
    ensures var v := Walk(g.states, probes, task, me, [k], g.clock);
            && (v.deferral.Some? <==> k in g.states && (g.states[k].mono > g.clock || (k in probes && probes[k] != task)
                                                        || (k == Global && !me)))
            && (Global in v.probes <==> Global in probes || (v.deferral.None? && k == Global && k in g.states))
  {
    assert [k][1..] == [];
    assert forall p :: Walk(g.states, p, task, me, [], g.clock) == Verdict(p, None);
  }

  /** Exactly the identity request that finds the global restriction expired and
      unclaimed, and is stopped by its own scope, leaks the global probe. */
  lemma DeferredWithProbe(g: Gate, task: Task, req: Request)
    ensures Leaks(g, task, req)
            <==> req.me && Global in g.states && g.states[Global].mono <= g.clock && Global !in g.probes
                 && OwnStops(g, task, req)
  {
    var keys := Keys(g.aliases, req);
    assert keys[0] == Global && keys[1..] == [keys[1]];
    WalkOne(g, g.probes, task, req.me, keys[1]);
    WalkOne(g, g.probes[Global := task], task, req.me, keys[1]);
  }

  // ---- it happens ----------------------------------------------------------------

  const IDENTITY := Request(1, true)

  function Restriction(): seq<Action> {
    [Start] + ([Reject(7, Global, 0.0, Some(10.0))] + ([Stored] + ([Reject(1, Bucket(1), 0.0, Some(100.0))]
    + ([Stored] + ([Tick(10.0)] + [])))))
  }

  /** A global restriction of ten seconds, a bucket restriction of the identity
      route of a hundred: after ten seconds the identity request leaks. */
  lemma LeakIsReached()
    ensures Fresh(GateDurability.NEW) && After(GateDurability.NEW, Restriction()).Some?
    ensures var g := After(GateDurability.NEW, Restriction()).value;
            g.up && g.lock.Free? && Leaks(g, 5, IDENTITY)
  {
    var c, d := Cool(10.0, 10.0, 1, 7), Cool(100.0, 100.0, 1, 1);
    var g0 := GateDurability.NEW;
    var g1 := g0.(up := true);
    var g2 := g1.(states := map[Global := c], aliases := map[7 := Global], lock := Saving(Global, AsRow(c), 0, []));
    var g3 := g2.(lock := Free, disk := map[Global := AsRow(c)]);
    var g4 := g3.(states := map[Global := c, Bucket(1) := d], aliases := map[7 := Global, 1 := Bucket(1)],
                  lock := Saving(Bucket(1), AsRow(d), 0, []));
    var g5 := g4.(lock := Free, disk := map[Global := AsRow(c), Bucket(1) := AsRow(d)]);
    var g6 := g5.(clock := 10.0);
    Then(g5, Tick(10.0), g6, []);
    Then(g4, Stored, g5, [Tick(10.0)] + []);
    Then(g3, Reject(1, Bucket(1), 0.0, Some(100.0)), g4, [Stored] + ([Tick(10.0)] + []));
    var rest := [Reject(1, Bucket(1), 0.0, Some(100.0))] + ([Stored] + ([Tick(10.0)] + []));
    Then(g2, Stored, g3, rest);
    Then(g1, Reject(7, Global, 0.0, Some(10.0)), g2, [Stored] + rest);
    Then(g0, Start, g1, [Reject(7, Global, 0.0, Some(10.0))] + ([Stored] + rest));
    DeferredWithProbe(g6, 5, IDENTITY);
  }

  // ---- and nobody else passes ----------------------------------------------------

  /** `task` holds the global probe, and no lock holder is about to take it. */
  ghost predicate Stuck(g: Gate, task: Task) {
    && g.up && Global in g.states && Global in g.probes && g.probes[Global] == task
    && (g.lock.Deleting? ==> g.lock.task != task && g.lock.k != Global)
    && (g.lock.Saving? ==> g.lock.task != task || g.lock.rest == [])
  }

  /** The holder does nothing, no global 429 arrives, and the process lives. */
  predicate Elsewhere(a: Action, task: Task) {
    match a
    case Admit(t, _) => t != task
    case Release(t, _) => t != task
    case Success(t, _) => t != task
    case Reject(_, k, _, _) => k != Global
    case Crash(_) => false
    case _ => true
  }

  lemma {:induction false} ReleasingStaysStuck(g: Gate, other: Task, keys: seq<Key>, task: Task)
    requires Stuck(g.(lock := Free), task) && (other != task || keys == [])
    ensures Stuck(Releasing(g, other, keys), task)
    decreases |keys|
  {
    if keys != [] {
      var p := keys[0];
      if p !in g.probes || g.probes[p] != other {
        ReleasingStaysStuck(g, other, keys[1..], task);
      } else if p !in g.states {
        ReleasingStaysStuck(g.(probes := g.probes - {p}), other, keys[1..], task);
      }
    }
  }

  lemma {:induction false} ClearingStaysStuck(g: Gate, other: Task, keys: seq<Key>, task: Task)
    requires Stuck(g.(lock := Free), task) && other != task
    ensures Stuck(Clearing(g, other, keys), task)
    decreases |keys|
  {
    if keys != [] {
      ClearingStaysStuck(g, other, keys[1..], task);
    }
  }

  /** Somebody else's walk neither takes nor passes the held probe. */
  lemma OthersStop(g: Gate, task: Task, other: Task, req: Request)
    requires Stuck(g, task) && other != task
    ensures var v := Admission(g, other, req); v.deferral.Some? && v.probes == g.probes
  {
    assert Keys(g.aliases, req)[0] == Global;
  }

  lemma StepStaysStuck(g: Gate, a: Action, task: Task)
    requires Stuck(g, task) && Elsewhere(a, task) && Next(g, a).Some?
    ensures Stuck(Next(g, a).value, task)
  {
    match a
    case Admit(t, req) => OthersStop(g, task, t, req);
    case Release(t, req) => ReleasingStaysStuck(g, t, Keys(g.aliases, req), task);
    case Success(t, req) => ClearingStaysStuck(g, t, Keys(g.aliases, req), task);
    case Stored =>
      if g.lock.Saving? {
        ReleasingStaysStuck(g.(disk := Landed(g)), g.lock.task, g.lock.rest, task);
      } else {
        var k := g.lock.k;
        ClearingStaysStuck(g.(disk := Landed(g), states := g.states - {k}, probes := g.probes - {k}),
                           g.lock.task, g.lock.rest, task);
      }
    case _ =>
  }

  lemma {:induction false} StuckStays(g: Gate, acts: seq<Action>, task: Task)
    requires Stuck(g, task) && After(g, acts).Some? && forall i | 0 <= i < |acts| :: Elsewhere(acts[i], task)
    ensures Stuck(After(g, acts).value, task)
    decreases |acts|
  {
    hide Stuck, Next;
    if acts != [] {
      StepStaysStuck(g, acts[0], task);
      StuckStays(Next(g, acts[0]).value, acts[1..], task);
    }
  }

  /** After a leak, while its holder does nothing more, no global 429 arrives and
      the process lives, no other task's request passes at all: whatever time
      goes by and whatever else is released, cleared or saved. */
  lemma LeakShutsEveryoneOut(g: Gate, task: Task, req: Request, acts: seq<Action>, other: Task, wanted: Request)
    requires g.up && g.lock.Free? && Leaks(g, task, req)
    requires After(Next(g, Admit(task, req)).value, acts).Some? && forall i | 0 <= i < |acts| :: Elsewhere(acts[i], task)
    requires other != task
    ensures !Passes(After(Next(g, Admit(task, req)).value, acts).value, other, wanted)
  {
    DeferredWithProbe(g, task, req);
    LeakerHolds(g, task, req);
    var h := Next(g, Admit(task, req)).value;
    StuckStays(h, acts, task);
    OthersStop(After(h, acts).value, task, other, wanted);
  }

  lemma LeakerHolds(g: Gate, task: Task, req: Request)
    requires Leaks(g, task, req)
    ensures Admission(g, task, req).probes[Global] == task
  {
    var keys := Keys(g.aliases, req);
    assert keys[0] == Global && keys[1..] == [keys[1]] && [keys[1]][1..] == [];
    WalkOne(g, g.probes, task, req.me, keys[1]);
    WalkKeepsTask(g, g.probes[Global := task], task, req.me, keys[1..]);
  }

  lemma {:induction false} WalkKeepsTask(g: Gate, probes: map<Key, Task>, task: Task, me: bool, keys: seq<Key>)
    requires Global in probes && probes[Global] == task
    ensures var v := Walk(g.states, probes, task, me, keys, g.clock); Global in v.probes && v.probes[Global] == task
    decreases |keys|
  {
    if keys != [] {
      WalkKeepsTask(g, probes, task, me, keys[1..]);
      WalkKeepsTask(g, probes[keys[0] := task], task, me, keys[1..]);
    }
  }
}
