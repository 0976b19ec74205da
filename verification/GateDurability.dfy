/** What a restart of the gate keeps: disk against memory, and the gate that
    initialize rebuilds against the one that stopped. */
module GateDurability {
  import opened Common
  import opened ApiGate

  /** Disk and memory hold the same restrictions, but for the one being saved;
      429s restrict the API or a bucket, never a bare route. */
  ghost predicate Synced(g: Gate) {
    && (forall k | k in g.disk || k in g.states || (g.lock.Saving? && k == g.lock.k) :: !k.Plain?)
    && (g.up ==>
          forall k | k in g.disk || k in g.states ::
            (g.lock.Saving? && k == g.lock.k)
            || (k in g.disk && k in g.states && g.disk[k] == AsRow(g.states[k])))
  }

  lemma {:induction false} ReleasingKeepsSynced(g: Gate, task: Task, keys: seq<Key>)
    requires g.up && Synced(g.(lock := Free))
    ensures Synced(Releasing(g, task, keys))
    decreases |keys|
  {
    if keys != [] {
      var p := keys[0];
      if p !in g.probes || g.probes[p] != task {
        ReleasingKeepsSynced(g, task, keys[1..]);
      } else if p !in g.states {
        ReleasingKeepsSynced(g.(probes := g.probes - {p}), task, keys[1..]);
      }
    }
  }

  lemma {:induction false} ClearingNeverSaves(g: Gate, task: Task, keys: seq<Key>)
    ensures !Clearing(g, task, keys).lock.Saving?
    decreases |keys|
  {
    if keys != [] {
      ClearingNeverSaves(g, task, keys[1..]);
    }
  }

  lemma StoredKeepsSynced(g: Gate)
    requires Inv(g) && Synced(g) && Next(g, Stored).Some?
    ensures Synced(Next(g, Stored).value)
  {
    if g.lock.Saving? {
      ReleasingKeepsSynced(g.(disk := Landed(g)), g.lock.task, g.lock.rest);
    } else {
      var p := g.lock.k;
      var g1 := g.(disk := Landed(g), states := g.states - {p}, probes := g.probes - {p});
      ClearingChangesTheLock(g1, g.lock.task, g.lock.rest);
      ClearingNeverSaves(g1, g.lock.task, g.lock.rest);
    }
  }

  lemma StepKeepsSynced(g: Gate, a: Action)
    requires Inv(g) && Synced(g) && Next(g, a).Some? && !a.StoreLost?
    ensures Synced(Next(g, a).value)
  {
    match a
    case Release(task, req) => ReleasingKeepsSynced(g, task, Keys(g.aliases, req));
    case Success(task, req) =>
      ClearingChangesTheLock(g, task, Keys(g.aliases, req));
      ClearingNeverSaves(g, task, Keys(g.aliases, req));
    case Stored => StoredKeepsSynced(g);
    case _ =>
  }

  predicate NoLostCall(acts: seq<Action>) {
    forall i | 0 <= i < |acts| :: !acts[i].StoreLost?
  }

  lemma {:induction false} SyncedAlways(g: Gate, acts: seq<Action>)
    requires Inv(g) && Synced(g) && After(g, acts).Some? && NoLostCall(acts)
    ensures Inv(After(g, acts).value) && Synced(After(g, acts).value)
    decreases |acts|
  {
    hide Inv, Synced, Next;
    if acts != [] {
      StepKeepsInv(g, acts[0]);
      StepKeepsSynced(g, acts[0]);
      SyncedAlways(Next(g, acts[0]).value, acts[1..]);
    }
  }

  /** Whenever the lock is free and no storage call was lost, disk and memory
      hold the same scopes, deadlines, attempts and routes. */
  lemma DiskIsMemory(g: Gate, acts: seq<Action>)
    requires Fresh(g) && After(g, acts).Some? && NoLostCall(acts)
    requires After(g, acts).value.up && After(g, acts).value.lock.Free?
    ensures var e := After(g, acts).value;
            e.disk == map k | k in e.states :: AsRow(e.states[k])
  {
    SyncedAlways(g, acts);
    var e := After(g, acts).value;
    assert e.disk.Keys == e.states.Keys;
  }

  /** Even when calls are lost, memory is at least as closed as the disk. */
  lemma MemoryCoversDisk(g: Gate, acts: seq<Action>, k: Key)
    requires Fresh(g) && After(g, acts).Some? && After(g, acts).value.up && k in After(g, acts).value.disk
    ensures var e := After(g, acts).value;
            k in e.states && e.disk[k].utc <= e.states[k].utc <= e.states[k].mono
  {
    InvAlways(g, acts);
  }

  /** The gate after a crash with nothing pending, and a restart. */
  function Restarted(g: Gate): Gate {
    Boot(g.(up := false, lock := Free))
  }

  /** A scope is closed in the rebuilt gate exactly while its stored deadline
      lies ahead. The old gate may have stayed closed a little longer, by the
      time its last 429 waited for the lock; it never opened sooner. */
  lemma RebuiltDeadlines(g: Gate, k: Key)
    requires Inv(g) && Synced(g) && g.up && g.lock.Free?
    ensures k in Restarted(g).states <==> k in g.states
    ensures k in g.states ==>
              var c, b := g.states[k], Restarted(g).states[k];
              && (b.utc, b.attempt, b.route) == (c.utc, c.attempt, c.route)
              && (Remaining(b, g.clock) > 0.0 <==> c.utc > g.clock)
              && Remaining(b, g.clock) <= Remaining(c, g.clock)
  {
  }

  // ---- the same decisions --------------------------------------------------------

  /** The aliases after a request has restored them from the records: a route
      named by some bucket restriction maps to such a bucket. */
  ghost predicate Restores(states: map<Key, Cool>, aliases: map<Route, Key>, a: map<Route, Key>) {
    forall r: Route ::
      if exists k :: k in states && k != Global && states[k].route == r
      then r in a && a[r] in states && a[r] != Global && states[a[r]].route == r
      else (r in a <==> r in aliases) && (r in a ==> a[r] == aliases[r])
  }

  ghost predicate UniqueNames(states: map<Key, Cool>) {
    forall j, k | j in states && k in states && j != Global && k != Global && states[j].route == states[k].route :: j == k
  }

  /** A scope is shut until its stored deadline, a moment longer if its last
      429 waited for the lock, and to everyone but the holder of its probe. */
  predicate Shut(g: Gate, k: Key) {
    k in g.states && g.states[k].utc > g.clock
  }

  predicate Lingers(g: Gate, k: Key) {
    k in g.states && g.states[k].utc <= g.clock < g.states[k].mono
  }

  predicate Held(g: Gate, task: Task, k: Key) {
    k in g.states && k in g.probes && g.probes[k] != task
  }

  /** Under a global restriction only the identity request may go. */
  predicate Reserved(g: Gate, me: bool, k: Key) {
    k == Global && k in g.states && !me
  }

  predicate Stops(g: Gate, task: Task, me: bool, k: Key) {
    Shut(g, k) || Lingers(g, k) || Held(g, task, k) || Reserved(g, me, k)
  }

  lemma {:induction false} WalkStopsExactly(g: Gate, probes: map<Key, Task>, task: Task, me: bool, keys: seq<Key>)
    requires Inv(g) && forall k | k in keys :: k in probes && probes[k] != task <==> k in g.probes && g.probes[k] != task
    ensures Walk(g.states, probes, task, me, keys, g.clock).deferral.Some?
            <==> exists k :: k in keys && Stops(g, task, me, k)
    decreases |keys|
  {
    if keys != [] {
      var k := keys[0];
      if Stops(g, task, me, k) {
        assert k in keys;
      } else {
        var next := if k in g.states then probes[k := task] else probes;
        WalkStopsExactly(g, next, task, me, keys[1..]);
        assert forall j | j in keys && Stops(g, task, me, j) :: j in keys[1..];
      }
    }
  }

  /** A request passes exactly if neither of its two scopes stops it. */
  lemma PassesExactly(g: Gate, task: Task, req: Request)
    requires Inv(g) && g.up && g.lock.Free?
    ensures Passes(g, task, req)
            <==> !Stops(g, task, req.me, Global) && !Stops(g, task, req.me, Keys(g.aliases, req)[1])
  {
    var keys := Keys(g.aliases, req);
    WalkStopsExactly(g, g.probes, task, req.me, keys);
    assert forall k | k in keys :: k == keys[0] || k == keys[1];
    assert keys[0] in keys && keys[1] in keys;
  }

  /** In the rebuilt gate a scope stops a request exactly while it is shut, or
      reserved: no probe is held and nothing lingers. */
  lemma RebuiltStops(g: Gate, aliases: map<Route, Key>, task: Task, me: bool, k: Key)
    requires Inv(g) && Synced(g) && g.up && g.lock.Free?
    ensures var b := Restarted(g).(aliases := aliases);
            Inv(b) && (Stops(b, task, me, k) <==> Shut(g, k) || Reserved(g, me, k))
  {
    RebuiltDeadlines(g, k);
  }

  /** What the old gate has and the rebuilt one has not: the probe of another
      task, a lingering deadline, or the alias to a shut bucket. */
  predicate Forgets(g: Gate, task: Task, before: Key, after: Key, me: bool) {
    && !Shut(g, Global) && !Shut(g, after) && !Reserved(g, me, Global)
    && (Shut(g, before) || Lingers(g, Global) || Lingers(g, before) || Held(g, task, Global) || Held(g, task, before))
  }

  /** And the other way round: two records name the route, and the rebuilt gate
      restores the one that is shut. */
  predicate Turns(g: Gate, task: Task, before: Key, after: Key, me: bool) {
    Shut(g, after) && !Stops(g, task, me, Global) && !Stops(g, task, me, before)
  }

  /** A gate rebuilt from the disk, whatever aliases a request has restored in
      either, decides like the gate that stopped: if and only if neither of the
      two differences shows. */
  lemma RebuiltGateAdmitsTheSameExactly(g: Gate, a: map<Route, Key>, b: map<Route, Key>, task: Task, req: Request)
    requires Inv(g) && Synced(g) && g.up && g.lock.Free?
    ensures var before, after := Keys(a, req)[1], Keys(b, req)[1];
            (Passes(g.(aliases := a), task, req) <==> Passes(Restarted(g).(aliases := b), task, req))
            <==> !Forgets(g, task, before, after, req.me) && !Turns(g, task, before, after, req.me)
  {
    var before, after := Keys(a, req)[1], Keys(b, req)[1];
    var h, r := g.(aliases := a), Restarted(g).(aliases := b);
    RebuiltStops(g, b, task, req.me, Global);
    RebuiltStops(g, b, task, req.me, after);
    PassesExactly(h, task, req);
    PassesExactly(r, task, req);
    SameStops(g, a, task, req.me, Global);
    SameStops(g, a, task, req.me, before);
  }

  lemma SameStops(g: Gate, a: map<Route, Key>, task: Task, me: bool, k: Key)
    requires Inv(g)
    ensures Inv(g.(aliases := a)) && Stops(g.(aliases := a), task, me, k) == Stops(g, task, me, k)
  {
  }

  /** A bucket record names the route. */
  ghost predicate Named(g: Gate, r: Route) {
    exists k :: k in g.states && k != Global && g.states[k].route == r
  }

  /** No deadline lingers. */
  ghost predicate NoneLingers(g: Gate) {
    forall k :: !Lingers(g, k)
  }

  /** With the aliases that requests restore: for a gate with no probe held, no
      lingering deadline and at most one record for each route, the only routes
      that a restart lets through early are those of a shut bucket whose record
      names another route. */
  lemma OnlyUnnamedRoutesAreForgotten(g: Gate, a: map<Route, Key>, b: map<Route, Key>, task: Task, req: Request)
    requires Inv(g) && Synced(g) && g.up && g.lock.Free? && g.probes == map[] && NoneLingers(g) && UniqueNames(g.states)
    requires Restores(g.states, g.aliases, a) && Restores(Restarted(g).states, map[], b)
    ensures (Passes(g.(aliases := a), task, req) <==> Passes(Restarted(g).(aliases := b), task, req))
            <==> !(&& !Named(g, req.route) && req.route in g.aliases && g.aliases[req.route] != Global
                   && Shut(g, g.aliases[req.route]) && !Shut(g, Global) && !Reserved(g, req.me, Global))
  {
    var r := req.route;
    var before, after := Keys(a, req)[1], Keys(b, req)[1];
    RebuiltGateAdmitsTheSameExactly(g, a, b, task, req);
    forall k ensures k in g.states <==> k in Restarted(g).states
             ensures k in g.states ==> Restarted(g).states[k].route == g.states[k].route
    {
      RebuiltDeadlines(g, k);
    }
    hide Inv, Restarted;
    if k :| k in g.states && k != Global && g.states[k].route == r {
      assert k in Restarted(g).states;
      assert before == k && after == k;
    } else {
      assert after == Plain(r) && after !in g.states;
    }
  }

  // ---- what a restart does lose ----------------------------------------------------

  /** After a crash at any point, a scope is still closed exactly if the disk,
      with the interrupted call if that landed, has a deadline ahead. */
  lemma CrashKeepsClosedExactly(g: Gate, k: Key, landed: bool)
    ensures var disk := if landed then Landed(g) else g.disk;
            var b := Boot(Next(g, Crash(landed)).value);
            (k in b.states && Remaining(b.states[k], g.clock) > 0.0) <==> (k in disk && disk[k].utc > g.clock)
  {
  }

  const NEW := Gate(false, 0.0, map[], map[], map[], Free, map[])
  const BUCKET := Bucket(9)

  function Restricted(): Gate {
    var c := Cool(100.0, 100.0, 1, 1);
    Gate(true, 0.0, map[BUCKET := c], map[1 := BUCKET], map[], Saving(BUCKET, AsRow(c), 0, []), map[])
  }

  /** A first start and a 429 that names a hundred seconds. */
  function Restricting(rest: seq<Action>): seq<Action> {
    [Start] + ([Reject(1, BUCKET, 0.0, Some(100.0))] + rest)
  }

  lemma RestrictedReached(rest: seq<Action>)
    ensures After(NEW, Restricting(rest)) == After(Restricted(), rest)
  {
    var g1 := NEW.(up := true);
    Then(NEW, Start, g1, [Reject(1, BUCKET, 0.0, Some(100.0))] + rest);
    Then(g1, Reject(1, BUCKET, 0.0, Some(100.0)), Restricted(), rest);
  }

  /** The process stops and starts again. */
  lemma Reboots(g: Gate)
    ensures var acts := [Crash(false)] + ([Start] + []);
            After(g, acts) == Some(Boot(Next(g, Crash(false)).value))
  {
    var g1 := Next(g, Crash(false)).value;
    Then(g, Crash(false), g1, [Start] + []);
    Then(g1, Start, Boot(g1), []);
  }

  lemma EmptyGatePasses(aliases: map<Route, Key>, req: Request)
    ensures Passes(NEW.(up := true, aliases := aliases), 0, req)
  {
    var g := NEW.(up := true, aliases := aliases);
    PassesExactly(g, 0, req);
  }

  /** A run from a first start: the save of the restriction fails and the
      process restarts. Until then the request is deferred, afterwards it passes,
      although of the hundred seconds none is over. */
  lemma LostSaveOpensEarly()
    ensures var before := After(NEW, Restricting([StoreLost(false)] + []));
            before.Some? && before.value.lock.Free? && !Passes(before.value, 0, Request(1, false))
    ensures var after := After(NEW, Restricting([StoreLost(false)] + ([Crash(false)] + ([Start] + []))));
            after.Some? && after.value.clock == 0.0 && Passes(after.value.(aliases := map[1 := BUCKET]), 0, Request(1, false))
  {
    var g := Restricted().(lock := Free);
    RestrictedReached([StoreLost(false)] + []);
    Then(Restricted(), StoreLost(false), g, []);
    WalkStopsAt(g, map[], 0, false, [Global, BUCKET], BUCKET);
    RestrictedReached([StoreLost(false)] + ([Crash(false)] + ([Start] + [])));
    Then(Restricted(), StoreLost(false), g, [Crash(false)] + ([Start] + []));
    Reboots(g);
    EmptyGatePasses(map[1 := BUCKET], Request(1, false));
  }

  /** A second route of the bucket is not named by its record: in a run from a
      first start, with the save landed, it is deferred, and after a restart it
      passes. */
  lemma SharedBucketIsForgotten()
    ensures var before := After(NEW, Restricting([Stored] + ([Alias(2, BUCKET)] + [])));
            before.Some? && before.value.lock.Free? && !Passes(before.value, 0, Request(2, false))
    ensures var after := After(NEW, Restricting([Stored] + ([Alias(2, BUCKET)] + ([Crash(false)] + ([Start] + [])))));
            && after.Some? && after.value.clock == 0.0
            && Passes(after.value.(aliases := map[1 := BUCKET]), 0, Request(2, false))
            && Restores(after.value.states, after.value.aliases, map[1 := BUCKET])
  {
    var r := Restricted();
    var g0 := r.(disk := map[BUCKET := AsRow(r.states[BUCKET])], lock := Free);
    var g := g0.(aliases := map[1 := BUCKET, 2 := BUCKET]);
    var reboot := [Crash(false)] + ([Start] + []);
    assert Next(r, Stored) == Some(g0) && Next(g0, Alias(2, BUCKET)) == Some(g);
    Reboots(g);
    hide Next;
    RestrictedReached([Stored] + ([Alias(2, BUCKET)] + []));
    Then(r, Stored, g0, [Alias(2, BUCKET)] + []);
    Then(g0, Alias(2, BUCKET), g, []);
    RestrictedReached([Stored] + ([Alias(2, BUCKET)] + reboot));
    Then(r, Stored, g0, [Alias(2, BUCKET)] + reboot);
    Then(g0, Alias(2, BUCKET), g, reboot);
    SecondRoute(g);
  }

  lemma SecondRoute(g: Gate)
    requires g == Restricted().(disk := map[BUCKET := AsRow(Restricted().states[BUCKET])], lock := Free,
                                aliases := map[1 := BUCKET, 2 := BUCKET])
    ensures !Passes(g, 0, Request(2, false))
    ensures var b := Boot(Next(g, Crash(false)).value);
            && b.clock == 0.0 && Passes(b.(aliases := map[1 := BUCKET]), 0, Request(2, false))
            && Restores(b.states, b.aliases, map[1 := BUCKET])
  {
    var b := Boot(Next(g, Crash(false)).value);
    assert Keys(g.aliases, Request(2, false)) == [Global, BUCKET];
    WalkStopsAt(g, map[], 0, false, [Global, BUCKET], BUCKET);
    assert Walk(b.states, map[], 0, false, [Global, Plain(2)], 0.0).deferral.None? by {
      assert [Global, Plain(2)][1..] == [Plain(2)];
      assert [Plain(2)][1..] == [];
    }
  }
}
