/** The REST admission gate (services/api_recovery.py) over one clock. Its lock
    is held across a storage call, so each await inside it is a step of its
    own; every lost call and every crash is an action. */
module ApiGate {
  import opened Common

  type Task = nat
  type Route = nat

  /** A scope: the whole API, a bucket, or a route no bucket is known for. */
  datatype Key = Global | Bucket(id: nat) | Plain(route: Route)

  /** `me` marks GET /users/@me, the only request that may probe globally. */
  datatype Request = Request(route: Route, me: bool)

  /** A restriction in memory, and its row on disk. */
  datatype Cool = Cool(utc: real, mono: real, attempt: nat, route: Route)
  datatype Row = Row(utc: real, attempt: nat, route: Route)

  /** What the holder of the lock is waiting for, and the keys it still has. */
  datatype Lock =
    | Free
    | Saving(k: Key, row: Row, task: Task, rest: seq<Key>)
    | Deleting(k: Key, task: Task, rest: seq<Key>)

  datatype Gate = Gate(up: bool, clock: real, states: map<Key, Cool>, aliases: map<Route, Key>,
                       probes: map<Key, Task>, lock: Lock, disk: map<Key, Row>)

  function Keys(aliases: map<Route, Key>, req: Request): (keys: seq<Key>)
    ensures |keys| == 2
  {
    [Global, if req.route in aliases then aliases[req.route] else Plain(req.route)]
  }

  function Remaining(c: Cool, now: real): real {
    Max(0.0, c.mono - now)
  }

  /** The probes after walking the keys, and the deferral if there was one. */
  datatype Verdict = Verdict(probes: map<Key, Task>, deferral: Option<real>)

  function Walk(states: map<Key, Cool>, probes: map<Key, Task>, task: Task, me: bool, keys: seq<Key>, now: real): Verdict
    decreases |keys|
  {
    if keys == [] then Verdict(probes, None)
    else
      var k := keys[0];
      if k !in states then Walk(states, probes, task, me, keys[1..], now)
      else if Remaining(states[k], now) > 0.0 then Verdict(probes, Some(Remaining(states[k], now)))
      else if k in probes && probes[k] != task then Verdict(probes, Some(1.0))
      else if k == Global && !me then Verdict(probes, Some(1.0))
      else Walk(states, probes[k := task], task, me, keys[1..], now)
  }

  /** Backoff of the n-th rejection when Discord names no usable delay. */
  function LocalBackoff(attempt: nat): (d: real)
    requires attempt >= 1
    ensures 60.0 <= d <= 900.0
    ensures attempt == 1 ==> d == 60.0
    ensures attempt >= 5 ==> d == 900.0
    ensures 1 < attempt < 5 ==> d == 2.0 * LocalBackoff(attempt - 1)
    decreases attempt
  {
    if attempt == 1 then 60.0 else Min(2.0 * LocalBackoff(attempt - 1), 900.0)
  }

  function AsRow(c: Cool): Row {
    Row(c.utc, c.attempt, c.route)
  }

  /** save_api_cooldown never moves a deadline backwards. */
  function Saved(disk: map<Key, Row>, k: Key, row: Row): map<Key, Row> {
    disk[k := if k in disk then row.(utc := Max(disk[k].utc, row.utc)) else row]
  }

  /** The number of the next rejection of scope k. */
  function NextAttempt(g: Gate, k: Key): nat {
    if k in g.states then g.states[k].attempt + 1 else 1
  }

  /** The delay of a 429: the one it names, else the local backoff. */
  function Delay(g: Gate, k: Key, delay: Option<real>): real {
    if delay.Some? then delay.value else LocalBackoff(NextAttempt(g, k))
  }

  /** The memory side of a 429 on scope k seen at `seen`; the save is next. */
  function Rejected(g: Gate, route: Route, k: Key, seen: real, delay: Option<real>): Gate {
    var attempt := NextAttempt(g, k);
    var utc := Max(if k in g.states then g.states[k].utc else 0.0, seen + Delay(g, k, delay));
    var c := Cool(utc, g.clock + Max(0.0, utc - seen), attempt, route);
    g.(states := g.states[k := c], aliases := g.aliases[route := k], probes := g.probes - {k},
       lock := Saving(k, AsRow(c), 0, []))
  }

  /** A probe that ends without an answer backs off and is saved. */
  function Releasing(g: Gate, task: Task, keys: seq<Key>): Gate
    decreases |keys|
  {
    if keys == [] then g.(lock := Free)
    else
      var k := keys[0];
      if k !in g.probes || g.probes[k] != task then Releasing(g, task, keys[1..])
      else if k !in g.states then Releasing(g.(probes := g.probes - {k}), task, keys[1..])
      else
        var utc := Max(g.states[k].utc, g.clock + 60.0);
        var c := g.states[k].(utc := utc, mono := g.clock + Max(0.0, utc - g.clock));
        g.(states := g.states[k := c], probes := g.probes - {k}, lock := Saving(k, AsRow(c), task, keys[1..]))
  }

  /** A 2xx clears only the scopes this very task is probing. */
  function Clearing(g: Gate, task: Task, keys: seq<Key>): Gate
    decreases |keys|
  {
    if keys == [] then g.(lock := Free)
    else if keys[0] in g.probes && g.probes[keys[0]] == task then g.(lock := Deleting(keys[0], task, keys[1..]))
    else Clearing(g, task, keys[1..])
  }

  function Boot(g: Gate): Gate {
    g.(up := true, aliases := map[], probes := map[], lock := Free,
       states := map k | k in g.disk ::
         Cool(g.disk[k].utc, g.clock + Max(0.0, g.disk[k].utc - g.clock), g.disk[k].attempt, g.disk[k].route))
  }

  datatype Action =
    | Tick(dt: real)
    | Alias(route: Route, k: Key)
    | Admit(task: Task, req: Request)
    | Reject(route: Route, k: Key, seen: real, delay: Option<real>)
    | Release(task: Task, req: Request)
    | Success(task: Task, req: Request)
    | Stored                    // the awaited storage call returned
    | StoreLost(landed: bool)   // it raised or was cancelled; it may have landed
    | Crash(landed: bool)
    | Start

  /** The disk once the awaited call has landed. */
  function Landed(g: Gate): map<Key, Row> {
    match g.lock
    case Free => g.disk
    case Saving(k, row, _, _) => Saved(g.disk, k, row)
    case Deleting(k, _, _) => g.disk - {k}
  }

  function Next(g: Gate, a: Action): Option<Gate> {
    match a
    case Tick(dt) => if dt >= 0.0 then Some(g.(clock := g.clock + dt)) else None
    case Alias(route, k) => if g.up then Some(g.(aliases := g.aliases[route := k])) else None
    case Admit(task, req) =>
      if g.up && g.lock.Free?
      then Some(g.(probes := Walk(g.states, g.probes, task, req.me, Keys(g.aliases, req), g.clock).probes))
      else None
    case Reject(route, k, seen, delay) =>
      if g.up && g.lock.Free? && !k.Plain? && seen <= g.clock && (delay.Some? ==> delay.value > 0.0)
      then Some(Rejected(g, route, k, seen, delay)) else None
    case Release(task, req) =>
      if g.up && g.lock.Free? then Some(Releasing(g, task, Keys(g.aliases, req))) else None
    case Success(task, req) =>
      if g.up && g.lock.Free? then Some(Clearing(g, task, Keys(g.aliases, req))) else None
    case Stored =>
      if !g.up then None
      else
        (match g.lock
         case Free => None
         case Saving(_, _, task, rest) => Some(Releasing(g.(disk := Landed(g)), task, rest))
         case Deleting(k, task, rest) =>
           Some(Clearing(g.(disk := Landed(g), states := g.states - {k}, probes := g.probes - {k}), task, rest)))
    case StoreLost(landed) =>
      if !g.up || g.lock.Free? then None
      else Some(g.(lock := Free, disk := if landed then Landed(g) else g.disk))
    case Crash(landed) =>
      Some(g.(up := false, states := map[], aliases := map[], probes := map[], lock := Free,
              disk := if landed then Landed(g) else g.disk))
    case Start => if g.up then None else Some(Boot(g))
  }

  /** The request of this action gets through. */
  predicate Passes(g: Gate, task: Task, req: Request) {
    && g.up && g.lock.Free?
    && Walk(g.states, g.probes, task, req.me, Keys(g.aliases, req), g.clock).deferral.None?
  }

  function After(g: Gate, acts: seq<Action>): Option<Gate>
    decreases |acts|
  {
    if acts == [] then Some(g)
    else
      var g' := Next(g, acts[0]);
      if g'.None? then None else After(g'.value, acts[1..])
  }

  lemma {:induction false} Then(g: Gate, a: Action, g': Gate, rest: seq<Action>)
    requires Next(g, a) == Some(g')
    ensures After(g, [a] + rest) == After(g', rest)
  {
    assert ([a] + rest)[1..] == rest;
  }

  predicate Fresh(g: Gate) {
    !g.up && g.states == map[] && g.aliases == map[] && g.probes == map[] && g.lock == Free && g.disk == map[]
  }

  // ---- the invariant ---------------------------------------------------------

  /** A held probe means a restriction whose deadline has passed; the lock's
      holder is about to write what memory says; disk never exceeds memory. */
  ghost predicate Inv(g: Gate) {
    && (forall k | k in g.states :: g.states[k].utc <= g.states[k].mono)
    && (forall k | k in g.probes :: k in g.states && g.states[k].mono <= g.clock)
    && (g.up ==> forall k | k in g.disk :: k in g.states && g.disk[k].utc <= g.states[k].utc)
    && (g.lock.Saving? ==> g.lock.k in g.states && g.lock.row == AsRow(g.states[g.lock.k]))
    && (g.lock.Deleting? ==> g.lock.k in g.probes)
    && (!g.up ==> g.lock.Free? && g.states == map[] && g.probes == map[])
  }

  lemma {:induction false} WalkKeeps(g: Gate, probes: map<Key, Task>, task: Task, me: bool, keys: seq<Key>)
    requires forall k | k in probes :: k in g.states && g.states[k].mono <= g.clock
    ensures var v := Walk(g.states, probes, task, me, keys, g.clock);
            forall k | k in v.probes :: k in g.states && g.states[k].mono <= g.clock
    decreases |keys|
  {
    if keys != [] {
      var k := keys[0];
      if k !in g.states {
        WalkKeeps(g, probes, task, me, keys[1..]);
      } else if g.states[k].mono <= g.clock {
        WalkKeeps(g, probes[k := task], task, me, keys[1..]);
      }
    }
  }

  lemma {:induction false} ReleasingKeeps(g: Gate, task: Task, keys: seq<Key>)
    requires Inv(g.(lock := Free)) && g.up
    ensures Inv(Releasing(g, task, keys))
    decreases |keys|
  {
    if keys != [] {
      var k := keys[0];
      if k !in g.probes || g.probes[k] != task {
        ReleasingKeeps(g, task, keys[1..]);
      }
    }
  }

  lemma {:induction false} ClearingKeeps(g: Gate, task: Task, keys: seq<Key>)
    requires Inv(g.(lock := Free)) && g.up
    ensures Inv(Clearing(g, task, keys))
    decreases |keys|
  {
    if keys != [] {
      ClearingKeeps(g, task, keys[1..]);
    }
  }

  lemma StoredKeepsInv(g: Gate)
    requires Inv(g) && Next(g, Stored).Some?
    ensures Inv(Next(g, Stored).value)
  {
    if g.lock.Saving? {
      ReleasingKeeps(g.(disk := Landed(g)), g.lock.task, g.lock.rest);
    } else {
      var k := g.lock.k;
      ClearingKeeps(g.(disk := Landed(g), states := g.states - {k}, probes := g.probes - {k}), g.lock.task, g.lock.rest);
    }
  }

  lemma StepKeepsInv(g: Gate, a: Action)
    requires Inv(g) && Next(g, a).Some?
    ensures Inv(Next(g, a).value)
  {
    match a
    case Admit(task, req) => WalkKeeps(g, g.probes, task, req.me, Keys(g.aliases, req));
    case Release(task, req) => ReleasingKeeps(g, task, Keys(g.aliases, req));
    case Success(task, req) => ClearingKeeps(g, task, Keys(g.aliases, req));
    case Stored => StoredKeepsInv(g);
    case _ =>
  }

  lemma {:induction false} InvAlways(g: Gate, acts: seq<Action>)
    requires Inv(g) && After(g, acts).Some?
    ensures Inv(After(g, acts).value)
    decreases |acts|
  {
    hide Inv, Next;
    if acts != [] {
      StepKeepsInv(g, acts[0]);
      InvAlways(Next(g, acts[0]).value, acts[1..]);
    }
  }

  /** In every run, a task that may clear a scope holds an expired one. */
  lemma HeldProbeIsExpired(g: Gate, acts: seq<Action>, k: Key)
    requires Fresh(g) && After(g, acts).Some? && k in After(g, acts).value.probes
    ensures var e := After(g, acts).value; k in e.states && e.states[k].mono <= e.clock
  {
    InvAlways(g, acts);
  }

  // ---- never early -------------------------------------------------------------

  /** Scope k is owed silence until `until`. */
  ghost predicate Owes(g: Gate, k: Key, until: real) {
    until <= g.clock || (k in g.states && g.states[k].utc >= until)
  }

  lemma {:induction false} ReleasingOwes(g: Gate, task: Task, keys: seq<Key>, k: Key, until: real)
    requires Owes(g, k, until)
    ensures Owes(Releasing(g, task, keys), k, until)
    decreases |keys|
  {
    if keys != [] {
      var p := keys[0];
      if p !in g.probes || g.probes[p] != task {
        ReleasingOwes(g, task, keys[1..], k, until);
      } else if p !in g.states {
        ReleasingOwes(g.(probes := g.probes - {p}), task, keys[1..], k, until);
      }
    }
  }

  lemma {:induction false} ClearingChangesTheLock(g: Gate, task: Task, keys: seq<Key>)
    ensures Clearing(g, task, keys) == g.(lock := Clearing(g, task, keys).lock)
    decreases |keys|
  {
    if keys != [] {
      ClearingChangesTheLock(g, task, keys[1..]);
    }
  }

  lemma StepKeepsOwed(g: Gate, a: Action, k: Key, until: real)
    requires Inv(g) && Next(g, a).Some? && !a.Crash? && Owes(g, k, until) && g.up
    ensures Owes(Next(g, a).value, k, until) && Next(g, a).value.up
  {
    match a
    case Release(task, req) =>
      ReleasingOwes(g, task, Keys(g.aliases, req), k, until);
      ReleasingStaysUp(g, task, Keys(g.aliases, req));
    case Success(task, req) => ClearingChangesTheLock(g, task, Keys(g.aliases, req));
    case Stored =>
      if g.lock.Saving? {
        ReleasingOwes(g.(disk := Landed(g)), g.lock.task, g.lock.rest, k, until);
        ReleasingStaysUp(g.(disk := Landed(g)), g.lock.task, g.lock.rest);
      } else {
        var p := g.lock.k;
        ClearingChangesTheLock(g.(disk := Landed(g), states := g.states - {p}, probes := g.probes - {p}),
                               g.lock.task, g.lock.rest);
      }
    case _ =>
  }

  lemma {:induction false} ReleasingStaysUp(g: Gate, task: Task, keys: seq<Key>)
    ensures var e := Releasing(g, task, keys); e.up == g.up && e.clock == g.clock && e.disk == g.disk
    decreases |keys|
  {
    if keys != [] {
      var p := keys[0];
      if p !in g.probes || g.probes[p] != task {
        ReleasingStaysUp(g, task, keys[1..]);
      } else if p !in g.states {
        ReleasingStaysUp(g.(probes := g.probes - {p}), task, keys[1..]);
      }
    }
  }

  predicate NoCrash(acts: seq<Action>) {
    forall i | 0 <= i < |acts| :: !acts[i].Crash?
  }

  lemma {:induction false} OwedStays(g: Gate, acts: seq<Action>, k: Key, until: real)
    requires Inv(g) && g.up && After(g, acts).Some? && NoCrash(acts) && Owes(g, k, until)
    ensures Owes(After(g, acts).value, k, until) && Inv(After(g, acts).value)
    decreases |acts|
  {
    hide Inv, Next, Owes;
    if acts != [] {
      StepKeepsInv(g, acts[0]);
      StepKeepsOwed(g, acts[0], k, until);
      OwedStays(Next(g, acts[0]).value, acts[1..], k, until);
    }
  }

  lemma {:induction false} WalkStopsAt(g: Gate, probes: map<Key, Task>, task: Task, me: bool, keys: seq<Key>, k: Key)
    requires k in keys && k in g.states && g.states[k].mono > g.clock
    ensures Walk(g.states, probes, task, me, keys, g.clock).deferral.Some?
    decreases |keys|
  {
    if keys[0] != k {
      if keys[0] in g.states {
        WalkStopsAt(g, probes[keys[0] := task], task, me, keys[1..], k);
      }
      WalkStopsAt(g, probes, task, me, keys[1..], k);
    }
  }

  lemma PassingMeansPaid(g: Gate, task: Task, req: Request, k: Key, until: real)
    requires Inv(g) && Owes(g, k, until) && Passes(g, task, req) && k in Keys(g.aliases, req)
    ensures g.clock >= until
  {
    if g.clock < until {
      WalkStopsAt(g, g.probes, task, req.me, Keys(g.aliases, req), k);
    }
  }

  /** Once a 429 of scope k is seen at time t, no request mapped to k passes
      before t + d while the process lives, d being the delay it names or, if it
      names none, the backoff of the n-th rejection: whatever late successes,
      further 429s, abandoned probes and failed saves come in between. */
  lemma NeverOpensEarly(g: Gate, before: seq<Action>, route: Route, k: Key, seen: real, delay: Option<real>,
                        after: seq<Action>, task: Task, req: Request)
    requires Fresh(g) && After(g, before).Some?
    requires Next(After(g, before).value, Reject(route, k, seen, delay)).Some?
    requires var h := Next(After(g, before).value, Reject(route, k, seen, delay)).value;
             && After(h, after).Some? && NoCrash(after)
             && Passes(After(h, after).value, task, req)
             && k in Keys(After(h, after).value.aliases, req)
    ensures var e := After(g, before).value;
            var n := if k in e.states then e.states[k].attempt + 1 else 1;
            var d := if delay.Some? then delay.value else LocalBackoff(n);
            After(Next(e, Reject(route, k, seen, delay)).value, after).value.clock >= seen + d
  {
    InvAlways(g, before);
    var e := After(g, before).value;
    var until := seen + Delay(e, k, delay);
    StepKeepsInv(e, Reject(route, k, seen, delay));
    var h := Next(e, Reject(route, k, seen, delay)).value;
    assert Owes(h, k, until) && h.up;
    hide Inv, Next, Owes, Passes;
    OwedStays(h, after, k, until);
    PassingMeansPaid(After(h, after).value, task, req, k, until);
  }

  /** While a task holds the probe of a scope, nobody else passes it. */
  lemma SingleProbe(g: Gate, acts: seq<Action>, k: Key, task: Task, req: Request)
    requires Fresh(g) && After(g, acts).Some?
    requires var e := After(g, acts).value;
             k in e.probes && k in Keys(e.aliases, req) && Passes(e, task, req)
    ensures After(g, acts).value.probes[k] == task
  {
    InvAlways(g, acts);
    var e := After(g, acts).value;
    if e.probes[k] != task {
      WalkStopsAtProbe(e, e.probes, task, req.me, Keys(e.aliases, req), k);
    }
  }

  lemma {:induction false} WalkStopsAtProbe(g: Gate, probes: map<Key, Task>, task: Task, me: bool, keys: seq<Key>, k: Key)
    requires k in keys && k in g.states && k in probes && probes[k] != task
    ensures Walk(g.states, probes, task, me, keys, g.clock).deferral.Some?
    decreases |keys|
  {
    if keys[0] != k {
      if keys[0] in g.states {
        WalkStopsAtProbe(g, probes[keys[0] := task], task, me, keys[1..], k);
      }
      WalkStopsAtProbe(g, probes, task, me, keys[1..], k);
    }
  }

  /** While the API is restricted globally, only the identity probe passes. */
  lemma OnlyTheProbePassesGlobally(g: Gate, task: Task, req: Request)
    requires Global in g.states && Passes(g, task, req)
    ensures req.me && g.states[Global].mono <= g.clock
  {
    assert Keys(g.aliases, req)[0] == Global;
  }

  // ---- across restarts -----------------------------------------------------------

  /** The debt is on disk as well, so a restart does not forget it. */
  ghost predicate Durable(g: Gate, k: Key, until: real) {
    until <= g.clock || (k in g.disk && g.disk[k].utc >= until)
  }

  lemma DurableIsOwed(g: Gate, k: Key, until: real)
    requires Inv(g) && g.up && Durable(g, k, until)
    ensures Owes(g, k, until)
  {
  }

  lemma StepKeepsDurable(g: Gate, a: Action, k: Key, until: real)
    requires Inv(g) && Next(g, a).Some? && Durable(g, k, until)
    ensures Durable(Next(g, a).value, k, until)
  {
    match a
    case Release(task, req) => ReleasingStaysUp(g, task, Keys(g.aliases, req));
    case Success(task, req) => ClearingChangesTheLock(g, task, Keys(g.aliases, req));
    case Stored =>
      if g.lock.Saving? {
        ReleasingStaysUp(g.(disk := Landed(g)), g.lock.task, g.lock.rest);
      } else {
        var p := g.lock.k;
        ClearingChangesTheLock(g.(disk := Landed(g), states := g.states - {p}, probes := g.probes - {p}),
                               g.lock.task, g.lock.rest);
      }
    case _ =>
  }

  lemma {:induction false} DurableStays(g: Gate, acts: seq<Action>, k: Key, until: real)
    requires Inv(g) && After(g, acts).Some? && Durable(g, k, until)
    ensures Durable(After(g, acts).value, k, until) && Inv(After(g, acts).value)
    decreases |acts|
  {
    hide Inv, Next, Durable;
    if acts != [] {
      StepKeepsInv(g, acts[0]);
      StepKeepsDurable(g, acts[0], k, until);
      DurableStays(Next(g, acts[0]).value, acts[1..], k, until);
    }
  }

  /** Once the save of a restriction has landed, no request mapped to its scope
      passes before its deadline, over any number of crashes and restarts. */
  lemma NeverOpensEarlyAfterSave(g: Gate, before: seq<Action>, after: seq<Action>, task: Task, req: Request)
    requires Fresh(g) && After(g, before).Some? && After(g, before).value.lock.Saving?
    requires Next(After(g, before).value, Stored).Some?
    requires var h := Next(After(g, before).value, Stored).value;
             && After(h, after).Some? && Passes(After(h, after).value, task, req)
             && After(g, before).value.lock.k in Keys(After(h, after).value.aliases, req)
    ensures var h := Next(After(g, before).value, Stored).value;
            After(h, after).value.clock >= After(g, before).value.lock.row.utc
  {
    InvAlways(g, before);
    var e := After(g, before).value;
    var k, until := e.lock.k, e.lock.row.utc;
    StepKeepsInv(e, Stored);
    ReleasingStaysUp(e.(disk := Landed(e)), e.lock.task, e.lock.rest);
    var h := Next(e, Stored).value;
    assert Durable(h, k, until);
    DurableStays(h, after, k, until);
    DurableIsOwed(After(h, after).value, k, until);
    PassingMeansPaid(After(h, after).value, task, req, k, until);
  }
}
