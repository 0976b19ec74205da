/** The gate as an object: each method is one pass through its lock, storage
    calls included, and does what the steps of the gate do
    (services/api_recovery.py, storage.py). */
module ApiRecovery {
  import opened Common
  import opened ApiGate

  // ---- what a 429 says ---------------------------------------------------------

  /** A Retry-After header: seconds, a date as a timestamp if it has a zone,
      a number that is not finite, or anything else. */
  datatype Header = Seconds(value: real) | Date(at: Option<real>) | NotFinite | Garbage

  /** The body's retry_after. */
  datatype Field = Number(n: real) | Flag | Unusable

  datatype RateScope = User | Shared | OtherScope

  datatype Reply = Reply(scope: RateScope, hasBody: bool, bodyGlobal: bool, headerGlobal: bool, via: bool,
                         bucket: Option<nat>, retryAfter: Option<Header>, field: Field)

  function HeaderDelay(h: Option<Header>, now: real): real {
    match h
    case Some(Seconds(value)) => value
    case Some(Date(Some(at))) => at - now
    case _ => 0.0
  }

  /** The delay of a reply: always positive, from the header if that gives one,
      else from the body, else none. */
  function RetryDelay(r: Reply, now: real): (d: Option<real>)
    ensures d.Some? ==> d.value > 0.0
    ensures d.Some? <==> HeaderDelay(r.retryAfter, now) > 0.0 || (r.hasBody && r.field.Number? && r.field.n > 0.0)
    ensures HeaderDelay(r.retryAfter, now) > 0.0 ==> d == Some(HeaderDelay(r.retryAfter, now))
    ensures HeaderDelay(r.retryAfter, now) <= 0.0 && r.hasBody && r.field.Number? && r.field.n > 0.0 ==> d == Some(r.field.n)
  {
    var first := HeaderDelay(r.retryAfter, now);
    if first > 0.0 then Some(first)
    else if r.hasBody && r.field.Number? && r.field.n > 0.0 then Some(r.field.n)
    else None
  }

  /** Only a reply that bears every mark of a resource limit restricts a bucket;
      whatever else it is restricts the whole API. */
  function ScopeOf(r: Reply): (k: Key)
    ensures k == Global <==>
            r.scope == OtherScope || !r.hasBody || r.bodyGlobal || r.headerGlobal || !r.via || r.bucket.None?
    ensures k != Global ==> k == Bucket(r.bucket.value)
  {
    if r.scope != OtherScope && r.hasBody && !r.bodyGlobal && !r.headerGlobal && r.via && r.bucket.Some?
    then Bucket(r.bucket.value) else Global
  }

  // ---- one pass through the lock -------------------------------------------------

  /** How an awaited storage call ended, and the time afterwards. */
  datatype Outcome = Outcome(ok: bool, landed: bool, now: real)

  function Answer(g: Gate, o: Outcome): Gate {
    var g1 := g.(clock := Max(g.clock, o.now));
    var next := Next(g1, if o.ok then Stored else StoreLost(o.landed));
    if next.Some? then next.value else g1
  }

  /** The pass runs until the lock is free; it awaits at most two calls. */
  function Pass(g: Gate, outcomes: seq<Outcome>): Gate
    decreases |outcomes|
  {
    if g.lock.Free? || outcomes == [] then g else Pass(Answer(g, outcomes[0]), outcomes[1..])
  }

  /** A continued pass does not look at what the lock was held for. */
  lemma {:induction false} LockIsReplaced(g: Gate, task: Task, keys: seq<Key>)
    ensures Clearing(g, task, keys) == Clearing(g.(lock := Free), task, keys)
    ensures Releasing(g, task, keys) == Releasing(g.(lock := Free), task, keys)
    decreases |keys|
  {
    if keys != [] {
      LockIsReplaced(g, task, keys[1..]);
      LockIsReplaced(g.(probes := g.probes - {keys[0]}), task, keys[1..]);
    }
  }

  /** What a 429 of scope k leaves, without the steps it takes: memory is closed
      until the delay is over, never earlier than before, and the disk is if the
      save lands. */
  lemma {:induction false} RejectionCloses(g: Gate, route: Route, k: Key, seen: real, said: Option<real>, stored: Outcome)
    requires g.up && g.clock <= stored.now
    ensures var e := Pass(Rejected(g, route, k, seen, said), [stored]);
            var n := if k in g.states then g.states[k].attempt + 1 else 1;
            var until := seen + if said.Some? then said.value else LocalBackoff(n);
            var utc := Max(if k in g.states then g.states[k].utc else 0.0, until);
            && e.states == g.states[k := Cool(utc, g.clock + Max(0.0, utc - seen), n, route)]
            && e.aliases == g.aliases[route := k] && e.probes == g.probes - {k}
            && e.disk == (if stored.ok || stored.landed
                          then g.disk[k := Row(if k in g.disk && g.disk[k].utc > utc then g.disk[k].utc else utc, n, route)]
                          else g.disk)
  {
    var r := Rejected(g, route, k, seen, said);
    assert [stored][1..] == [];
    SaveAnswered(r, stored);
    assert Releasing(r.(lock := Free), 0, []) == r.(lock := Free);
  }

  /** What saving a row leaves on disk, once or never. */
  function SavedOr(disk: map<Key, Row>, k: Key, row: Row, o: Outcome): map<Key, Row> {
    if o.ok || o.landed then Saved(disk, k, row) else disk
  }

  /** One awaited save: it lands or not, and the pass goes on if it returned. */
  lemma {:induction false} SaveAnswered(g: Gate, o: Outcome)
    requires g.up && g.lock.Saving? && g.clock <= o.now
    ensures var g' := g.(clock := o.now, disk := SavedOr(g.disk, g.lock.k, g.lock.row, o));
            Answer(g, o) == if o.ok then Releasing(g', g.lock.task, g.lock.rest) else g'.(lock := Free)
  {
  }

  /** This scope is probed by `task`. */
  predicate Mine(probes: map<Key, Task>, task: Task, k: Key) {
    k in probes && probes[k] == task
  }

  /** The scopes a 2xx of the request takes from memory and from the disk: those
      its task probes, the global one first, up to the first failed delete, which
      may still have reached the disk. */
  ghost predicate Reopens(states: map<Key, Cool>, probes: map<Key, Task>, disk: map<Key, Row>,
                          states': map<Key, Cool>, probes': map<Key, Task>, disk': map<Key, Row>,
                          task: Task, own: Key, outcomes: seq<Outcome>)
    requires |outcomes| == 2
  {
    var first, second := Mine(probes, task, Global), own != Global && Mine(probes, task, own);
    var last := if first then outcomes[1] else outcomes[0];
    var reached := !first || outcomes[0].ok;
    var cleared: set<Key> := (if first && outcomes[0].ok then {Global} else {}) + (if second && reached && last.ok then {own} else {});
    var erased: set<Key> := (if first && (outcomes[0].ok || outcomes[0].landed) then {Global} else {})
                  + (if second && reached && (last.ok || last.landed) then {own} else {});
    states' == states - cleared && probes' == probes - cleared && disk' == disk - erased
  }

  /** What an unanswered probe of the request leaves: each scope its task probes
      is closed for sixty seconds from when its turn comes, in memory and, if the
      save lands, on disk, and is no longer probed; a failed save ends the pass. */
  ghost predicate Recloses(g: Gate, e: Gate, task: Task, own: Key, outcomes: seq<Outcome>)
    requires |outcomes| == 2
  {
    var first, second := Mine(g.probes, task, Global) && Global in g.states,
                         own != Global && Mine(g.probes, task, own) && own in g.states;
    var reached := !first || outcomes[0].ok;
    var turn := if first then outcomes[0].now else g.clock;
    var last := if first then outcomes[1] else outcomes[0];
    && e.states.Keys == g.states.Keys
    && (forall k | k in g.states ::
          e.states[k] == if k == Global && first then Closed(g.states[k], g.clock)
                         else if k == own && second && reached then Closed(g.states[k], turn) else g.states[k])
    && (first ==> Global !in e.probes) && (second && reached ==> own !in e.probes)
    && (forall k | k in g.probes && g.probes[k] != task :: k in e.probes && e.probes[k] == g.probes[k])
    && RecloseDisk(g, e, task, own, outcomes)
  }

  ghost predicate RecloseDisk(g: Gate, e: Gate, task: Task, own: Key, outcomes: seq<Outcome>)
    requires |outcomes| == 2
  {
    var first, second := Mine(g.probes, task, Global) && Global in g.states,
                         own != Global && Mine(g.probes, task, own) && own in g.states;
    var reached := !first || outcomes[0].ok;
    var turn := if first then outcomes[0].now else g.clock;
    var last := if first then outcomes[1] else outcomes[0];
    && (first && (outcomes[0].ok || outcomes[0].landed) ==> OnDisk(g.disk, e.disk, Global, Closed(g.states[Global], g.clock)))
    && (second && reached && (last.ok || last.landed) ==> OnDisk(g.disk, e.disk, own, Closed(g.states[own], turn)))
    && (forall k | k != Global && k != own :: (k in e.disk <==> k in g.disk) && (k in e.disk ==> e.disk[k] == g.disk[k]))
  }

  /** Sixty seconds from `now` on, or longer if it was. */
  function Closed(c: Cool, now: real): Cool {
    var utc := if c.utc > now + 60.0 then c.utc else now + 60.0;
    c.(utc := utc, mono := utc)
  }

  ghost predicate OnDisk(before: map<Key, Row>, after: map<Key, Row>, k: Key, c: Cool) {
    k in after && after[k].utc == (if k in before && before[k].utc > c.utc then before[k].utc else c.utc)
    && after[k].attempt == c.attempt
  }

  lemma {:induction false} DeleteAnswered(g: Gate, o: Outcome)
    requires g.up && g.lock.Deleting? && g.clock <= o.now
    ensures var k := g.lock.k;
            var g' := g.(clock := o.now, disk := if o.ok || o.landed then g.disk - {k} else g.disk);
            Answer(g, o) == if o.ok then Clearing(g'.(states := g.states - {k}, probes := g.probes - {k}), g.lock.task, g.lock.rest)
                            else g'.(lock := Free)
  {
  }

  /** The scope's delete was awaited: it is gone from memory if the call returned,
      and from the disk if it landed. */
  function Erased(g: Gate, k: Key, o: Outcome): Gate {
    var g1 := g.(clock := o.now, disk := if o.ok || o.landed then g.disk - {k} else g.disk);
    if o.ok then g1.(states := g.states - {k}, probes := g.probes - {k}) else g1
  }

  lemma {:induction false} ClearsOne(g: Gate, task: Task, k: Key, o: Outcome)
    requires g.up && g.lock.Free? && g.clock <= o.now
    ensures Pass(Clearing(g, task, [k]), [o]) == if Mine(g.probes, task, k) then Erased(g, k, o) else g
  {
    var c := Clearing(g, task, [k]);
    assert [k][1..] == [] && [o][1..] == [] && [k][0] == k;
    if Mine(g.probes, task, k) {
      DeleteAnswered(c, o);
      assert Clearing(Erased(g, k, o), task, []) == Erased(g, k, o);
    } else {
      assert Clearing(g, task, []) == g;
    }
  }

  /** The global scope is probed: its delete comes first. */
  lemma {:induction false} ClearsGlobalFirst(g: Gate, task: Task, own: Key, outcomes: seq<Outcome>)
    requires g.up && g.lock.Free? && |outcomes| == 2 && g.clock <= outcomes[0].now && Mine(g.probes, task, Global)
    ensures var e := Pass(Clearing(g, task, [Global, own]), outcomes);
            var g1 := g.(clock := outcomes[0].now, disk := g.disk - {Global}, states := g.states - {Global},
                         probes := g.probes - {Global});
            if outcomes[0].ok then e == Pass(Clearing(g1, task, [own]), [outcomes[1]])
            else e == g.(clock := outcomes[0].now, disk := if outcomes[0].landed then g.disk - {Global} else g.disk)
  {
    var c := Clearing(g, task, [Global, own]);
    var g1 := g.(clock := outcomes[0].now, disk := g.disk - {Global}, states := g.states - {Global}, probes := g.probes - {Global});
    assert [Global, own][1..] == [own] && outcomes[1..] == [outcomes[1]];
    DeleteAnswered(c, outcomes[0]);
    LockIsReplaced(g1.(lock := c.lock), task, [own]);
    hide Answer, Clearing;
    assert Pass(c, outcomes) == Pass(Answer(c, outcomes[0]), [outcomes[1]]);
  }

  lemma {:induction false} ClearsOwnOnly(g: Gate, task: Task, own: Key, outcomes: seq<Outcome>)
    requires g.up && g.lock.Free? && |outcomes| == 2 && g.clock <= outcomes[0].now && !Mine(g.probes, task, Global)
    ensures Pass(Clearing(g, task, [Global, own]), outcomes) == Pass(Clearing(g, task, [own]), [outcomes[0]])
  {
    var c := Clearing(g, task, [own]);
    assert [Global, own][1..] == [own] && [own][1..] == [];
    assert [Global, own][0] == Global && Clearing(g, task, [Global, own]) == c;
    assert Clearing(g, task, []) == g && [own][0] == own;
    assert c == if Mine(g.probes, task, own) then g.(lock := Deleting(own, task, [])) else g;
    PassStops(c, outcomes);
  }

  ghost predicate ReopensTo(g: Gate, e: Gate, task: Task, own: Key, outcomes: seq<Outcome>)
    requires |outcomes| == 2
  {
    Reopens(g.states, g.probes, g.disk, e.states, e.probes, e.disk, task, own, outcomes)
  }

  lemma BothReopen(g: Gate, task: Task, own: Key, outcomes: seq<Outcome>)
    requires |outcomes| == 2 && Mine(g.probes, task, Global) && outcomes[0].ok
    ensures var g1 := Erased(g, Global, outcomes[0]);
            ReopensTo(g, if Mine(g1.probes, task, own) then Erased(g1, own, outcomes[1]) else g1, task, own, outcomes)
  {
    BothErased(g.states, own);
    BothErased(g.probes, own);
    BothErased(g.disk, own);
    MineWithout(g.probes, task, own);
    hide Mine;
  }

  lemma FirstReopens(g: Gate, task: Task, own: Key, outcomes: seq<Outcome>)
    requires |outcomes| == 2 && Mine(g.probes, task, Global) && !outcomes[0].ok
    ensures ReopensTo(g, Erased(g, Global, outcomes[0]), task, own, outcomes)
  {
    BothErased(g.states, own);
    BothErased(g.probes, own);
    BothErased(g.disk, own);
    hide Mine;
  }

  lemma OwnReopens(g: Gate, task: Task, own: Key, outcomes: seq<Outcome>)
    requires |outcomes| == 2 && !Mine(g.probes, task, Global)
    ensures ReopensTo(g, if Mine(g.probes, task, own) then Erased(g, own, outcomes[0]) else g, task, own, outcomes)
  {
    BothErased(g.states, own);
    BothErased(g.probes, own);
    BothErased(g.disk, own);
    hide Mine;
  }

  /** What a success does, without the steps it takes. */
  lemma {:induction false} SuccessReopens(g: Gate, task: Task, req: Request, outcomes: seq<Outcome>)
    requires g.up && g.lock.Free? && |outcomes| == 2 && g.clock <= outcomes[0].now <= outcomes[1].now
    ensures ReopensTo(g, Pass(Clearing(g, task, Keys(g.aliases, req)), outcomes), task, Keys(g.aliases, req)[1], outcomes)
  {
    var own := Keys(g.aliases, req)[1];
    assert Keys(g.aliases, req) == [Global, own];
    hide Pass, Clearing, ReopensTo;
    if Mine(g.probes, task, Global) {
      ClearsGlobalFirst(g, task, own, outcomes);
      if outcomes[0].ok {
        ClearsOne(Erased(g, Global, outcomes[0]), task, own, outcomes[1]);
        BothReopen(g, task, own, outcomes);
      } else {
        FirstReopens(g, task, own, outcomes);
      }
    } else {
      ClearsOwnOnly(g, task, own, outcomes);
      ClearsOne(g, task, own, outcomes[0]);
      OwnReopens(g, task, own, outcomes);
    }
  }

  lemma BothErased<V>(m: map<Key, V>, own: Key)
    ensures (m - {Global}) - {own} == m - ({Global} + {own})
    ensures m - ({} + {own}) == m - {own} && m - ({Global} + {}) == m - {Global} && m - ({} + {}) == m
  {
    assert {} + {own} == {own} && {Global} + {} == {Global};
  }

  lemma MineWithout(probes: map<Key, Task>, task: Task, own: Key)
    ensures Mine(probes - {Global}, task, own) <==> own != Global && Mine(probes, task, own)
  {
  }

  /** The probes of the known ones among the keys. */
  function Taken(states: map<Key, Cool>, keys: seq<Key>, task: Task): map<Key, Task> {
    map k | k in keys && k in states :: task
  }

  lemma TakenNext(states: map<Key, Cool>, probes: map<Key, Task>, keys: seq<Key>, task: Task)
    requires keys != []
    ensures var k, rest := keys[0], Taken(states, keys[1..], task);
            probes + Taken(states, keys, task) == if k in states then probes[k := task] + rest else probes + rest
  {
    assert forall j :: j in keys <==> j == keys[0] || j in keys[1..];
  }

  /** Passing the keys takes the probe of each that is known. */
  lemma {:induction false} WalkTakes(states: map<Key, Cool>, probes: map<Key, Task>, task: Task, me: bool, keys: seq<Key>, now: real)
    requires Walk(states, probes, task, me, keys, now).deferral.None?
    ensures Walk(states, probes, task, me, keys, now).probes == probes + Taken(states, keys, task)
    decreases |keys|
  {
    if keys == [] {
      assert Taken(states, keys, task) == map[] && probes + map[] == probes;
    } else {
      TakenNext(states, probes, keys, task);
      hide Taken;
      WalkTakes(states, if keys[0] in states then probes[keys[0] := task] else probes, task, me, keys[1..], now);
    }
  }

  /** A deferral names the wait of one of them, or a second. */
  lemma {:induction false} WalkNames(states: map<Key, Cool>, probes: map<Key, Task>, task: Task, me: bool, keys: seq<Key>, now: real)
    requires Walk(states, probes, task, me, keys, now).deferral.Some?
    ensures exists k :: k in keys && k in states
              && Walk(states, probes, task, me, keys, now).deferral.value == if states[k].mono > now then states[k].mono - now else 1.0
    decreases |keys|
  {
    var k := keys[0];
    var next := if k in states then probes[k := task] else probes;
    assert k in keys && forall j | j in keys[1..] :: j in keys;
    if Walk(states, probes, task, me, keys, now) == Walk(states, next, task, me, keys[1..], now) {
      WalkNames(states, next, task, me, keys[1..], now);
    }
  }

  /** Nothing is known of either scope: every task passes. */
  lemma {:induction false} OpenPasses(g: Gate, task: Task, req: Request)
    requires g.up && g.lock.Free? && Global !in g.states && Keys(g.aliases, req)[1] !in g.states
    ensures Passes(g, task, req)
  {
    var own := Keys(g.aliases, req)[1];
    assert Keys(g.aliases, req) == [Global, own] && [Global, own][1..] == [own] && [own][1..] == [];
    assert Walk(g.states, g.probes, task, req.me, [own], g.clock).deferral.None?;
  }

  /** A pass that awaits one call at most does not look at the second outcome. */
  lemma {:induction false} PassStops(g: Gate, outcomes: seq<Outcome>)
    requires |outcomes| == 2 && g.up && (g.lock.Deleting? ==> g.lock.rest == []) && !g.lock.Saving? && g.clock <= outcomes[0].now
    ensures Pass(g, outcomes) == Pass(g, [outcomes[0]])
  {
    assert [outcomes[0]][1..] == [];
    if g.lock.Deleting? {
      DeleteAnswered(g, outcomes[0]);
    }
  }
  /** The scope is closed, its probe is gone, its save lands or not. */
  function Backed(g: Gate, k: Key, o: Outcome): Gate
    requires k in g.states
  {
    var c := Closed(g.states[k], g.clock);
    g.(clock := o.now, states := g.states[k := c], probes := g.probes - {k}, disk := SavedOr(g.disk, k, AsRow(c), o))
  }

  lemma {:induction false} ReleasesOne(g: Gate, task: Task, k: Key, o: Outcome)
    requires g.up && g.lock.Free? && g.clock <= o.now
    ensures Pass(Releasing(g, task, [k]), [o])
            == if !Mine(g.probes, task, k) then g
               else if k in g.states then Backed(g, k, o) else g.(probes := g.probes - {k})
  {
    var r := Releasing(g, task, [k]);
    assert [k][1..] == [] && [o][1..] == [] && [k][0] == k;
    if Mine(g.probes, task, k) && k in g.states {
      SaveAnswered(r, o);
      assert Releasing(Backed(g, k, o), task, []) == Backed(g, k, o);
    } else {
      assert Releasing(g, task, []) == g && Releasing(g.(probes := g.probes - {k}), task, []) == g.(probes := g.probes - {k});
    }
  }

  lemma {:induction false} ReleasesGlobalFirst(g: Gate, task: Task, own: Key, outcomes: seq<Outcome>)
    requires g.up && g.lock.Free? && |outcomes| == 2 && g.clock <= outcomes[0].now && Mine(g.probes, task, Global) && Global in g.states
    ensures Pass(Releasing(g, task, [Global, own]), outcomes)
            == if outcomes[0].ok then Pass(Releasing(Backed(g, Global, outcomes[0]), task, [own]), [outcomes[1]])
               else Backed(g, Global, outcomes[0])
  {
    var r, g1 := Releasing(g, task, [Global, own]), Backed(g, Global, outcomes[0]);
    assert [Global, own][1..] == [own] && outcomes[1..] == [outcomes[1]] && [Global, own][0] == Global;
    SaveAnswered(r, outcomes[0]);
    LockIsReplaced(g1.(lock := r.lock), task, [own]);
    assert Answer(r, outcomes[0]) == if outcomes[0].ok then Releasing(g1, task, [own]) else g1;
    hide Answer, Releasing;
    assert Pass(r, outcomes) == Pass(Answer(r, outcomes[0]), [outcomes[1]]);
  }

  /** With no global probe of its own, at most one call is awaited. */
  lemma {:induction false} ReleasesOwnOnly(g: Gate, task: Task, own: Key, outcomes: seq<Outcome>)
    requires g.up && g.lock.Free? && |outcomes| == 2 && g.clock <= outcomes[0].now
    requires !Mine(g.probes, task, Global) || Global !in g.states
    ensures var g1 := if Mine(g.probes, task, Global) then g.(probes := g.probes - {Global}) else g;
            Pass(Releasing(g, task, [Global, own]), outcomes) == Pass(Releasing(g1, task, [own]), [outcomes[0]])
  {
    var g1 := if Mine(g.probes, task, Global) then g.(probes := g.probes - {Global}) else g;
    var r := Releasing(g1, task, [own]);
    assert [Global, own][1..] == [own] && [own][1..] == [] && [Global, own][0] == Global && [own][0] == own;
    assert Releasing(g, task, [Global, own]) == r && [outcomes[0]][1..] == [];
    ReleasingStaysUp(g1, task, [own]);
    if r.lock.Saving? {
      SaveAnswered(r, outcomes[0]);
    }
  }

  /** The state after the own scope's turn. */
  function OwnTurn(g: Gate, task: Task, own: Key, o: Outcome): Gate {
    if !Mine(g.probes, task, own) then g
    else if own in g.states then Backed(g, own, o) else g.(probes := g.probes - {own})
  }

  lemma BothReclosedDisk(g: Gate, task: Task, own: Key, outcomes: seq<Outcome>)
    requires |outcomes| == 2 && g.clock <= outcomes[0].now && Mine(g.probes, task, Global) && Global in g.states && outcomes[0].ok
    ensures RecloseDisk(g, OwnTurn(Backed(g, Global, outcomes[0]), task, own, outcomes[1]), task, own, outcomes)
  {
    hide Closed;
  }

  lemma BothReclosed(g: Gate, task: Task, own: Key, outcomes: seq<Outcome>)
    requires |outcomes| == 2 && g.clock <= outcomes[0].now && Mine(g.probes, task, Global) && Global in g.states && outcomes[0].ok
    ensures Recloses(g, OwnTurn(Backed(g, Global, outcomes[0]), task, own, outcomes[1]), task, own, outcomes)
  {
    BothReclosedDisk(g, task, own, outcomes);
    hide Closed, RecloseDisk, SavedOr;
  }

  lemma FirstReclosedDisk(g: Gate, task: Task, own: Key, outcomes: seq<Outcome>)
    requires |outcomes| == 2 && Mine(g.probes, task, Global) && Global in g.states && !outcomes[0].ok
    ensures RecloseDisk(g, Backed(g, Global, outcomes[0]), task, own, outcomes)
  {
    hide Closed;
  }

  lemma FirstReclosed(g: Gate, task: Task, own: Key, outcomes: seq<Outcome>)
    requires |outcomes| == 2 && Mine(g.probes, task, Global) && Global in g.states && !outcomes[0].ok
    ensures Recloses(g, Backed(g, Global, outcomes[0]), task, own, outcomes)
  {
    FirstReclosedDisk(g, task, own, outcomes);
    hide Closed, RecloseDisk, SavedOr;
  }

  lemma OwnReclosedDisk(g: Gate, task: Task, own: Key, outcomes: seq<Outcome>)
    requires |outcomes| == 2 && !Mine(g.probes, task, Global)
    ensures RecloseDisk(g, OwnTurn(g, task, own, outcomes[0]), task, own, outcomes)
  {
    hide Closed;
  }

  lemma OwnReclosed(g: Gate, task: Task, own: Key, outcomes: seq<Outcome>)
    requires |outcomes| == 2 && !Mine(g.probes, task, Global)
    ensures Recloses(g, OwnTurn(g, task, own, outcomes[0]), task, own, outcomes)
  {
    OwnReclosedDisk(g, task, own, outcomes);
    hide Closed, RecloseDisk, SavedOr;
  }

  lemma OwnReclosedBesidesDisk(g: Gate, task: Task, own: Key, outcomes: seq<Outcome>)
    requires |outcomes| == 2 && Mine(g.probes, task, Global) && Global !in g.states
    ensures RecloseDisk(g, OwnTurn(g.(probes := g.probes - {Global}), task, own, outcomes[0]), task, own, outcomes)
  {
    hide Closed;
  }

  lemma OwnReclosedBesides(g: Gate, task: Task, own: Key, outcomes: seq<Outcome>)
    requires |outcomes| == 2 && Mine(g.probes, task, Global) && Global !in g.states
    ensures Recloses(g, OwnTurn(g.(probes := g.probes - {Global}), task, own, outcomes[0]), task, own, outcomes)
  {
    OwnReclosedBesidesDisk(g, task, own, outcomes);
    hide Closed, RecloseDisk, SavedOr;
  }

  /** What an unanswered probe does, without the steps it takes. */
  lemma {:induction false} ReleaseRecloses(g: Gate, task: Task, req: Request, outcomes: seq<Outcome>)
    requires g.up && g.lock.Free? && |outcomes| == 2 && g.clock <= outcomes[0].now <= outcomes[1].now
    ensures Recloses(g, Pass(Releasing(g, task, Keys(g.aliases, req)), outcomes), task, Keys(g.aliases, req)[1], outcomes)
  {
    var own := Keys(g.aliases, req)[1];
    assert Keys(g.aliases, req) == [Global, own];
    hide Pass, Releasing, Recloses;
    if Mine(g.probes, task, Global) && Global in g.states {
      ReleasesGlobalFirst(g, task, own, outcomes);
      if outcomes[0].ok {
        ReleasesOne(Backed(g, Global, outcomes[0]), task, own, outcomes[1]);
        BothReclosed(g, task, own, outcomes);
      } else {
        FirstReclosed(g, task, own, outcomes);
      }
    } else {
      ReleasesOwnOnly(g, task, own, outcomes);
      ReleasesOne(if Mine(g.probes, task, Global) then g.(probes := g.probes - {Global}) else g, task, own, outcomes[0]);
      if Mine(g.probes, task, Global) {
        OwnReclosedBesides(g, task, own, outcomes);
      } else {
        OwnReclosed(g, task, own, outcomes);
      }
    }
  }

  class ApiRecovery {
    var states: map<Key, Cool>
    var aliases: map<Route, Key>
    var probes: map<Key, Task>
    var disk: map<Key, Row>
    var deferred: nat

    ghost function View(now: real): Gate
      reads this
    {
      Gate(true, now, states, aliases, probes, Free, disk)
    }

    /** initialize: the records of an earlier process, and nothing else. */
    constructor (disk: map<Key, Row>, now: real)
      ensures View(now) == Boot(Gate(false, now, map[], map[], map[], Free, disk))
      ensures this.disk == disk && deferred == 0 && aliases == map[] && probes == map[]
      ensures states.Keys == disk.Keys
      ensures forall k | k in disk ::
                states[k] == Cool(disk[k].utc, if disk[k].utc > now then disk[k].utc else now, disk[k].attempt, disk[k].route)
    {
      this.disk, aliases, probes, deferred := disk, map[], map[], 0;
      states := map k | k in disk ::
        Cool(disk[k].utc, now + Max(0.0, disk[k].utc - now), disk[k].attempt, disk[k].route);
    }

    /** Raises with the wait, or lets the request through; the probes it took
        before the scope that deferred it stay taken. */
    method AdmitRequest(task: Task, req: Request, now: real) returns (deferral: Option<real>)
      modifies this`probes, this`deferred
      ensures var v := Walk(states, old(probes), task, req.me, Keys(aliases, req), now);
              probes == v.probes && deferral == v.deferral
      ensures deferral.None? <==> Passes(old(View(now)), task, req)
      ensures deferral.None? ==>
                probes == old(probes) + (map k | k in Keys(aliases, req) && k in states :: task)
      ensures deferral.Some? ==> exists k :: k in Keys(aliases, req) && k in states
                                             && deferral.value == if states[k].mono > now then states[k].mono - now else 1.0
      ensures deferred == old(deferred) + (if deferral.Some? then 1 else 0)
    {
      if Walk(states, probes, task, req.me, Keys(aliases, req), now).deferral.None? {
        WalkTakes(states, probes, task, req.me, Keys(aliases, req), now);
      } else {
        WalkNames(states, probes, task, req.me, Keys(aliases, req), now);
      }
      var keys := Keys(aliases, req);
      var i := 0;
      while i < 2
        invariant 0 <= i <= 2 && deferred == old(deferred)
        invariant Walk(states, old(probes), task, req.me, keys, now)
               == Walk(states, probes, task, req.me, keys[i..], now)
      {
        var k := keys[i];
        if k in states {
          var remaining := Remaining(states[k], now);
          if remaining > 0.0 || (k in probes && probes[k] != task) {
            deferred := deferred + 1;
            return Some(if remaining > 0.0 then remaining else 1.0);
          }
          if k == Global && !req.me {
            deferred := deferred + 1;
            return Some(1.0);
          }
          probes := probes[k := task];
        }
        i := i + 1;
      }
      return None;
    }

    /** observe on a 429: memory is closed before the save is awaited. */
    method ObserveRejection(route: Route, reply: Reply, seen: real, now: real, stored: Outcome)
      requires seen <= now <= stored.now
      modifies this`states, this`aliases, this`probes, this`disk
      ensures View(stored.now) == Pass(Rejected(old(View(now)), route, ScopeOf(reply), seen, RetryDelay(reply, seen)), [stored])
      ensures var k, said := ScopeOf(reply), RetryDelay(reply, seen);
              var n := if k in old(states) then old(states)[k].attempt + 1 else 1;
              var until := seen + if said.Some? then said.value else LocalBackoff(n);
              var utc := Max(if k in old(states) then old(states)[k].utc else 0.0, until);
              && states == old(states)[k := Cool(utc, now + Max(0.0, utc - seen), n, route)]
              && aliases == old(aliases)[route := k] && probes == old(probes) - {k}
              && disk == (if stored.ok || stored.landed
                          then old(disk)[k := Row(if k in old(disk) && old(disk)[k].utc > utc then old(disk)[k].utc else utc, n, route)]
                          else old(disk))
    {
      ghost var g := View(now);
      CloseScope(route, reply, seen, now, stored);
      RejectionCloses(g, route, ScopeOf(reply), seen, RetryDelay(reply, seen), stored);
    }

    /** Memory first, then the awaited save. */
    method CloseScope(route: Route, reply: Reply, seen: real, now: real, stored: Outcome)
      requires seen <= now <= stored.now
      modifies this`states, this`aliases, this`probes, this`disk
      ensures View(stored.now) == Pass(Rejected(old(View(now)), route, ScopeOf(reply), seen, RetryDelay(reply, seen)), [stored])
    {
      var k := ScopeOf(reply);
      var attempt := if k in states then states[k].attempt + 1 else 1;
      var delay := RetryDelay(reply, seen);
      var wait := if delay.Some? then delay.value else LocalBackoff(attempt);
      var utc := Max(if k in states then states[k].utc else 0.0, seen + wait);
      var c := Cool(utc, now + Max(0.0, utc - seen), attempt, route);
      states, aliases, probes := states[k := c], aliases[route := k], probes - {k};
      if stored.ok || stored.landed {
        disk := disk[k := if k in disk then Row(Max(disk[k].utc, utc), attempt, route) else Row(utc, attempt, route)];
      }
      ghost var closed := Rejected(old(View(now)), route, k, seen, delay);
      SaveAnswered(closed, stored);
      assert View(stored.now) == Answer(closed, stored);
      hide Answer, Rejected;
      assert Pass(closed, [stored]) == Pass(Answer(closed, stored), [stored][1..]) == View(stored.now);
    }

    /** The delete of one scope on a 2xx; a failed delete leaves memory closed. */
    method Clear(k: Key, task: Task, now: real, outcome: Outcome, ghost rest: seq<Key>)
      requires k in probes && probes[k] == task && now <= outcome.now
      modifies this`states, this`probes, this`disk
      ensures var g := old(View(now)).(lock := Deleting(k, task, rest));
              Answer(g, outcome) == if outcome.ok then Clearing(View(outcome.now), task, rest) else View(outcome.now)
    {
      if outcome.ok || outcome.landed {
        disk := disk - {k};
      }
      if outcome.ok {
        states, probes := states - {k}, probes - {k};
        LockIsReplaced(View(outcome.now).(lock := Deleting(k, task, rest)), task, rest);
      }
    }

    /** observe on a 2xx: the scopes this task probes are cleared, in order. */
    method ObserveSuccess(task: Task, req: Request, now: real, outcomes: seq<Outcome>) returns (end: real)
      requires |outcomes| == 2 && now <= outcomes[0].now <= outcomes[1].now
      modifies this`states, this`probes, this`disk
      ensures now <= end && View(end) == Pass(Clearing(old(View(now)), task, Keys(aliases, req)), outcomes)
      ensures Reopens(old(states), old(probes), old(disk), states, probes, disk, task, Keys(aliases, req)[1], outcomes)
      ensures outcomes[0].ok && outcomes[1].ok && (forall k | k in Keys(aliases, req) && k in old(states) :: Mine(old(probes), task, k))
              ==> forall other, me :: Passes(View(end), other, Request(req.route, me))
    {
      end := ClearProbed(task, req, now, outcomes);
      SuccessReopens(old(View(now)), task, req, outcomes);
      if outcomes[0].ok && outcomes[1].ok && (forall k | k in Keys(aliases, req) && k in old(states) :: Mine(old(probes), task, k)) {
        var own := Keys(aliases, req)[1];
        assert Keys(aliases, req)[0] == Global && Keys(aliases, req)[0] in Keys(aliases, req) && own in Keys(aliases, req);
        hide Pass, Clearing;
        forall other, me ensures Passes(View(end), other, Request(req.route, me)) {
          OpenPasses(View(end), other, Request(req.route, me));
        }
      }
    }

    /** The loop of observe over the two keys. */
    method ClearProbed(task: Task, req: Request, now: real, outcomes: seq<Outcome>) returns (end: real)
      requires |outcomes| == 2 && now <= outcomes[0].now <= outcomes[1].now
      modifies this`states, this`probes, this`disk
      ensures now <= end && View(end) == Pass(Clearing(old(View(now)), task, Keys(aliases, req)), outcomes)
    {
      hide Answer;
      var keys := Keys(aliases, req);
      ghost var start := Clearing(View(now), task, keys);
      end := now;
      var n := 0;
      for i := 0 to 2
        invariant 0 <= n <= i <= 2 && now <= end && (n < 2 ==> end <= outcomes[n].now)
        invariant Pass(start, outcomes) == Pass(Clearing(View(end), task, keys[i..]), outcomes[n..])
      {
        assert keys[i..][1..] == keys[i + 1..] && outcomes[n..][1..] == outcomes[n + 1..];
        var k := keys[i];
        if k in probes && probes[k] == task {
          Clear(k, task, end, outcomes[n], keys[i + 1..]);
          end := outcomes[n].now;
          if !outcomes[n].ok {
            return;
          }
          n := n + 1;
        }
      }
      assert keys[2..] == [];
    }

    lemma BackedOff(g: Gate, k: Key, task: Task, rest: seq<Key>)
      requires k in g.probes && g.probes[k] == task && k in g.states
      ensures var utc := Max(g.states[k].utc, g.clock + 60.0);
              var c := g.states[k].(utc := utc, mono := g.clock + Max(0.0, utc - g.clock));
              Releasing(g, task, [k] + rest)
              == g.(states := g.states[k := c], probes := g.probes - {k}, lock := Saving(k, AsRow(c), task, rest))
    {
      assert ([k] + rest)[1..] == rest;
    }

    /** release_probe for one scope: back off, then save. */
    method BackOff(k: Key, task: Task, now: real, outcome: Outcome, ghost rest: seq<Key>)
      requires k in probes && probes[k] == task && k in states && now <= outcome.now
      modifies this`states, this`probes, this`disk
      ensures var g := Releasing(old(View(now)), task, [k] + rest);
              g.lock.Saving? &&
              Answer(g, outcome) == if outcome.ok then Releasing(View(outcome.now), task, rest) else View(outcome.now)
    {
      var utc := Max(states[k].utc, now + 60.0);
      var c := states[k].(utc := utc, mono := now + Max(0.0, utc - now));
      states, probes := states[k := c], probes - {k};
      if outcome.ok || outcome.landed {
        disk := disk[k := if k in disk then Row(Max(disk[k].utc, utc), c.attempt, c.route) else AsRow(c)];
      }
      BackedOff(old(View(now)), k, task, rest);
      SaveAnswered(Releasing(old(View(now)), task, [k] + rest), outcome);
      hide Releasing, Answer;
      LockIsReplaced(View(outcome.now).(lock := Saving(k, AsRow(c), task, rest)), task, rest);
    }

    /** release_probe: a probe that got no answer closes its scope again. */
    method ReleaseProbe(task: Task, req: Request, now: real, outcomes: seq<Outcome>) returns (end: real)
      requires |outcomes| == 2 && now <= outcomes[0].now <= outcomes[1].now
      modifies this`states, this`probes, this`disk
      ensures now <= end && View(end) == Pass(Releasing(old(View(now)), task, Keys(aliases, req)), outcomes)
      ensures Recloses(old(View(now)), View(end), task, Keys(aliases, req)[1], outcomes)
    {
      end := ReleaseProbed(task, req, now, outcomes);
      ReleaseRecloses(old(View(now)), task, req, outcomes);
    }

    /** The loop of release_probe over the two keys. */
    method ReleaseProbed(task: Task, req: Request, now: real, outcomes: seq<Outcome>) returns (end: real)
      requires |outcomes| == 2 && now <= outcomes[0].now <= outcomes[1].now
      modifies this`states, this`probes, this`disk
      ensures now <= end && View(end) == Pass(Releasing(old(View(now)), task, Keys(aliases, req)), outcomes)
    {
      hide Answer;
      var keys := Keys(aliases, req);
      ghost var start := Releasing(View(now), task, keys);
      end := now;
      var n := 0;
      for i := 0 to 2
        invariant 0 <= n <= i <= 2 && now <= end && (n < 2 ==> end <= outcomes[n].now)
        invariant Pass(start, outcomes) == Pass(Releasing(View(end), task, keys[i..]), outcomes[n..])
      {
        assert keys[i..][1..] == keys[i + 1..] && outcomes[n..][1..] == outcomes[n + 1..];
        assert keys[i..] == [keys[i]] + keys[i + 1..];
        var k := keys[i];
        if k in probes && probes[k] == task {
          if k in states {
            BackOff(k, task, end, outcomes[n], keys[i + 1..]);
            end := outcomes[n].now;
            if !outcomes[n].ok {
              return;
            }
            n := n + 1;
          } else {
            probes := probes - {k};
          }
        }
      }
      assert keys[2..] == [];
    }
  }
}
