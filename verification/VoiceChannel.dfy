/** Restricting and lifting as the writes that do it (services/permissions.py).
    Discord holds the overwrites; what the bot reads is a cached copy that may
    lag behind its own writes by any amount, and any write may fail. */
module VoiceChannel {
  import opened Common
  import opened Permissions

  /** With the bot in the room's server: whoever is shut out, the bot is not. */
  predicate BotSafe(m: Overwrites, me: Option<nat>, a: Attr) {
    me.Some? && At(m, EVERYONE, a) == Deny ==> At(m, Member(me.value), a) == Allow
  }

  /** The write that change c asks of target t. */
  function Wanted(m: Overwrites, c: Change, a: Attr, t: Target): Overwrite {
    Set(For(m, t), a, Changed(c, t, a, At(m, t, a)))
  }

  /** Some targets are as the change wants them, all others as they were. */
  ghost predicate Partly(m: Overwrites, h: Overwrites, c: Change, a: Attr, done: set<Target>) {
    forall t :: For(h, t) == For(m, t) || (t in done && For(h, t) == Wanted(m, c, a, t))
  }

  /** What a failed or running call may have left: each target as it was or as
      the change wants it. */
  ghost predicate Halfway(m: Overwrites, h: Overwrites, c: Change, a: Attr) {
    forall t :: For(h, t) == For(m, t) || For(h, t) == Wanted(m, c, a, t)
  }

  /** A restriction touches @everyone only once the bot has its own allow. */
  predicate BotFirst(m: Overwrites, h: Overwrites, c: Change, a: Attr, me: Option<nat>) {
    c.Tighten? && me.Some? && For(h, EVERYONE) != For(m, EVERYONE) ==> At(h, Member(me.value), a) == Allow
  }

  /** What a call leaves behind, and every prefix of its writes. */
  ghost predicate Leaves(m: Overwrites, h: Overwrites, c: Change, a: Attr, me: Option<nat>, complete: bool) {
    Halfway(m, h, c, a) && BotFirst(m, h, c, a, me) && (complete ==> Does(m, h, c, a))
  }

  predicate Serves(c: Change, me: Option<nat>) {
    me == if c.Tighten? then c.plan.me else c.ease.me
  }

  /** So no restriction and no lift shuts the bot out, on either permission, at
      any point of its writes and whichever of them fails. */
  lemma CallsKeepBotSafe(m: Overwrites, h: Overwrites, c: Change, a: Attr, me: Option<nat>, complete: bool, b: Attr)
    requires Leaves(m, h, c, a, me, complete) && Serves(c, me) && BotSafe(m, me, b)
    ensures BotSafe(h, me, b)
  {
    if me.Some? {
      var t := Member(me.value);
      assert For(h, t) == For(m, t) || For(h, t) == Wanted(m, c, a, t);
      assert For(h, EVERYONE) == For(m, EVERYONE) || For(h, EVERYONE) == Wanted(m, c, a, EVERYONE);
    }
  }

  /** The members to allow are the ones the plan grants. */
  lemma AllowsAreWanted(j: Job, allowed: set<nat>, todo: set<Target>)
    requires j.c.Tighten? && j.c.plan.me == j.me && todo == set x | x in allowed :: Member(x)
    requires forall x :: x in allowed <==> x in j.c.plan.wanted && x !in j.c.plan.denied && j.me != Some(x)
    ensures forall t :: t in todo <==> Granted(j.c.plan, t)
    ensures forall t | t in todo :: Changed(j.c, t, j.a, At(j.m, t, j.a)) == Allow && t != EVERYONE && !IsBot(j.me, t)
  {
  }

  /** Whatever the three parts of a restriction do not write needs no change. */
  lemma RestUnchanged(j: Job, before: set<Target>, todo: set<Target>)
    requires j.c.Tighten? && j.c.plan.me == j.me && forall t :: t in todo <==> Granted(j.c.plan, t)
    requires EVERYONE in before && (j.me.Some? ==> Member(j.me.value) in before)
    requires forall t: Target | t.Role? && t != EVERYONE && t !in before :: At(j.m, t, j.a) != Allow
    ensures forall t | t !in before + todo :: Changed(j.c, t, j.a, At(j.m, t, j.a)) == At(j.m, t, j.a)
  {
  }

  lemma LiftLeavesTheRest(j: Job, read: Overwrites, todo: set<Target>)
    requires j.c.Loosen? && forall t: Target | t != EVERYONE :: For(read, t) == For(j.m, t)
    requires forall t | t in read && t != EVERYONE && Loosened(j.c.ease, t, j.a, Get(read[t], j.a)) != Get(read[t], j.a) ::
               t in todo
    ensures forall t | t !in {EVERYONE} + todo :: Changed(j.c, t, j.a, At(j.m, t, j.a)) == At(j.m, t, j.a)
  {
  }

  lemma DoneIsDoes(m: Overwrites, h: Overwrites, c: Change, a: Attr, done: set<Target>)
    requires forall t :: For(h, t) == if t in done then Wanted(m, c, a, t) else For(m, t)
    requires forall t | t !in done :: Changed(c, t, a, At(m, t, a)) == At(m, t, a)
    ensures Does(m, h, c, a)
  {
    forall t ensures For(h, t) == Wanted(m, c, a, t) {
      assert Set(For(m, t), a, At(m, t, a)) == For(m, t);
    }
  }

  lemma PutIsFor(m: Overwrites, t: Target, o: Overwrite, u: Target)
    ensures For(Put(m, t, o), u) == if u == t then o else For(m, u)
  {
  }

  lemma PutKeepsBotFirst(j: Job, h: Overwrites, t: Target, o: Overwrite)
    requires BotFirst(j.m, h, j.c, j.a, j.me) && t != EVERYONE && !IsBot(j.me, t)
    ensures BotFirst(j.m, Put(h, t, o), j.c, j.a, j.me)
  {
  }

  /** Nothing is written twice. */
  ghost predicate Once(written: seq<Target>) {
    forall i, j | 0 <= i < j < |written| :: written[i] != written[j]
  }

  function Both(o: Overwrite, p: Perm): Overwrite {
    o.(connect := p, view := p)
  }

  function Without(o: Overwrite): Overwrite {
    Both(o, Unset)
  }

  /** A member's overwrite without the two permissions, if it had any. */
  function Cleared(m: Overwrites, member: nat): Overwrites {
    var o := For(m, Member(member));
    if o.connect == Unset && o.view == Unset then m else Put(m, Member(member), Without(o))
  }

  /** Both permissions of one member, and nothing else, are gone. */
  lemma ClearedIsFor(m: Overwrites, member: nat, t: Target)
    ensures For(Cleared(m, member), t) == if t == Member(member) then Without(For(m, t)) else For(m, t)
  {
  }

  /** What a call is about: the overwrites it found, its change, the bot. */
  datatype Job = Job(m: Overwrites, c: Change, a: Attr, me: Option<nat>)

  /** Each state so far is as found but for targets in `done`, the last one
      exactly; and none shuts the bot out. */
  ghost predicate WrittenSoFar(j: Job, done: set<Target>, server: Overwrites, history: seq<Overwrites>) {
    && (forall h | h in history :: Partly(j.m, h, j.c, j.a, done) && BotFirst(j.m, h, j.c, j.a, j.me))
    && (forall t :: For(server, t) == if t in done then Wanted(j.m, j.c, j.a, t) else For(j.m, t))
  }

  lemma PutGoesOn(j: Job, done: set<Target>, server: Overwrites, history: seq<Overwrites>, t: Target, o: Overwrite)
    requires WrittenSoFar(j, done, server, history) && o == Wanted(j.m, j.c, j.a, t)
    requires BotFirst(j.m, Put(server, t, o), j.c, j.a, j.me)
    ensures WrittenSoFar(j, done + {t}, Put(server, t, o), history + [Put(server, t, o)])
  {
    var server' := Put(server, t, o);
    hide BotFirst, Wanted;
    forall h | h in history + [server']
      ensures Partly(j.m, h, j.c, j.a, done + {t}) && BotFirst(j.m, h, j.c, j.a, j.me)
    {
      assert h == server' || h in history;
    }
  }

  function Ids(s: seq<nat>): set<nat> {
    set x | x in s
  }

  /** owner, *extra, *members */
  function Candidates(owner: Option<nat>, extra: seq<nat>, members: seq<nat>): seq<nat> {
    (if owner.Some? then [owner.value] else []) + extra + members
  }

  class VoiceChannel {
    var server: Overwrites
    var cache: Overwrites
    var history: seq<Overwrites>
    /** The targets written since the cache last caught up, in order. */
    ghost var written: seq<Target>

    /** The server's states since the cache last caught up; the cache shows one
        of them. */
    ghost predicate Valid()
      reads this
    {
      history != [] && server == history[|history| - 1] && cache in history
    }

    ghost predicate CaughtUp()
      reads this
    {
      history == [server] && cache == server && written == []
    }

    constructor (m: Overwrites)
      ensures Valid() && CaughtUp() && server == m
    {
      server, cache, history, written := m, m, [m], [];
    }

    method CatchUp()
      modifies this
      ensures Valid() && CaughtUp() && server == old(server)
    {
      cache, history, written := server, [server], [];
    }

    /** The call has written the targets in `done`, each once, and never shut
        the bot out. */
    ghost predicate Going(j: Job, done: set<Target>)
      reads this
    {
      && Valid()
      && WrittenSoFar(j, done, server, history)
      && Once(written) && (forall t :: t in written <==> t in done)
    }

    /** set_permissions. Afterwards the cache shows any state of this call. */
    method Write(t: Target, o: Overwrite, fails: nat -> bool, lag: nat -> nat, ghost j: Job, ghost done: set<Target>)
      returns (ok: bool)
      requires Going(j, done) && t !in done && o == Wanted(j.m, j.c, j.a, t)
      requires BotFirst(j.m, Put(server, t, o), j.c, j.a, j.me)
      modifies this
      ensures Going(j, if ok then done + {t} else done)
    {
      hide BotFirst, Wanted, Put, WrittenSoFar;
      var n := |history|;
      if fails(n) {
        return false;
      }
      server := Put(server, t, o);
      history, written := history + [server], written + [t];
      cache := if lag(n) < |history| then history[lag(n)] else server;
      PutGoesOn(j, done, old(server), old(history), t, o);
      return true;
    }

    /** Writes every target of `todo`, none of them the bot or @everyone. A role
        is changed as it was read before the loop, a member as it reads now. */
    method WriteAll(todo: set<Target>, read: Overwrites, p: map<Target, Perm>, a: Attr, fails: nat -> bool, lag: nat -> nat,
                    ghost j: Job, ghost done: set<Target>)
      returns (ok: bool, ghost wrote: set<Target>)
      requires Going(j, done) && todo !! done && a == j.a && todo <= p.Keys
      requires forall t | t in todo :: p[t] == Changed(j.c, t, a, At(j.m, t, a)) && (t.Role? ==> For(read, t) == For(j.m, t))
      requires forall t | t in todo :: t != EVERYONE && !IsBot(j.me, t)
      modifies this
      ensures Going(j, wrote) && (ok ==> wrote == done + todo)
    {
      hide Going, BotFirst, Put, Changed, For;
      var left := todo;
      wrote := done;
      while left != {}
        invariant left <= todo && wrote == done + (todo - left) && Going(j, wrote)
        decreases |left|
      {
        var t :| t in left;
        CacheIsOld(j, wrote, t);
        var o := Set(if t.Role? then For(read, t) else For(cache, t), a, p[t]);
        BotStaysFirst(j, wrote, t, o);
        ok := Write(t, o, fails, lag, j, wrote);
        if !ok {
          return;
        }
        left, wrote := left - {t}, wrote + {t};
      }
      assert wrote == done + todo;
      ok := true;
    }

    lemma BotStaysFirst(j: Job, done: set<Target>, t: Target, o: Overwrite)
      requires Going(j, done) && t != EVERYONE && !IsBot(j.me, t)
      ensures BotFirst(j.m, Put(server, t, o), j.c, j.a, j.me)
    {
      assert server in history;
      PutKeepsBotFirst(j, server, t, o);
    }

    /** However far it lags, the cache is right about what is still unwritten. */
    lemma CacheIsOld(j: Job, done: set<Target>, t: Target)
      requires Going(j, done) && t !in done
      ensures For(cache, t) == For(j.m, t)
    {
      assert Partly(j.m, cache, j.c, j.a, done);
    }

    lemma Starts(j: Job)
      requires CaughtUp() && j.m == server
      ensures Going(j, {})
    {
      assert Partly(j.m, server, j.c, j.a, {});
    }

    /** The candidates that get an allow, each once. */
    method AllowedMembers(candidates: seq<nat>, me: Option<nat>, denied: seq<nat>) returns (allowed: set<nat>)
      ensures forall x :: x in allowed <==> x in candidates && x !in denied && me != Some(x)
    {
      allowed := {};
      var seen := if me.Some? then {me.value} else {};
      for i := 0 to |candidates|
        invariant forall x :: x in allowed <==> x in candidates[..i] && x !in denied && me != Some(x)
        invariant forall x :: x in seen <==> x in allowed || me == Some(x)
      {
        var x := candidates[i];
        if x !in seen && x !in denied {
          allowed, seen := allowed + {x}, seen + {x};
        }
      }
      assert candidates[..|candidates|] == candidates;
    }

    /** The bot's allow, then the deny for @everyone. */
    method CloseDefault(a: Attr, me: Option<nat>, fails: nat -> bool, lag: nat -> nat, ghost j: Job)
      returns (ok: bool, ghost done: set<Target>)
      requires Going(j, {}) && j.c.Tighten? && j.c.plan.me == me == j.me && j.a == a
      modifies this
      ensures Going(j, done)
      ensures ok ==> done == {EVERYONE} + (if me.Some? then {Member(me.value)} else {})
    {
      hide Going;
      done := {};
      if me.Some? {
        CacheIsOld(j, done, Member(me.value));
        PutIsFor(server, Member(me.value), Set(For(cache, Member(me.value)), a, Allow), Member(me.value));
        ok := Write(Member(me.value), Set(For(cache, Member(me.value)), a, Allow), fails, lag, j, done);
        if !ok {
          return;
        }
        done := done + {Member(me.value)};
      }
      CacheIsOld(j, done, EVERYONE);
      BotIsIn(j, done);
      ok := Write(EVERYONE, Set(For(cache, EVERYONE), a, Deny), fails, lag, j, done);
      if ok {
        done := done + {EVERYONE};
      }
    }

    lemma BotIsIn(j: Job, done: set<Target>)
      requires Going(j, done) && j.c.Tighten? && j.c.plan.me == j.me
      requires j.me.Some? ==> Member(j.me.value) in done
      ensures j.me.Some? ==> At(server, Member(j.me.value), j.a) == Allow
    {
    }

    /** Role allows would get around the deny for @everyone. */
    method CloseRoles(a: Attr, fails: nat -> bool, lag: nat -> nat, ghost j: Job, ghost done: set<Target>)
      returns (ok: bool, ghost wrote: set<Target>)
      requires Going(j, done) && j.c.Tighten? && j.a == a && forall t | t in done && t.Role? :: t == EVERYONE
      modifies this
      ensures Going(j, wrote)
      ensures ok ==> done <= wrote && forall t | t in wrote && t !in done :: t.Role?
      ensures ok ==> forall t: Target | t.Role? && t != EVERYONE && t !in wrote :: At(j.m, t, a) != Allow
    {
      hide Going;
      var read := cache;
      forall t: Target | t !in done ensures For(read, t) == For(j.m, t) {
        CacheIsOld(j, done, t);
      }
      var roles := set t | t in read.Keys && t.Role? && t != EVERYONE && Get(read[t], a) == Allow;
      ok, wrote := WriteAll(roles, read, map t | t in roles :: Deny, a, fails, lag, j, done);
    }

    /** _restrict_default_allow_members: the bot first, so that it is never shut
        out; then @everyone, the roles with an allow, the members. */
    method Restrict(a: Attr, me: Option<nat>, owner: Option<nat>, extra: seq<nat>, members: seq<nat>, denied: seq<nat>,
                    fails: nat -> bool, lag: nat -> nat) returns (ok: bool)
      requires CaughtUp()
      modifies this
      ensures Valid() && Once(written)
      ensures var c := Tighten(Plan(me, Ids(Candidates(owner, extra, members)), Ids(denied)));
              && Leaves(old(server), server, c, a, me, ok)
              && (forall h | h in history :: Leaves(old(server), h, c, a, me, false))
    {
      hide Partly, Changed, BotFirst, Candidates, At, For, Once;
      var candidates := Candidates(owner, extra, members);
      ghost var j := Job(server, Tighten(Plan(me, Ids(candidates), Ids(denied))), a, me);
      Starts(j);
      ghost var done;
      ok, done := CloseDefault(a, me, fails, lag, j);
      if ok {
        ok, done := CloseRoles(a, fails, lag, j, done);
        if ok {
          var allowed := AllowedMembers(candidates, me, denied);
          var todo := set x | x in allowed :: Member(x);
          ghost var before := done;
          AllowsAreWanted(j, allowed, todo);
          ok, done := WriteAll(todo, map[], map t | t in todo :: Allow, a, fails, lag, j, done);
          if ok {
            RestUnchanged(j, before, todo);
            DoneIsDoes(j.m, server, j.c, a, done);
          }
        }
      }
      GoingIsHalfway(j, done);
    }

    lemma GoingIsHalfway(j: Job, done: set<Target>)
      requires Going(j, done)
      ensures forall h | h in history :: Leaves(j.m, h, j.c, j.a, j.me, false)
      ensures server in history
    {
    }

    /** _lift_default_restriction: @everyone is cleared, members lose allows
        that are not theirs to keep, roles get the category's value back. */
    method Lift(a: Attr, me: Option<nat>, preserve: seq<nat>, known: set<nat>, category: Option<Overwrites>,
                fails: nat -> bool, lag: nat -> nat) returns (ok: bool)
      requires CaughtUp()
      modifies this
      ensures Valid() && Once(written)
      ensures var c := Loosen(Ease(me, Ids(preserve), known, category));
              && Leaves(old(server), server, c, a, me, ok)
              && (forall h | h in history :: Leaves(old(server), h, c, a, me, false))
    {
      hide Partly;
      var ease := Ease(me, Ids(preserve), known, category);
      ghost var j := Job(server, Loosen(ease), a, me);
      Starts(j);
      ghost var done: set<Target> := {};
      CacheIsOld(j, done, EVERYONE);
      ok := Write(EVERYONE, Set(For(cache, EVERYONE), a, Unset), fails, lag, j, done);
      if ok {
        done := done + {EVERYONE};
        var read := cache;
        forall t: Target | t != EVERYONE ensures For(read, t) == For(j.m, t) {
          CacheIsOld(j, done, t);
        }
        var todo := set t | t in read.Keys && t != EVERYONE && Loosened(ease, t, a, Get(read[t], a)) != Get(read[t], a);
        ok, done := WriteAll(todo, read, map t | t in todo :: Loosened(ease, t, a, Get(read[t], a)), a, fails, lag, j, done);
        if ok {
          LiftLeavesTheRest(j, read, todo);
          DoneIsDoes(j.m, server, j.c, a, done);
        }
      }
      GoingIsHalfway(j, done);
    }

    /** revoke_member_overwrites: no write unless something is set. */
    method Revoke(member: nat, fails: nat -> bool, lag: nat -> nat) returns (ok: bool)
      requires CaughtUp()
      modifies this
      ensures Valid() && server == if ok then Cleared(old(server), member) else old(server)
      ensures if fails(1) then server == old(server) else ok
    {
      var o := For(cache, Member(member));
      if o.connect == Unset && o.view == Unset {
        return true;
      }
      ok := SetBoth(member, Unset, fails, lag);
    }

    /** One write of both permissions of a member: grant_member_access with
        Allow, deny_member_access with Deny. */
    method SetBoth(member: nat, p: Perm, fails: nat -> bool, lag: nat -> nat) returns (ok: bool)
      requires CaughtUp()
      modifies this
      ensures Valid() && (ok <==> !fails(1))
      ensures server == if ok then Put(old(server), Member(member), Both(For(old(server), Member(member)), p)) else old(server)
    {
      if fails(1) {
        return false;
      }
      server := Put(server, Member(member), Both(For(cache, Member(member)), p));
      history, written := history + [server], written + [Member(member)];
      cache := if lag(1) < |history| then history[lag(1)] else server;
      return true;
    }

    method IsRestricted(a: Attr) returns (yes: bool)
      requires CaughtUp()
      ensures yes <==> At(server, EVERYONE, a) == Deny
    {
      return Get(For(cache, EVERYONE), a) == Deny;
    }
  }

  /** Two complete calls that differ only in how the cache lags leave the same
      overwrites. */
  method SameUnderAnyLag(x: VoiceChannel, y: VoiceChannel, a: Attr, me: Option<nat>, owner: Option<nat>, extra: seq<nat>,
                         members: seq<nat>, denied: seq<nat>, fails: nat -> bool, lagX: nat -> nat, lagY: nat -> nat)
    returns (okX: bool, okY: bool)
    requires x != y && x.CaughtUp() && y.CaughtUp() && x.server == y.server
    modifies x, y
    ensures okX && okY ==> Same(x.server, y.server)
  {
    ghost var m := x.server;
    okX := x.Restrict(a, me, owner, extra, members, denied, fails, lagX);
    okY := y.Restrict(a, me, owner, extra, members, denied, fails, lagY);
    ghost var c := Tighten(Plan(me, Ids(Candidates(owner, extra, members)), Ids(denied)));
    if okX && okY {
      forall t ensures For(x.server, t) == For(y.server, t) {
        assert For(x.server, t) == Wanted(m, c, a, t);
      }
    }
  }

  /** A lock and, once the gateway has caught up, an unlock: two complete calls
      give a target back what it had exactly as Returns says, whatever lagged. */
  method RestrictThenLift(x: VoiceChannel, a: Attr, me: Option<nat>, owner: Option<nat>, extra: seq<nat>, members: seq<nat>,
                          denied: seq<nat>, preserve: seq<nat>, known: set<nat>, category: Option<Overwrites>,
                          fails: nat -> bool, lag: nat -> nat, later: nat -> bool, lagLater: nat -> nat)
    returns (restricted: bool, lifted: bool)
    requires x.CaughtUp()
    modifies x
    ensures restricted && lifted ==>
              var plan := Plan(me, Ids(Candidates(owner, extra, members)), Ids(denied));
              var ease := Ease(me, Ids(preserve), known, category);
              forall t :: For(x.server, t) == For(old(x.server), t) <==> Returns(old(x.server), plan, ease, a, t)
  {
    ghost var m := x.server;
    restricted := x.Restrict(a, me, owner, extra, members, denied, fails, lag);
    x.CatchUp();
    ghost var m1 := x.server;
    lifted := x.Lift(a, me, preserve, known, category, later, lagLater);
    if restricted && lifted {
      ghost var plan := Plan(me, Ids(Candidates(owner, extra, members)), Ids(denied));
      ghost var ease := Ease(me, Ids(preserve), known, category);
      forall t ensures For(x.server, t) == For(m, t) <==> Returns(m, plan, ease, a, t) {
        RestrictThenLiftExactly(m, m1, x.server, plan, ease, a, t);
      }
    }
  }

  method LiftedUnderAnyLag(x: VoiceChannel, y: VoiceChannel, a: Attr, me: Option<nat>, preserve: seq<nat>, known: set<nat>,
                           category: Option<Overwrites>, fails: nat -> bool, lagX: nat -> nat, lagY: nat -> nat)
    returns (okX: bool, okY: bool)
    requires x != y && x.CaughtUp() && y.CaughtUp() && x.server == y.server
    modifies x, y
    ensures okX && okY ==> Same(x.server, y.server)
  {
    ghost var m := x.server;
    okX := x.Lift(a, me, preserve, known, category, fails, lagX);
    okY := y.Lift(a, me, preserve, known, category, fails, lagY);
    ghost var c := Loosen(Ease(me, Ids(preserve), known, category));
    if okX && okY {
      forall t ensures For(x.server, t) == For(y.server, t) {
        assert For(x.server, t) == Wanted(m, c, a, t);
      }
    }
  }
}
