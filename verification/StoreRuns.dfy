/** Properties of every sequence of store transactions, in any order and with
    any arguments: queue bounds, unique indexes, revisions, enqueue times. */
module StoreRuns {
  import opened Common
  import opened Tables

  datatype Op =
    | OpEnqueue(g: Guild, u: User, lobby: Channel, profile: Profile)
    | OpCancel(g: Guild, u: User, revision: Option<Revision>)
    | OpDefer(row: Join, delay: real)
    | OpIntent(row: Join)
    | OpPhase(i: IntentId, p: Phase)
    | OpAttach(i: IntentId, g: Guild, u: User, profile: Profile, c: Channel)
    | OpComplete(i: IntentId)
    | OpRestore
    | OpDeleted(c: Channel)
    | OpAddCleanup(g: Guild, c: Channel, leaver: Option<User>)
    | OpCleanupResult(k: CleanupKey, again: Option<real>)
    | OpDropRoom(c: Channel)
    | OpTransfer(c: Channel, u: User)
    | OpSetPanel(c: Channel, message: nat)

  ghost function OrElse(r: Option<Tables>, t: Tables): Tables {
    if r.Some? then r.value else t
  }

  /** One transaction at time `now`; one that raises leaves the tables alone. */
  ghost function Commit(t: Tables, op: Op, now: real): Tables {
    match op
    case OpEnqueue(g, u, lobby, profile) => Enqueue(t, g, u, lobby, profile, now)
    case OpCancel(g, u, revision) => CancelJoin(t, g, u, revision)
    case OpDefer(row, delay) => Defer(t, row, delay, now)
    case OpIntent(row) => if exists i :: OpenFor(t, i, row.guild, row.user) then t else InsertIntent(t, row, now)
    case OpPhase(i, p) => OrElse(SetPhase(t, i, p), t)
    case OpAttach(i, g, u, profile, c) => OrElse(Attach(t, i, g, u, profile, c), t)
    case OpComplete(i) => Complete(t, i, now)
    case OpRestore => Restore(t)
    case OpDeleted(c) => Deleted(t, c)
    case OpAddCleanup(g, c, leaver) => AddCleanup(t, g, c, leaver)
    case OpCleanupResult(k, again) => CleanupResult(t, k, again, now)
    case OpDropRoom(c) => DropRoom(t, c)
    case OpTransfer(c, u) => OrElse(Transfer(t, c, u), t)
    case OpSetPanel(c, message) => SetPanel(t, c, message)
  }

  datatype Timed = At(now: real, op: Op)

  ghost function Replay(t: Tables, ops: seq<Timed>): Tables
    decreases |ops|
  {
    if ops == [] then t else Replay(Commit(t, ops[0].op, ops[0].now), ops[1..])
  }

  // ---- bounds and indexes --------------------------------------------------

  lemma NewGuildQueue(a: map<(Guild, User), Join>, g: Guild, u: User, row: Join, h: Guild)
    requires (g, u) !in a
    ensures GuildQueue(a[(g, u) := row], h) == if h == g then GuildQueue(a, h) + {(g, u)} else GuildQueue(a, h)
  {
  }

  lemma PutKeepsBounds(a: map<(Guild, User), Join>, g: Guild, u: User, row: Join)
    requires QueueBounded(a)
    requires (g, u) in a || !Full(a, g)
    ensures QueueBounded(a[(g, u) := row])
  {
    var b := a[(g, u) := row];
    if (g, u) in a {
      SameKeysKeepBounds(a, b);
    } else {
      hide GuildQueue;
      assert b.Keys == a.Keys + {(g, u)};
      assert |b| == |b.Keys| && |a| == |a.Keys|;
      forall h ensures |GuildQueue(b, h)| <= MAX_PENDING_PER_GUILD {
        NewGuildQueue(a, g, u, row, h);
      }
    }
  }

  lemma SameKeysKeepBounds(a: map<(Guild, User), Join>, b: map<(Guild, User), Join>)
    requires QueueBounded(a) && b.Keys <= a.Keys
    ensures QueueBounded(b)
  {
    assert |b| == |b.Keys| && |a| == |a.Keys|;
    SubsetSize(b.Keys, a.Keys);
    forall h ensures |GuildQueue(b, h)| <= MAX_PENDING_PER_GUILD {
      SubsetSize(GuildQueue(b, h), GuildQueue(a, h));
    }
  }

  lemma SubsetSize<T>(a: set<T>, b: set<T>)
    requires a <= b
    ensures |a| <= |b|
  {
    assert b == a + (b - a);
  }

  lemma CommitKeepsBounds(t: Tables, op: Op, now: real)
    requires QueueBounded(t.joins)
    ensures QueueBounded(Commit(t, op, now).joins)
  {
    hide QueueBounded;
    var t' := Commit(t, op, now);
    if op.OpEnqueue? {
      if t' != t {
        PutKeepsBounds(t.joins, op.g, op.u, t'.joins[(op.g, op.u)]);
      }
    } else if op.OpCancel? || op.OpDefer? {
      SameKeysKeepBounds(t.joins, t'.joins);
    } else {
      assert t'.joins == t.joins;
    }
  }

  lemma InsertKeepsOpenIndex(t: Tables, row: Join, now: real)
    requires OneOpenIntentEach(t.intents) && IdsMinted(t)
    requires !exists i :: OpenFor(t, i, row.guild, row.user)
    ensures OneOpenIntentEach(InsertIntent(t, row, now).intents)
  {
    forall i | i in t.intents && t.intents[i].guild == row.guild && t.intents[i].user == row.user
      ensures !Open(t.intents[i].phase)
    {
      assert !OpenFor(t, i, row.guild, row.user);
    }
  }

  /** Rewriting one intent keeps the index if it is closed or stays alone. */
  lemma RewriteKeepsOpenIndex(n: map<IntentId, Intent>, i: IntentId, v: Intent)
    requires OneOpenIntentEach(n) && i in n && v.guild == n[i].guild && v.user == n[i].user
    requires Open(v.phase) ==> OthersClosed(n, i)
    ensures OneOpenIntentEach(n[i := v])
  {
  }

  lemma ClosingKeepsOpenIndex(n: map<IntentId, Intent>, m: map<IntentId, Intent>)
    requires OneOpenIntentEach(n) && m.Keys == n.Keys
    requires forall i | i in n :: m[i].guild == n[i].guild && m[i].user == n[i].user
                                  && (Open(m[i].phase) ==> Open(n[i].phase))
    ensures OneOpenIntentEach(m)
  {
  }

  lemma CommitKeepsOpenIndex(t: Tables, op: Op, now: real)
    requires OneOpenIntentEach(t.intents) && IdsMinted(t)
    ensures OneOpenIntentEach(Commit(t, op, now).intents)
  {
    hide OneOpenIntentEach, IdsMinted, OthersClosed;
    var n, m := t.intents, Commit(t, op, now).intents;
    if m == n {
    } else if op.OpIntent? {
      InsertKeepsOpenIndex(t, op.row, now);
    } else if op.OpPhase? || op.OpAttach? || op.OpComplete? {
      assert m == n[op.i := m[op.i]];
      RewriteKeepsOpenIndex(n, op.i, m[op.i]);
    } else {
      ClosingKeepsOpenIndex(n, m);
    }
  }

  lemma PutKeepsOwnerIndex(rooms: map<Channel, Room>, c: Channel, v: Room)
    requires OneRoomEach(rooms) && OwnerFree(rooms, c, v.guild, v.owner)
    ensures OneRoomEach(rooms[c := v])
  {
  }

  lemma SameOwnersKeepIndex(rooms: map<Channel, Room>, other: map<Channel, Room>)
    requires OneRoomEach(rooms) && other.Keys <= rooms.Keys
    requires forall c | c in other :: other[c].guild == rooms[c].guild && other[c].owner == rooms[c].owner
    ensures OneRoomEach(other)
  {
  }

  lemma CommitKeepsOwnerIndex(t: Tables, op: Op, now: real)
    requires OneRoomEach(t.rooms)
    ensures OneRoomEach(Commit(t, op, now).rooms)
  {
    hide OneRoomEach, OwnerFree, OthersClosed;
    var rooms, other := t.rooms, Commit(t, op, now).rooms;
    if other == rooms {
    } else if op.OpAttach? || op.OpTransfer? {
      assert other == rooms[op.c := other[op.c]];
      PutKeepsOwnerIndex(rooms, op.c, other[op.c]);
    } else {
      SameOwnersKeepIndex(rooms, other);
    }
  }

  lemma CommitKeepsIds(t: Tables, op: Op, now: real)
    requires IdsMinted(t)
    ensures IdsMinted(Commit(t, op, now)) && Commit(t, op, now).minted >= t.minted
  {
  }

  /** No transaction, whatever its arguments, breaks a bound or an index. */
  lemma CommitKeepsWellFormed(t: Tables, op: Op, now: real)
    requires WellFormed(t)
    ensures WellFormed(Commit(t, op, now))
  {
    CommitKeepsBounds(t, op, now);
    CommitKeepsOpenIndex(t, op, now);
    CommitKeepsOwnerIndex(t, op, now);
    CommitKeepsIds(t, op, now);
  }

  /** In every run: at most 500 joins wait, at most 50 in one guild, no owner
      has two open intents or two tracked rooms, and ids never collide. */
  lemma {:induction false} AlwaysWellFormed(t: Tables, ops: seq<Timed>)
    requires WellFormed(t)
    ensures WellFormed(Replay(t, ops))
    decreases |ops|
  {
    if ops != [] {
      CommitKeepsWellFormed(t, ops[0].op, ops[0].now);
      AlwaysWellFormed(Commit(t, ops[0].op, ops[0].now), ops[1..]);
    }
  }

  lemma EmptyIsWellFormed()
    ensures WellFormed(EMPTY)
  {
    forall g ensures |GuildQueue(EMPTY.joins, g)| <= MAX_PENDING_PER_GUILD {
      assert GuildQueue(EMPTY.joins, g) == {};
    }
  }

  // ---- revisions -----------------------------------------------------------

  /** A worker's copy of a queue row that has been replaced or removed. */
  ghost predicate Outdated(t: Tables, row: Join) {
    row.revision < t.minted && !Current(t, row)
  }

  lemma CommitKeepsOutdated(t: Tables, op: Op, now: real, row: Join)
    requires Outdated(t, row)
    ensures Outdated(Commit(t, op, now), row)
  {
  }

  /** Once replaced, a revision never becomes current again, and the worker
      holding it can neither cancel nor delay whatever replaced it. */
  lemma {:induction false} OldRevisionIsPowerless(t: Tables, ops: seq<Timed>, row: Join, delay: real, now: real)
    requires Outdated(t, row)
    ensures var t' := Replay(t, ops);
            && !Current(t', row)
            && CancelJoin(t', row.guild, row.user, Some(row.revision)) == t'
            && Defer(t', row, delay, now) == t'
    decreases |ops|
  {
    if ops != [] {
      CommitKeepsOutdated(t, ops[0].op, ops[0].now, row);
      OldRevisionIsPowerless(Commit(t, ops[0].op, ops[0].now), ops[1..], row, delay, now);
    }
  }

  /** Re-targeting outdates the copy a worker took before it. */
  lemma RetargetOutdates(t: Tables, row: Join, lobby: Channel, profile: Profile, now: real)
    requires WellFormed(t) && Current(t, row)
    requires !SameTarget(t.joins, row.guild, row.user, lobby, profile)
    ensures Outdated(Enqueue(t, row.guild, row.user, lobby, profile, now), row)
  {
  }

  /** A copy is current exactly while its holder's cancel would remove the
      request. */
  lemma CurrentMayCancel(t: Tables, row: Join)
    ensures Current(t, row) <==> CancelJoin(t, row.guild, row.user, Some(row.revision)) != t
  {
    if Current(t, row) {
      assert (row.guild, row.user) in t.joins
          && (row.guild, row.user) !in CancelJoin(t, row.guild, row.user, Some(row.revision)).joins;
    }
  }

  // ---- protection ------------------------------------------------------------

  lemma DeletingCutsProtected(t: Tables, c: Channel)
    requires Protects(t, c)
    ensures Deleted(t, c) != t && !Protects(Deleted(t, c), c)
  {
    var i :| i in t.intents && t.intents[i].channel == Some(c) && Guarded(t.intents[i].phase);
    assert Deleted(t, c).intents[i].phase == Cancelled;
  }

  /** What can begin the protection of channel c. */
  predicate Begins(op: Op, c: Channel) {
    match op
    case OpAttach(_, _, _, _, room) => room == c
    case OpPhase(_, p) => Guarded(p)
    case OpRestore => true
    case _ => false
  }

  /** What can end it. */
  predicate Ends(op: Op, c: Channel) {
    match op
    case OpPhase(_, p) => !Guarded(p)
    case OpComplete(_) => true
    case OpDeleted(room) => room == c
    case OpAttach(_, _, _, _, room) => room != c
    case _ => false
  }

  lemma KeepsGuards(t: Tables, op: Op, now: real, i: IntentId, c: Channel)
    requires IdsMinted(t)
    ensures var n, m := t.intents, Commit(t, op, now).intents;
            && (i in n && n[i].channel == Some(c) && Guarded(n[i].phase) && !Ends(op, c) ==>
                  i in m && m[i].channel == Some(c) && Guarded(m[i].phase))
            && (i in m && m[i].channel == Some(c) && Guarded(m[i].phase) && !Begins(op, c) ==>
                  i in n && n[i].channel == Some(c) && Guarded(n[i].phase))
  {
    hide OthersClosed, OwnerFree, Full, Enqueue, CancelJoin, Defer, AddCleanup, CleanupResult, DropRoom, Transfer, SetPanel;
    if !ChangesIntents(op) {
      IntentsStay(t, op, now);
    }
  }

  predicate ChangesIntents(op: Op) {
    op.OpIntent? || op.OpPhase? || op.OpAttach? || op.OpComplete? || op.OpRestore? || op.OpDeleted?
  }

  lemma IntentsStay(t: Tables, op: Op, now: real)
    requires !ChangesIntents(op)
    ensures Commit(t, op, now).intents == t.intents
  {
  }

  /** A room becomes protected only by an attach, a guarded phase or a restart,
      and stops being so only by a count, an unguarded phase, its deletion or an
      attach of the intent to another room: no enqueue, cleanup, transfer or
      drop of a record ever changes it. */
  lemma ProtectionChangesOnlyBy(t: Tables, op: Op, now: real, c: Channel)
    requires IdsMinted(t)
    ensures !Protects(t, c) && Protects(Commit(t, op, now), c) ==> Begins(op, c)
    ensures Protects(t, c) && !Protects(Commit(t, op, now), c) ==> Ends(op, c)
  {
    var t' := Commit(t, op, now);
    hide Commit, Begins, Ends, Guarded;
    if Protects(t, c) {
      var i :| i in t.intents.Keys && t.intents[i].channel == Some(c) && Guarded(t.intents[i].phase);
      KeepsGuards(t, op, now, i, c);
    }
    if Protects(t', c) {
      var i :| i in t'.intents.Keys && t'.intents[i].channel == Some(c) && Guarded(t'.intents[i].phase);
      KeepsGuards(t, op, now, i, c);
    }
  }

  // ---- waiting time --------------------------------------------------------

  /** The request of (g, u) is never withdrawn during the run. */
  ghost predicate Waits(t: Tables, ops: seq<Timed>, g: Guild, u: User)
    decreases |ops|
  {
    && (g, u) in t.joins
    && (ops == [] || Waits(Commit(t, ops[0].op, ops[0].now), ops[1..], g, u))
  }

  lemma CommitKeepsEnqueueTime(t: Tables, op: Op, now: real, g: Guild, u: User)
    requires (g, u) in t.joins && (g, u) in Commit(t, op, now).joins
    ensures Commit(t, op, now).joins[(g, u)].enqueued == t.joins[(g, u)].enqueued
  {
    hide OthersClosed, OwnerFree, Full;
  }

  /** However often its target changes or it is deferred, a request that keeps
      waiting keeps its original enqueue time. */
  lemma {:induction false} EnqueueTimeIsKept(t: Tables, ops: seq<Timed>, g: Guild, u: User)
    requires Waits(t, ops, g, u)
    ensures (g, u) in Replay(t, ops).joins
    ensures Replay(t, ops).joins[(g, u)].enqueued == t.joins[(g, u)].enqueued
    decreases |ops|
  {
    hide Commit;
    if ops != [] {
      CommitKeepsEnqueueTime(t, ops[0].op, ops[0].now, g, u);
      EnqueueTimeIsKept(Commit(t, ops[0].op, ops[0].now), ops[1..], g, u);
    }
  }

  // ---- repetition ----------------------------------------------------------

  lemma OnlyOthersMatter(n: map<IntentId, Intent>, m: map<IntentId, Intent>, i: IntentId, v: Intent)
    requires i in n && m == n[i := v] && v.guild == n[i].guild && v.user == n[i].user
    ensures OthersClosed(m, i) == OthersClosed(n, i)
  {
    assert forall j | j != i :: (j in n.Keys <==> j in m.Keys) && (j in n.Keys ==> n[j] == m[j]);
  }

  lemma OwnerFreeSkips(rooms: map<Channel, Room>, c: Channel, v: Room, g: Guild, u: User)
    ensures OwnerFree(rooms[c := v], c, g, u) == OwnerFree(rooms, c, g, u)
  {
    var m := rooms[c := v];
    assert forall r | r != c :: (r in rooms.Keys <==> r in m.Keys) && (r in rooms.Keys ==> rooms[r] == m[r]);
  }

  lemma PhaseTwice(t: Tables, i: IntentId, p: Phase)
    requires SetPhase(t, i, p).Some?
    ensures SetPhase(SetPhase(t, i, p).value, i, p) == SetPhase(t, i, p)
  {
    hide OthersClosed;
    if i in t.intents {
      var v := t.intents[i].(phase := p);
      OnlyOthersMatter(t.intents, t.intents[i := v], i, v);
      assert t.intents[i := v][i := v] == t.intents[i := v];
    }
  }

  lemma AttachTwice(t: Tables, i: IntentId, g: Guild, u: User, profile: Profile, c: Channel)
    requires Attach(t, i, g, u, profile, c).Some?
    ensures Attach(Attach(t, i, g, u, profile, c).value, i, g, u, profile, c) == Attach(t, i, g, u, profile, c)
  {
    hide OthersClosed, OwnerFree;
    if i in t.intents {
      var v := t.intents[i].(channel := Some(c), phase := Created);
      OnlyOthersMatter(t.intents, t.intents[i := v], i, v);
      assert t.intents[i := v][i := v] == t.intents[i := v];
    }
  }

  lemma TransferTwice(t: Tables, c: Channel, u: User)
    requires Transfer(t, c, u).Some?
    ensures Transfer(Transfer(t, c, u).value, c, u) == Transfer(t, c, u)
  {
    hide OwnerFree;
    if c in t.rooms {
      var v := t.rooms[c].(owner := u);
      OwnerFreeSkips(t.rooms, c, v, v.guild, u);
      assert t.rooms[c := v][c := v] == t.rooms[c := v];
    }
  }

  lemma InsertedOnce(t: Tables, row: Join, now: real, later: real)
    requires IdsMinted(t)
    ensures Commit(Commit(t, OpIntent(row), now), OpIntent(row), later) == Commit(t, OpIntent(row), now)
  {
    if !exists i :: OpenFor(t, i, row.guild, row.user) {
      assert OpenFor(InsertIntent(t, row, now), t.minted, row.guild, row.user);
    }
  }

  lemma QueueTwice(t: Tables, op: Op, now: real, later: real)
    requires op.OpEnqueue? || op.OpCancel? || op.OpAddCleanup? || (op.OpCleanupResult? && op.again.None?) || op.OpDropRoom?
             || op.OpSetPanel?
    ensures Commit(Commit(t, op, now), op, later) == Commit(t, op, now)
  {
    hide Full;
  }

  lemma SweepTwice(t: Tables, op: Op, now: real, later: real)
    requires op.OpRestore? || op.OpDeleted? || op.OpComplete?
    ensures Commit(Commit(t, op, now), op, later) == Commit(t, op, now)
  {
    assert Commit(Commit(t, op, now), op, later).intents == Commit(t, op, now).intents;
  }

  /** Repeating a transaction, however much later, changes nothing more: only a
      deferral moves a due time again. */
  lemma RepeatingChangesNothing(t: Tables, op: Op, now: real, later: real)
    requires IdsMinted(t) && !op.OpDefer? && !(op.OpCleanupResult? && op.again.Some?)
    ensures Commit(Commit(t, op, now), op, later) == Commit(t, op, now)
  {
    if op.OpIntent? {
      InsertedOnce(t, op.row, now, later);
    } else if op.OpPhase? {
      hide SetPhase;
      if SetPhase(t, op.i, op.p).Some? {
        PhaseTwice(t, op.i, op.p);
      }
    } else if op.OpAttach? {
      hide Attach;
      if Attach(t, op.i, op.g, op.u, op.profile, op.c).Some? {
        AttachTwice(t, op.i, op.g, op.u, op.profile, op.c);
      }
    } else if op.OpTransfer? {
      hide Transfer;
      if Transfer(t, op.c, op.u).Some? {
        TransferTwice(t, op.c, op.u);
      }
    } else {
      hide Commit;
      if op.OpRestore? || op.OpDeleted? || op.OpComplete? {
        SweepTwice(t, op, now, later);
      } else {
        QueueTwice(t, op, now, later);
      }
    }
  }

  // ---- refusals ------------------------------------------------------------

  /** Someone other than channel c already gives (g, u) a tracked room. */
  ghost predicate OwnsAnother(t: Tables, c: Channel, g: Guild, u: User) {
    exists o :: o in t.rooms && o != c && t.rooms[o].guild == g && t.rooms[o].owner == u
  }

  ghost predicate HasAnotherOpen(t: Tables, i: IntentId)
    requires i in t.intents
  {
    exists j :: j != i && OpenFor(t, j, t.intents[i].guild, t.intents[i].user)
  }

  /** Attach is refused exactly when the channel belongs to someone else, the
      owner already has another room, or the owner has another open intent. */
  lemma AttachRefusedExactly(t: Tables, i: IntentId, g: Guild, u: User, profile: Profile, c: Channel)
    requires OneRoomEach(t.rooms) && i in t.intents
    ensures Attach(t, i, g, u, profile, c).None? <==>
            || (c in t.rooms && (t.rooms[c].guild, t.rooms[c].owner) != (g, u))
            || OwnsAnother(t, c, g, u)
            || HasAnotherOpen(t, i)
  {
    assert OwnerFree(t.rooms, c, g, u) <==> !OwnsAnother(t, c, g, u);
    OthersClosedMeans(t, i);
  }

  lemma OthersClosedMeans(t: Tables, i: IntentId)
    requires i in t.intents
    ensures OthersClosed(t.intents, i) <==> !HasAnotherOpen(t, i)
  {
    if !OthersClosed(t.intents, i) {
      var j :| j in t.intents && j != i && t.intents[j].guild == t.intents[i].guild
               && t.intents[j].user == t.intents[i].user && Open(t.intents[j].phase);
      assert OpenFor(t, j, t.intents[i].guild, t.intents[i].user);
    }
  }

  /** An attach that commits displaces and changes no tracked room. */
  lemma AttachDisplacesNothing(t: Tables, i: IntentId, g: Guild, u: User, profile: Profile, c: Channel)
    requires i in t.intents && Attach(t, i, g, u, profile, c).Some?
    ensures var t' := Attach(t, i, g, u, profile, c).value;
            && (forall o | o in t.rooms :: o in t'.rooms && t'.rooms[o] == t.rooms[o])
            && t'.rooms.Keys == t.rooms.Keys + {c}
            && t'.rooms[c].guild == g && t'.rooms[c].owner == u
            && t'.intents[i].channel == Some(c) && t'.intents[i].phase == Created
            && (forall j | j in t.intents && j != i :: j in t'.intents && t'.intents[j] == t.intents[j])
  {
  }
}
