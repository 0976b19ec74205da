/** The member handlers and the periodic scan, as the store sees them when no
    worker step falls inside one (services/lifecycle_recovery.py). */
module Handlers {
  import opened Common
  import opened Tables
  import opened RecoveryStore
  import opened StoreRuns

  /** Channel c is the recorded room of one of the intents. */
  ghost predicate RoomOf(n: map<IntentId, Intent>, ids: set<IntentId>, c: Channel) {
    exists i :: i in ids && i in n && n[i].channel == Some(c)
  }

  /** Exactly the rooms of `ids` have a cleanup that is due at once; every other
      cleanup is as it was. */
  ghost predicate CleanupsFor(t: Tables, cleanups: map<CleanupKey, Cleanup>, ids: set<IntentId>, leaver: Option<User>) {
    forall k: CleanupKey ::
      if k.leaver == leaver && RoomOf(t.intents, ids, k.channel)
      then k in cleanups && cleanups[k].due == 0.0 && (k in t.cleanups ==> cleanups[k].guild == t.cleanups[k].guild)
      else (k in cleanups <==> k in t.cleanups) && (k in cleanups ==> cleanups[k] == t.cleanups[k])
  }

  /** The intents in `ids` were cancelled, each recorded room of those in
      `cleaned` has a cleanup that is due now, and nothing else changed but the
      join queue. */
  ghost predicate Released(t: Tables, t': Tables, ids: set<IntentId>, cleaned: set<IntentId>, leaver: Option<User>) {
    && ids <= t.intents.Keys && t'.intents.Keys == t.intents.Keys
    && (forall i | i in t.intents ::
          t'.intents[i] == if i in ids then t.intents[i].(phase := Cancelled) else t.intents[i])
    && CleanupsFor(t, t'.cleanups, cleaned, leaver)
    && t'.rooms == t.rooms && t'.created == t.created
  }

  lemma RoomOfOneMore(n: map<IntentId, Intent>, ids: set<IntentId>, i: IntentId, c: Channel)
    requires i in n
    ensures RoomOf(n, ids + {i}, c) <==> RoomOf(n, ids, c) || n[i].channel == Some(c)
  {
    if RoomOf(n, ids, c) {
      var j :| j in ids && j in n && n[j].channel == Some(c);
      assert j in ids + {i};
    }
    if n[i].channel == Some(c) {
      assert i in ids + {i};
    }
  }

  lemma CleanupOneMore(t: Tables, t1: Tables, ids: set<IntentId>, leaver: Option<User>, i: IntentId, g: Guild)
    requires i in t.intents && CleanupsFor(t, t1.cleanups, ids, leaver)
    ensures t.intents[i].channel.Some? ==>
              CleanupsFor(t, AddCleanup(t1, g, t.intents[i].channel.value, leaver).cleanups, ids + {i}, leaver)
    ensures t.intents[i].channel.None? ==> CleanupsFor(t, t1.cleanups, ids + {i}, leaver)
  {
    hide RoomOf;
    forall k: CleanupKey
      ensures RoomOf(t.intents, ids + {i}, k.channel)
              <==> RoomOf(t.intents, ids, k.channel) || t.intents[i].channel == Some(k.channel)
    {
      RoomOfOneMore(t.intents, ids, i, k.channel);
    }
  }

  lemma ReleaseOne(t: Tables, t1: Tables, ids: set<IntentId>, cleaned: set<IntentId>, leaver: Option<User>, i: IntentId)
    requires Released(t, t1, ids, cleaned, leaver) && i in t.intents && i !in ids
    ensures var t2 := t1.(intents := WithPhase(t1.intents, i, Cancelled));
            var c := t.intents[i].channel;
            && Released(t, t2, ids + {i}, cleaned, leaver)
            && Released(t, if c.Some? then AddCleanup(t2, t.intents[i].guild, c.value, leaver) else t2,
                        ids + {i}, cleaned + {i}, leaver)
  {
    hide CleanupsFor;
    var t2 := t1.(intents := WithPhase(t1.intents, i, Cancelled));
    CleanupOneMore(t, t2, cleaned, leaver, i, t.intents[i].guild);
  }

  lemma NothingReleased(t: Tables, leaver: Option<User>)
    ensures Released(t, t, {}, {}, leaver)
  {
  }

  /** Departure work of (g, u). */
  function Abandonable(n: map<IntentId, Intent>, g: Guild, u: User, panels: bool): set<IntentId> {
    set i | i in n.Keys && n[i].guild == g && n[i].user == u
            && (n[i].phase in {Prepared, Created, Moved} || (panels && n[i].phase == PanelBlocked))
  }

  /** The member was moved into the room of their own intent. */
  predicate MovedIn(n: map<IntentId, Intent>, g: Guild, u: User, after: Option<Channel>) {
    exists i :: i in n.Keys && n[i].guild == g && n[i].user == u && n[i].channel.Some? && n[i].channel == after
                && n[i].phase in {Created, Moved, PanelBlocked}
  }

  /** The certain work of (g, u), every intent of theirs in one of these phases,
      is ended: each such intent is cancelled and its recorded room has a cleanup
      that is due now under this leaver; every other intent and cleanup, and every
      room, is as it was. */
  ghost predicate EndsWork(t: Tables, t': Tables, g: Guild, u: User, phases: set<Phase>, leaver: Option<User>) {
    && t'.intents.Keys == t.intents.Keys
    && (forall i | i in t.intents ::
          t'.intents[i] == if t.intents[i].guild == g && t.intents[i].user == u && t.intents[i].phase in phases
                           then t.intents[i].(phase := Cancelled) else t.intents[i])
    && (forall i | i in t.intents && t.intents[i].guild == g && t.intents[i].user == u && t.intents[i].phase in phases
                   && t.intents[i].channel.Some? ::
          var k := CleanupKey(t.intents[i].channel.value, leaver); k in t'.cleanups && t'.cleanups[k].due == 0.0)
    && (forall k: CleanupKey | k.leaver != leaver || !RoomIn(t.intents, g, u, phases, k.channel) ::
          (k in t'.cleanups <==> k in t.cleanups) && (k in t'.cleanups ==> t'.cleanups[k] == t.cleanups[k]))
    && t'.rooms == t.rooms && t'.created == t.created
  }

  /** Channel c is the recorded room of an intent of (g, u) in one of the phases. */
  ghost predicate RoomIn(n: map<IntentId, Intent>, g: Guild, u: User, phases: set<Phase>, c: Channel) {
    exists i :: i in n && n[i].guild == g && n[i].user == u && n[i].phase in phases && n[i].channel == Some(c)
  }

  lemma AbandonableAre(n: map<IntentId, Intent>, g: Guild, u: User, panels: bool)
    ensures var phases := if panels then {Prepared, Created, Moved, PanelBlocked} else {Prepared, Created, Moved};
            forall i :: i in Abandonable(n, g, u, panels) <==> i in n && n[i].guild == g && n[i].user == u && n[i].phase in phases
  {
  }

  lemma ReleasingEndsWork(t: Tables, t': Tables, g: Guild, u: User, panels: bool, leaver: Option<User>)
    requires var ids := Abandonable(t.intents, g, u, panels); Released(t, t', ids, ids, leaver)
    ensures EndsWork(t, t', g, u, if panels then {Prepared, Created, Moved, PanelBlocked} else {Prepared, Created, Moved}, leaver)
  {
    var ids := Abandonable(t.intents, g, u, panels);
    var phases := if panels then {Prepared, Created, Moved, PanelBlocked} else {Prepared, Created, Moved};
    AbandonableAre(t.intents, g, u, panels);
    hide Abandonable;
    forall k: CleanupKey ensures RoomOf(t.intents, ids, k.channel) <==> RoomIn(t.intents, g, u, phases, k.channel) {
    }
    hide RoomIn;
    forall i | i in ids && t.intents[i].channel.Some?
      ensures var k := CleanupKey(t.intents[i].channel.value, leaver); k in t'.cleanups && t'.cleanups[k].due == 0.0
    {
      assert RoomOf(t.intents, ids, t.intents[i].channel.value);
    }
  }

  /** The cancelled request does not matter to what is released. */
  lemma OtherTables(t: Tables, g: Guild, u: User, t': Tables, panels: bool, leaver: Option<User>)
    requires var t1 := CancelJoin(t, g, u, None);
             var ids := Abandonable(t1.intents, g, u, panels); Released(t1, t', ids, ids, leaver)
    ensures CancelJoin(t, g, u, None).joins == t.joins - {(g, u)}
    ensures var ids := Abandonable(t.intents, g, u, panels); Released(t, t', ids, ids, leaver)
  {
    if (g, u) !in t.joins {
      assert t.joins - {(g, u)} == t.joins;
    }
  }

  /** The member's move takes them into the recorded room of a join of theirs
      that is created, moved or blocked. */
  ghost predicate ArrivesHome(n: map<IntentId, Intent>, g: Guild, u: User, after: Option<Channel>) {
    after.Some? && RoomIn(n, g, u, {Created, Moved, PanelBlocked}, after.value)
  }

  lemma MovedInMeans(n: map<IntentId, Intent>, g: Guild, u: User, after: Option<Channel>)
    ensures MovedIn(n, g, u, after) <==> ArrivesHome(n, g, u, after)
  {
    if ArrivesHome(n, g, u, after) {
      var i :| i in n && n[i].guild == g && n[i].user == u && n[i].phase in {Created, Moved, PanelBlocked}
               && n[i].channel == Some(after.value);
      assert i in n.Keys;
    }
  }

  // ---- the scan ----------------------------------------------------------------

  /** What the scan does to one intent whose owner waits for nothing, in a guild
      it can see: unsent work is cancelled; a room recorded for a cached member who
      is elsewhere is cancelled and handed to the cleanups; one with its owner
      inside puts the owner back in the queue, if that has space. */
  ghost predicate TidiesOne(t: Tables, t': Tables, sight: Sight, i: IntentId)
    requires i in t.intents && i in t'.intents
  {
    var n := t.intents[i];
    var seen := (n.guild, n.user) !in t.joins && n.guild in sight.guilds;
    var room := seen && n.phase in {Created, Moved} && n.channel.Some? && (n.guild, n.user) in sight.members;
    var home := n.channel.Some? && (n.guild, n.user) in sight.voice && sight.voice[(n.guild, n.user)] == n.channel.value;
    && t'.intents[i] == (if (seen && n.phase == Prepared) || (room && !home) then n.(phase := Cancelled) else n)
    && (room && !home ==> var k := CleanupKey(n.channel.value, None); k in t'.cleanups && t'.cleanups[k].due == 0.0)
    && (room && home ==> (n.guild, n.user) in t'.joins || Full(t'.joins, n.guild))
  }

  /** Every request that waited, every cleanup of a departure and every room is
      as it was. */
  ghost predicate Tidies(t: Tables, t': Tables, sight: Sight) {
    && t'.intents.Keys == t.intents.Keys && (forall i | i in t.intents :: TidiesOne(t, t', sight, i))
    && (forall k | k in t.joins :: k in t'.joins && t'.joins[k] == t.joins[k])
    && (forall k: CleanupKey | k.leaver.Some? ::
          (k in t'.cleanups <==> k in t.cleanups) && (k in t'.cleanups ==> t'.cleanups[k] == t.cleanups[k]))
    && t'.rooms == t.rooms && t'.created == t.created
  }

  /** What the bot sees: reachable guilds, cached members, who is where. */
  datatype Sight = Sight(guilds: set<Guild>, members: set<(Guild, User)>, voice: map<(Guild, User), Channel>)

  function Owner(n: Intent): (Guild, User) {
    (n.guild, n.user)
  }

  /** No request waits for this intent, and its guild is reachable. */
  predicate Idle(n: Intent, pending: set<(Guild, User)>, sight: Sight) {
    Owner(n) !in pending && n.guild in sight.guilds
  }

  predicate InOwnRoom(n: Intent, sight: Sight) {
    n.channel.Some? && Owner(n) in sight.voice && sight.voice[Owner(n)] == n.channel.value
  }

  /** Unsent work nobody waits for. */
  predicate Dropped(n: Intent, pending: set<(Guild, User)>, sight: Sight) {
    n.phase == Prepared && Idle(n, pending, sight)
  }

  predicate HasIdleRoom(n: Intent, pending: set<(Guild, User)>, sight: Sight) {
    n.phase in {Created, Moved} && n.channel.Some? && Idle(n, pending, sight) && Owner(n) in sight.members
  }

  function Droppable(n: map<IntentId, Intent>, pending: set<(Guild, User)>, sight: Sight): set<IntentId> {
    set i | i in n.Keys && Dropped(n[i], pending, sight)
  }

  /** Rooms whose owner is elsewhere. */
  function Deserted(n: map<IntentId, Intent>, pending: set<(Guild, User)>, sight: Sight): set<IntentId> {
    set i | i in n.Keys && HasIdleRoom(n[i], pending, sight) && !InOwnRoom(n[i], sight)
  }

  /** Rooms with their owner inside, whose panel and count are still owed. */
  function Unfinished(n: map<IntentId, Intent>, pending: set<(Guild, User)>, sight: Sight): set<IntentId> {
    set i | i in n.Keys && HasIdleRoom(n[i], pending, sight) && InOwnRoom(n[i], sight)
  }

  /** The owners of `kept` wait again for the target of their intent, as far as
      the queue has room; every other request is as it was. */
  ghost predicate Requeued(t: Tables, joins: map<(Guild, User), Join>, kept: set<IntentId>) {
    && kept <= t.intents.Keys
    && (forall k | k in t.joins :: k in joins && joins[k] == t.joins[k])
    && (forall k | k in joins && k !in t.joins ::
          exists i :: i in kept && Owner(t.intents[i]) == k
                      && SameTarget(joins, k.0, k.1, t.intents[i].lobby, t.intents[i].profile))
    && (forall i | i in kept :: Owner(t.intents[i]) in joins || Full(joins, t.intents[i].guild))
  }

  lemma FullStays(a: map<(Guild, User), Join>, b: map<(Guild, User), Join>, g: Guild)
    requires Full(a, g) && a.Keys <= b.Keys
    ensures Full(b, g)
  {
    assert |a| == |a.Keys| && |b| == |b.Keys|;
    SubsetSize(a.Keys, b.Keys);
    SubsetSize(GuildQueue(a, g), GuildQueue(b, g));
  }

  lemma RequeueOne(t: Tables, t1: Tables, kept: set<IntentId>, i: IntentId, now: real)
    requires Requeued(t, t1.joins, kept) && i in t.intents && i !in kept && Owner(t.intents[i]) !in t.joins
    requires forall j | j in kept :: Owner(t.intents[j]) != Owner(t.intents[i])
    ensures var n := t.intents[i];
            Requeued(t, Enqueue(t1, n.guild, n.user, n.lobby, n.profile, now).joins, kept + {i})
  {
    var n := t.intents[i];
    var joins, more := t1.joins, Enqueue(t1, n.guild, n.user, n.lobby, n.profile, now).joins;
    assert Owner(n) !in joins;
    forall j | j in kept + {i} ensures Owner(t.intents[j]) in more || Full(more, t.intents[j].guild) {
      if j != i && Owner(t.intents[j]) !in joins {
        FullStays(joins, more, t.intents[j].guild);
      }
    }
    forall k | k in more && k !in t.joins
      ensures exists j :: j in kept + {i} && Owner(t.intents[j]) == k
                          && SameTarget(more, k.0, k.1, t.intents[j].lobby, t.intents[j].profile)
    {
      if k == Owner(n) {
        assert i in kept + {i};
      } else {
        var j :| j in kept && Owner(t.intents[j]) == k
                 && SameTarget(joins, k.0, k.1, t.intents[j].lobby, t.intents[j].profile);
        assert j in kept + {i};
      }
    }
  }

  /** The scan has been through the intents in `seen`. */
  ghost predicate Scanned(t: Tables, t1: Tables, sight: Sight, seen: set<IntentId>) {
    var pending := t.joins.Keys;
    var drop, deserted := Droppable(t.intents, pending, sight), Deserted(t.intents, pending, sight);
    && Released(t, t1, (drop + deserted) * seen, deserted * seen, None)
    && Requeued(t, t1.joins, Unfinished(t.intents, pending, sight) * seen)
  }

  lemma ScanStarts(t: Tables, sight: Sight)
    ensures Scanned(t, t, sight, t.intents.Keys - t.intents.Keys)
  {
    hide Dropped, HasIdleRoom, InOwnRoom;
    assert t.intents.Keys - t.intents.Keys == {};
  }

  lemma ScanEnds(t: Tables, t1: Tables, sight: Sight)
    requires Scanned(t, t1, sight, t.intents.Keys - {})
    ensures var pending := t.joins.Keys;
            var drop, deserted := Droppable(t.intents, pending, sight), Deserted(t.intents, pending, sight);
            && Released(t, t1, drop + deserted, deserted, None)
            && Requeued(t, t1.joins, Unfinished(t.intents, pending, sight))
  {
    hide Dropped, HasIdleRoom, InOwnRoom, Released, Requeued;
    var drop, deserted := Droppable(t.intents, t.joins.Keys, sight), Deserted(t.intents, t.joins.Keys, sight);
    var kept := Unfinished(t.intents, t.joins.Keys, sight);
    var all := t.intents.Keys - {};
    assert (drop + deserted) * all == drop + deserted && deserted * all == deserted && kept * all == kept;
  }

  /** The sets of the scan, one intent further. */
  lemma OneMoreSeen(t: Tables, sight: Sight, seen: set<IntentId>, i: IntentId)
    requires i in t.intents && i !in seen
    ensures var pending, n := t.joins.Keys, t.intents;
            var drop, deserted := Droppable(n, pending, sight), Deserted(n, pending, sight);
            var kept := Unfinished(n, pending, sight);
            var a, b, c := Dropped(n[i], pending, sight), HasIdleRoom(n[i], pending, sight), InOwnRoom(n[i], sight);
            && (drop + deserted) * (seen + {i}) ==
               (if a || (b && !c) then (drop + deserted) * seen + {i} else (drop + deserted) * seen)
            && deserted * (seen + {i}) == (if b && !c then deserted * seen + {i} else deserted * seen)
            && kept * (seen + {i}) == (if b && c then kept * seen + {i} else kept * seen)
  {
    hide Dropped, HasIdleRoom, InOwnRoom;
  }

  lemma RoomAndDropExclude(n: Intent, pending: set<(Guild, User)>, sight: Sight)
    ensures !(Dropped(n, pending, sight) && HasIdleRoom(n, pending, sight))
  {
  }

  lemma ScanSkips(t: Tables, t1: Tables, sight: Sight, seen: set<IntentId>, i: IntentId)
    requires Scanned(t, t1, sight, seen) && i in t.intents && i !in seen
    requires !Dropped(t.intents[i], t.joins.Keys, sight) && !HasIdleRoom(t.intents[i], t.joins.Keys, sight)
    ensures Scanned(t, t1, sight, seen + {i})
  {
    hide Dropped, HasIdleRoom, InOwnRoom, Released, Requeued, Droppable, Deserted, Unfinished;
    OneMoreSeen(t, sight, seen, i);
  }

  lemma ScanDrops(t: Tables, t1: Tables, sight: Sight, seen: set<IntentId>, i: IntentId)
    requires Scanned(t, t1, sight, seen) && i in t.intents && i !in seen
    requires Dropped(t.intents[i], t.joins.Keys, sight)
    ensures i in t1.intents && Scanned(t, t1.(intents := WithPhase(t1.intents, i, Cancelled)), sight, seen + {i})
  {
    RoomAndDropExclude(t.intents[i], t.joins.Keys, sight);
    hide Dropped, HasIdleRoom, InOwnRoom, Requeued, Droppable, Deserted, Unfinished, CleanupsFor;
    OneMoreSeen(t, sight, seen, i);
    var drop, deserted := Droppable(t.intents, t.joins.Keys, sight), Deserted(t.intents, t.joins.Keys, sight);
    ReleaseOne(t, t1, (drop + deserted) * seen, deserted * seen, None, i);
  }

  lemma ScanDeserts(t: Tables, t1: Tables, sight: Sight, seen: set<IntentId>, i: IntentId)
    requires Scanned(t, t1, sight, seen) && i in t.intents && i !in seen
    requires !Dropped(t.intents[i], t.joins.Keys, sight)
    requires HasIdleRoom(t.intents[i], t.joins.Keys, sight) && !InOwnRoom(t.intents[i], sight)
    ensures i in t1.intents && t.intents[i].channel.Some?
    ensures var t2 := t1.(intents := WithPhase(t1.intents, i, Cancelled));
            Scanned(t, AddCleanup(t2, t.intents[i].guild, t.intents[i].channel.value, None), sight, seen + {i})
  {
    hide Dropped, InOwnRoom, Requeued, Droppable, Deserted, Unfinished, CleanupsFor;
    OneMoreSeen(t, sight, seen, i);
    var drop, deserted := Droppable(t.intents, t.joins.Keys, sight), Deserted(t.intents, t.joins.Keys, sight);
    ReleaseOne(t, t1, (drop + deserted) * seen, deserted * seen, None, i);
  }

  /** Two unfinished rooms never have one owner, and neither owner waits. */
  lemma UnfinishedOwners(t: Tables, sight: Sight, seen: set<IntentId>, i: IntentId)
    requires OneOpenIntentEach(t.intents) && i in t.intents && i !in seen
    requires HasIdleRoom(t.intents[i], t.joins.Keys, sight) && InOwnRoom(t.intents[i], sight)
    ensures Owner(t.intents[i]) !in t.joins
    ensures forall j | j in Unfinished(t.intents, t.joins.Keys, sight) * seen ::
              Owner(t.intents[j]) != Owner(t.intents[i])
  {
  }

  lemma ScanRequeues(t: Tables, t1: Tables, sight: Sight, seen: set<IntentId>, i: IntentId, now: real)
    requires Scanned(t, t1, sight, seen) && i in t.intents && i !in seen && OneOpenIntentEach(t.intents)
    requires !Dropped(t.intents[i], t.joins.Keys, sight)
    requires HasIdleRoom(t.intents[i], t.joins.Keys, sight) && InOwnRoom(t.intents[i], sight)
    ensures var n := t.intents[i];
            Scanned(t, Enqueue(t1, n.guild, n.user, n.lobby, n.profile, now), sight, seen + {i})
  {
    hide OneOpenIntentEach, Dropped, HasIdleRoom, InOwnRoom, Requeued, Released, Droppable, Deserted, Unfinished;
    hide Enqueue;
    var n := t.intents[i];
    var kept := Unfinished(t.intents, t.joins.Keys, sight);
    UnfinishedOwners(t, sight, seen, i);
    OneMoreSeen(t, sight, seen, i);
    RequeueOne(t, t1, kept * seen, i, now);
    var drop, deserted := Droppable(t.intents, t.joins.Keys, sight), Deserted(t.intents, t.joins.Keys, sight);
    EnqueueReleasesNothing(t, t1, (drop + deserted) * seen, deserted * seen, n, now);
  }

  lemma EnqueueReleasesNothing(t: Tables, t1: Tables, ids: set<IntentId>, cleaned: set<IntentId>, n: Intent, now: real)
    requires Released(t, t1, ids, cleaned, None)
    ensures Released(t, Enqueue(t1, n.guild, n.user, n.lobby, n.profile, now), ids, cleaned, None)
  {
    hide CleanupsFor;
  }

  lemma WellFormedIndex(t: Tables)
    requires WellFormed(t)
    ensures OneOpenIntentEach(t.intents)
  {
  }

  lemma ScanTidiesOne(t: Tables, t': Tables, sight: Sight, i: IntentId)
    requires i in t.intents
    requires var pending := t.joins.Keys;
             var drop, deserted := Droppable(t.intents, pending, sight), Deserted(t.intents, pending, sight);
             && Released(t, t', drop + deserted, deserted, None)
             && Requeued(t, t'.joins, Unfinished(t.intents, pending, sight))
    ensures TidiesOne(t, t', sight, i)
  {
    var deserted := Deserted(t.intents, t.joins.Keys, sight);
    assert i in deserted ==> RoomOf(t.intents, deserted, t.intents[i].channel.value);
    assert CleanupsFor(t, t'.cleanups, deserted, None);
    hide Full, SameTarget, RoomOf;
  }

  lemma ScanTidies(t: Tables, t': Tables, sight: Sight)
    requires var pending := t.joins.Keys;
             var drop, deserted := Droppable(t.intents, pending, sight), Deserted(t.intents, pending, sight);
             && Released(t, t', drop + deserted, deserted, None)
             && Requeued(t, t'.joins, Unfinished(t.intents, pending, sight))
    ensures Tidies(t, t', sight)
  {
    hide Full, SameTarget, TidiesOne, RoomOf;
    forall i | i in t.intents ensures TidiesOne(t, t', sight, i) {
      ScanTidiesOne(t, t', sight, i);
    }
  }

  /** What the scan writes for one intent of its snapshot. */
  function ScanEffect(t: Tables, i: IntentId, n: Intent, pending: set<(Guild, User)>, sight: Sight, now: real): Tables {
    var cancelled := if i in t.intents then t.(intents := WithPhase(t.intents, i, Cancelled)) else t;
    if Dropped(n, pending, sight) then cancelled
    else if !HasIdleRoom(n, pending, sight) then t
    else if InOwnRoom(n, sight) then Enqueue(t, n.guild, n.user, n.lobby, n.profile, now)
    else AddCleanup(cancelled, n.guild, n.channel.value, None)
  }

  lemma ScanStep(t: Tables, t1: Tables, sight: Sight, seen: set<IntentId>, i: IntentId, now: real)
    requires Scanned(t, t1, sight, seen) && i in t.intents && i !in seen && OneOpenIntentEach(t.intents)
    ensures Scanned(t, ScanEffect(t1, i, t.intents[i], t.joins.Keys, sight, now), sight, seen + {i})
  {
    hide Scanned, OneOpenIntentEach, Dropped, InOwnRoom, Enqueue, AddCleanup, Idle;
    var n := t.intents[i];
    if Dropped(n, t.joins.Keys, sight) {
      ScanDrops(t, t1, sight, seen, i);
    } else if !HasIdleRoom(n, t.joins.Keys, sight) {
      ScanSkips(t, t1, sight, seen, i);
    } else if InOwnRoom(n, sight) {
      ScanRequeues(t, t1, sight, seen, i, now);
    } else {
      ScanDeserts(t, t1, sight, seen, i);
    }
  }

  class LifecycleRecovery {
    const store: RecoveryStore
    var overflow: nat

    constructor (store: RecoveryStore)
      ensures this.store == store && overflow == 0
    {
      this.store := store;
      overflow := 0;
    }

    method EnqueueMember(g: Guild, u: User, lobby: Channel, profile: Profile, now: real) returns (accepted: bool)
      requires store.Valid()
      modifies this, store
      ensures store.Valid() && store.View() == Enqueue(old(store.View()), g, u, lobby, profile, now)
      ensures accepted == Accepts(old(store.View()), g, u)
      ensures overflow == old(overflow) + (if accepted then 0 else 1)
    {
      accepted := store.EnqueueJoin(g, u, lobby, profile, now);
      if !accepted {
        overflow := overflow + 1;
      }
    }

    /** Cancels one intent, and asks for the cleanup of its room. */
    method ReleaseIntent(i: IntentId, g: Guild, c: Option<Channel>, leaver: Option<User>)
      requires store.Valid() && i in store.intents
      modifies store
      ensures store.Valid()
      ensures var t := old(store.View());
              var t2 := t.(intents := WithPhase(t.intents, i, Cancelled));
              store.View() == if c.Some? then AddCleanup(t2, g, c.value, leaver) else t2
    {
      hide WellFormed, AddCleanup;
      var _ := store.WritePhase(i, Cancelled);
      if c.Some? {
        store.QueueCleanup(g, c.value, leaver);
      }
    }

    /** Cancels the listed intents, each with its cleanup. */
    method ReleaseAll(ids: set<IntentId>, leaver: Option<User>)
      requires store.Valid() && ids <= store.intents.Keys
      modifies store
      ensures store.Valid() && store.joins == old(store.joins) && store.minted == old(store.minted)
      ensures Released(old(store.View()), store.View(), ids, ids, leaver)
    {
      hide WellFormed, CleanupsFor;
      ghost var t := store.View();
      var n, todo := store.intents, ids;
      NothingReleased(t, leaver);
      assert ids - todo == {};
      while todo != {}
        invariant todo <= ids && store.Valid() && store.joins == t.joins && store.minted == t.minted
        invariant Released(t, store.View(), ids - todo, ids - todo, leaver)
        decreases |todo|
      {
        var i :| i in todo;
        ReleaseOne(t, store.View(), ids - todo, ids - todo, leaver, i);
        ReleaseIntent(i, n[i].guild, n[i].channel, leaver);
        assert ids - (todo - {i}) == (ids - todo) + {i};
        todo := todo - {i};
      }
      assert ids - todo == ids;
    }

    /** A voice departure. Landing in the own room is no departure; otherwise
        the request goes, and every intent that is certainly not in transmission
        is cancelled. */
    method CancelDeparture(g: Guild, u: User, after: Option<Channel>)
      requires store.Valid()
      modifies store
      ensures store.Valid()
      ensures MovedIn(old(store.intents), g, u, after) ==> store.View() == old(store.View())
      ensures !MovedIn(old(store.intents), g, u, after) ==>
                && store.joins == old(store.joins) - {(g, u)} && store.minted == old(store.minted)
                && var ids := Abandonable(old(store.intents), g, u, true);
                   Released(old(store.View()), store.View(), ids, ids, Some(u))
      ensures ArrivesHome(old(store.intents), g, u, after) ==> store.View() == old(store.View())
      ensures !ArrivesHome(old(store.intents), g, u, after) ==>
                && (g, u) !in store.joins
                && EndsWork(old(store.View()), store.View(), g, u, {Prepared, Created, Moved, PanelBlocked}, Some(u))
    {
      MovedInMeans(store.intents, g, u, after);
      if MovedIn(store.intents, g, u, after) {
        return;
      }
      ghost var t := store.View();
      hide ArrivesHome, WellFormed, CleanupsFor, MovedIn, EndsWork;
      var _ := store.Cancel(g, u, None);
      ReleaseAll(Abandonable(store.intents, g, u, true), Some(u));
      OtherTables(t, g, u, store.View(), true, Some(u));
      hide Released, CancelJoin;
      ReleasingEndsWork(t, store.View(), g, u, true, Some(u));
    }

    /** The member left the guild; a blocked panel keeps its room. */
    method CancelMemberRemoval(g: Guild, u: User)
      requires store.Valid()
      modifies store
      ensures store.Valid()
      ensures store.joins == old(store.joins) - {(g, u)} && store.minted == old(store.minted)
      ensures var ids := Abandonable(old(store.intents), g, u, false);
              Released(old(store.View()), store.View(), ids, ids, None)
      ensures EndsWork(old(store.View()), store.View(), g, u, {Prepared, Created, Moved}, None)
    {
      ghost var t := store.View();
      hide WellFormed, CleanupsFor, EndsWork;
      var _ := store.Cancel(g, u, None);
      ReleaseAll(Abandonable(store.intents, g, u, false), None);
      OtherTables(t, g, u, store.View(), false, None);
      hide Released, CancelJoin;
      ReleasingEndsWork(t, store.View(), g, u, false, None);
    }

    /** The worker's abandon: the queue row only in the revision it holds, the
        intent only if the copy it holds is not in doubt. */
    method Abandon(row: Join, held: Option<(IntentId, Phase, Option<Channel>)>)
      requires store.Valid()
      modifies store
      ensures store.Valid()
      ensures store.joins == CancelJoin(old(store.View()), row.guild, row.user, Some(row.revision)).joins
      ensures held.None? || held.value.1 == Sent || held.value.1 == Unresolved ==>
                store.intents == old(store.intents) && store.cleanups == old(store.cleanups)
      ensures held.Some? && held.value.1 != Sent && held.value.1 != Unresolved ==>
                && store.intents == (if held.value.0 in old(store.intents)
                                     then WithPhase(old(store.intents), held.value.0, Cancelled) else old(store.intents))
                && store.cleanups == (if held.value.2.Some?
                                      then AddCleanup(old(store.View()), row.guild, held.value.2.value, None).cleanups
                                      else old(store.cleanups))
      ensures store.rooms == old(store.rooms) && store.created == old(store.created)
    {
      hide WellFormed;
      var _ := store.Cancel(row.guild, row.user, Some(row.revision));
      if held.Some? && held.value.1 != Unresolved && held.value.1 != Sent {
        var _ := store.WritePhase(held.value.0, Cancelled);
        if held.value.2.Some? {
          store.QueueCleanup(row.guild, held.value.2.value, None);
        }
      }
    }

    /** One intent of the scan, from the snapshot the scan took. */
    method ScanIntent(i: IntentId, n: Intent, pending: set<(Guild, User)>, sight: Sight, now: real)
      requires store.Valid()
      modifies store
      ensures store.Valid() && store.View() == ScanEffect(old(store.View()), i, n, pending, sight, now)
    {
      hide WellFormed, Idle, InOwnRoom, Enqueue, AddCleanup;
      if Dropped(n, pending, sight) {
        var _ := store.WritePhase(i, Cancelled);
      } else if HasIdleRoom(n, pending, sight) {
        if InOwnRoom(n, sight) {
          var _ := store.EnqueueJoin(n.guild, n.user, n.lobby, n.profile, now);
        } else {
          var _ := store.WritePhase(i, Cancelled);
          store.QueueCleanup(n.guild, n.channel.value, None);
        }
      }
    }

    /** The second half of scan: what a restart or a lost event left behind. */
    method AdoptLeftovers(sight: Sight, now: real)
      requires store.Valid()
      modifies store
      ensures store.Valid()
      ensures var n, pending := old(store.intents), old(store.joins.Keys);
              var deserted := Deserted(n, pending, sight);
              && Released(old(store.View()), store.View(), Droppable(n, pending, sight) + deserted, deserted, None)
              && Requeued(old(store.View()), store.joins, Unfinished(n, pending, sight))
      ensures Tidies(old(store.View()), store.View(), sight)
    {
      hide WellFormed, Tidies, Scanned, ScanEffect, Released, Requeued, Droppable, Deserted, Unfinished;
      ghost var t := store.View();
      WellFormedIndex(t);
      var n, pending, todo := store.intents, store.joins.Keys, store.intents.Keys;
      ScanStarts(t, sight);
      while todo != {}
        invariant todo <= n.Keys && store.Valid()
        invariant Scanned(t, store.View(), sight, n.Keys - todo)
        decreases |todo|
      {
        var i :| i in todo;
        ScanStep(t, store.View(), sight, n.Keys - todo, i, now);
        ScanIntent(i, n[i], pending, sight, now);
        assert n.Keys - (todo - {i}) == (n.Keys - todo) + {i};
        todo := todo - {i};
      }
      ScanEnds(t, store.View(), sight);
      ScanTidies(t, store.View(), sight);
    }
  }
}
