/** The durable tables of the recovery protocol and the transactions on them
    (services/recovery_store.py, schema.sql). One function is one committed
    transaction; `None` is a transaction that raised and changed nothing. */
module Tables {
  import opened Common

  datatype Phase = Prepared | Sent | Created | Moved | Completed | Unresolved | Cancelled | PanelBlocked

  /** The partial unique index on intents covers exactly these phases. */
  predicate Open(p: Phase) {
    p != Completed && p != Cancelled
  }

  /** A row of pending_joins, keyed by (guild, user). */
  datatype Join = Join(guild: Guild, user: User, lobby: Channel, profile: Profile,
                       revision: Revision, enqueued: real, due: real)

  /** A row of creation_intents, keyed by its id. */
  datatype Intent = Intent(guild: Guild, user: User, lobby: Channel, profile: Profile, phase: Phase,
                           channel: Option<Channel>, created: real, completed: Option<real>)

  /** A row of active_temp_channels, keyed by its channel. */
  datatype Room = Room(guild: Guild, profile: Profile, owner: User, panel: Option<nat>)

  /** The key of pending_cleanup; `None` stands for the leaver id "0". */
  datatype CleanupKey = CleanupKey(channel: Channel, leaver: Option<User>)
  datatype Cleanup = Cleanup(guild: Guild, due: real)

  /** `created` counts room_created telemetry; `minted` is the uuid source,
      which never repeats a value. */
  datatype Tables = Tables(joins: map<(Guild, User), Join>,
                           intents: map<IntentId, Intent>,
                           rooms: map<Channel, Room>,
                           cleanups: map<CleanupKey, Cleanup>,
                           created: nat,
                           minted: nat)

  const EMPTY := Tables(map[], map[], map[], map[], 0, 0)
  const MAX_PENDING := 500
  const MAX_PENDING_PER_GUILD := 50

  // ---- pending_joins -------------------------------------------------------

  function GuildQueue(joins: map<(Guild, User), Join>, g: Guild): set<(Guild, User)> {
    set k | k in joins.Keys && k.0 == g
  }

  /** True when a first request of (g, u) would overflow a bound. */
  predicate Full(joins: map<(Guild, User), Join>, g: Guild) {
    |joins| >= MAX_PENDING || |GuildQueue(joins, g)| >= MAX_PENDING_PER_GUILD
  }

  predicate SameTarget(joins: map<(Guild, User), Join>, g: Guild, u: User, lobby: Channel, profile: Profile) {
    (g, u) in joins && joins[(g, u)].lobby == lobby && joins[(g, u)].profile == profile
  }

  predicate Accepts(t: Tables, g: Guild, u: User) {
    (g, u) in t.joins || !Full(t.joins, g)
  }

  function Enqueue(t: Tables, g: Guild, u: User, lobby: Channel, profile: Profile, now: real): Tables {
    if SameTarget(t.joins, g, u, lobby, profile) || !Accepts(t, g, u) then t
    else
      var first := if (g, u) in t.joins then t.joins[(g, u)].enqueued else now;
      t.(joins := t.joins[(g, u) := Join(g, u, lobby, profile, t.minted, first, 0.0)],
         minted := t.minted + 1)
  }

  predicate Current(t: Tables, row: Join) {
    (row.guild, row.user) in t.joins && t.joins[(row.guild, row.user)].revision == row.revision
  }

  function CancelJoin(t: Tables, g: Guild, u: User, revision: Option<Revision>): Tables {
    if (g, u) in t.joins && (revision.None? || t.joins[(g, u)].revision == revision.value)
    then t.(joins := t.joins - {(g, u)})
    else t
  }

  function Defer(t: Tables, row: Join, delay: real, now: real): Tables {
    if Current(t, row)
    then t.(joins := t.joins[(row.guild, row.user) :=
                               t.joins[(row.guild, row.user)].(due := now + Max(1.0, delay))])
    else t
  }

  // ---- creation_intents ----------------------------------------------------

  predicate OpenFor(t: Tables, i: IntentId, g: Guild, u: User) {
    i in t.intents && t.intents[i].guild == g && t.intents[i].user == u && Open(t.intents[i].phase)
  }

  /** Every other intent of this owner is closed. */
  predicate OthersClosed(n: map<IntentId, Intent>, i: IntentId)
    requires i in n
  {
    forall j | j in n.Keys && j != i && n[j].guild == n[i].guild && n[j].user == n[i].user :: !Open(n[j].phase)
  }

  function InsertIntent(t: Tables, row: Join, now: real): Tables {
    t.(intents := t.intents[t.minted := Intent(row.guild, row.user, row.lobby, row.profile, Prepared, None, now, None)],
       minted := t.minted + 1)
  }

  function WithPhase(n: map<IntentId, Intent>, i: IntentId, p: Phase): map<IntentId, Intent>
    requires i in n
  {
    n[i := n[i].(phase := p)]
  }

  /** The unconditional phase update; it raises when it would open a second
      intent for the owner. */
  function SetPhase(t: Tables, i: IntentId, p: Phase): Option<Tables> {
    if i !in t.intents then Some(t)
    else if Open(p) && !OthersClosed(t.intents, i) then None
    else Some(t.(intents := WithPhase(t.intents, i, p)))
  }

  /** No other channel of the guild belongs to this owner. */
  predicate OwnerFree(rooms: map<Channel, Room>, c: Channel, g: Guild, u: User) {
    forall r | r in rooms.Keys && r != c :: !(rooms[r].guild == g && rooms[r].owner == u)
  }

  /** Room row and intent row commit together or not at all. */
  function Attach(t: Tables, i: IntentId, g: Guild, u: User, profile: Profile, c: Channel): Option<Tables> {
    if c in t.rooms && !(t.rooms[c].guild == g && t.rooms[c].owner == u) then None
    else if c !in t.rooms && !OwnerFree(t.rooms, c, g, u) then None
    else
      var rooms := if c in t.rooms then t.rooms else t.rooms[c := Room(g, profile, u, None)];
      if i !in t.intents then Some(t.(rooms := rooms))
      else if !OthersClosed(t.intents, i) then None
      else Some(t.(rooms := rooms,
                   intents := t.intents[i := t.intents[i].(channel := Some(c), phase := Created)]))
  }

  function Complete(t: Tables, i: IntentId, now: real): Tables {
    if i in t.intents && t.intents[i].phase == Moved
    then t.(intents := t.intents[i := t.intents[i].(phase := Completed, completed := Some(now))],
            created := t.created + 1)
    else t
  }

  function Restore(t: Tables): Tables {
    t.(intents := map i | i in t.intents ::
                    if t.intents[i].phase == Sent then t.intents[i].(phase := Unresolved) else t.intents[i])
  }

  predicate Guarded(p: Phase) {
    p == Created || p == Moved || p == Unresolved
  }

  predicate Protects(t: Tables, c: Channel) {
    exists i :: i in t.intents.Keys && t.intents[i].channel == Some(c) && Guarded(t.intents[i].phase)
  }

  function Deleted(t: Tables, c: Channel): Tables {
    t.(intents := map i | i in t.intents ::
                    if t.intents[i].channel == Some(c) && t.intents[i].phase != Completed
                    then t.intents[i].(phase := Cancelled) else t.intents[i])
  }

  // ---- pending_cleanup -----------------------------------------------------

  function AddCleanup(t: Tables, g: Guild, c: Channel, leaver: Option<User>): Tables {
    var k := CleanupKey(c, leaver);
    t.(cleanups := t.cleanups[k := if k in t.cleanups then t.cleanups[k].(due := 0.0) else Cleanup(g, 0.0)])
  }

  function CleanupResult(t: Tables, k: CleanupKey, delay: Option<real>, now: real): Tables {
    if k !in t.cleanups then t
    else if delay.None? then t.(cleanups := t.cleanups - {k})
    else t.(cleanups := t.cleanups[k := t.cleanups[k].(due := now + Max(1.0, delay.value))])
  }

  // ---- active_temp_channels ------------------------------------------------

  function DropRoom(t: Tables, c: Channel): Tables {
    t.(rooms := t.rooms - {c})
  }

  function Transfer(t: Tables, c: Channel, u: User): Option<Tables> {
    if c !in t.rooms then Some(t)
    else if !OwnerFree(t.rooms, c, t.rooms[c].guild, u) then None
    else Some(t.(rooms := t.rooms[c := t.rooms[c].(owner := u)]))
  }

  function SetPanel(t: Tables, c: Channel, message: nat): Tables {
    if c in t.rooms then t.(rooms := t.rooms[c := t.rooms[c].(panel := Some(message))]) else t
  }

  // ---- what the schema and the queue bounds promise ------------------------

  ghost predicate QueueBounded(joins: map<(Guild, User), Join>) {
    && |joins| <= MAX_PENDING
    && (forall g :: |GuildQueue(joins, g)| <= MAX_PENDING_PER_GUILD)
  }

  ghost predicate OneOpenIntentEach(n: map<IntentId, Intent>) {
    forall i, j | i in n && j in n && i != j && n[i].guild == n[j].guild && n[i].user == n[j].user ::
      !(Open(n[i].phase) && Open(n[j].phase))
  }

  /** Tracked rooms are injective in (guild, owner). */
  ghost predicate OneRoomEach(rooms: map<Channel, Room>) {
    forall a, b | a in rooms && b in rooms && a != b ::
      !(rooms[a].guild == rooms[b].guild && rooms[a].owner == rooms[b].owner)
  }

  ghost predicate IdsMinted(t: Tables) {
    && (forall k | k in t.joins :: t.joins[k].revision < t.minted && t.joins[k].guild == k.0 && t.joins[k].user == k.1)
    && (forall i | i in t.intents :: i < t.minted)
  }

  ghost predicate WellFormed(t: Tables) {
    && QueueBounded(t.joins)
    && OneOpenIntentEach(t.intents)
    && OneRoomEach(t.rooms)
    && IdsMinted(t)
  }
}
