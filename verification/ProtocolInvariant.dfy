/** What every step of the protocol keeps, however the handlers' writes race
    with the workers: exclusion, attribution and accounting (`Core`). */
module ProtocolInvariant {
  import opened Common
  import opened Tables
  import opened Protocol

  /** Intent i never produced a channel and no create for it is in flight. */
  ghost predicate Fresh(world: World, i: IntentId) {
    && i !in world.inflight
    && forall c | c in world.made :: world.made[c] != i
  }

  /** A channel the bot made and that is gone for good. */
  predicate Dead(world: World, c: Channel) {
    c in world.made && c !in world.live
  }

  ghost predicate Exclusive(busy: set<Guild>, runs: map<nat, Run>) {
    && (forall w | w in runs :: GuildOf(runs[w]) in busy)
    && (forall w, x | w in runs && x in runs && w != x :: GuildOf(runs[w]) != GuildOf(runs[x]))
  }

  ghost predicate IntentOk(world: World, i: IntentId, n: Intent) {
    && (n.phase == Prepared ==> Fresh(world, i))
    && (n.channel.None? ==> n.phase != Created && n.phase != Moved && n.phase != PanelBlocked)
    && (n.channel.Some? ==>
          && n.phase != Prepared && n.phase != Sent
          && n.channel.value in world.made && world.made[n.channel.value] == i
          && n.channel.value.guild == n.guild)
    && (n.completed.Some? ==> n.phase == Completed || n.phase == Cancelled)
  }

  ghost predicate IntentsOk(world: World, intents: map<IntentId, Intent>) {
    forall i | i in intents :: IntentOk(world, i, intents[i])
  }

  ghost predicate WorldOk(world: World, intents: map<IntentId, Intent>) {
    && (forall i | i in world.inflight :: i in intents && forall c | c in world.made :: world.made[c] != i)
    && (forall c | c in world.made :: world.made[c] in intents && c.guild == intents[world.made[c]].guild)
    && (forall c, d | c in world.made && d in world.made && c != d :: world.made[c] != world.made[d])
    && world.live <= world.made.Keys
  }

  ghost predicate RoomsOk(world: World, rooms: map<Channel, Room>) {
    forall c | c in rooms :: c in world.made && rooms[c].guild == c.guild
  }

  /** The held intent is the owner's, uncounted, and the only one that is open. */
  ghost predicate HeldOk(intents: map<IntentId, Intent>, row: Join, h: Held) {
    && h.id in intents
    && intents[h.id].guild == row.guild && intents[h.id].user == row.user
    && intents[h.id].completed.None?
    && OthersClosed(intents, h.id)
  }

  /** Nothing was ever transmitted for the held intent. */
  ghost predicate Unsent(world: World, intents: map<IntentId, Intent>, row: Join, h: Held) {
    && HeldOk(intents, row, h)
    && h.channel.None? && intents[h.id].channel.None?
    && Fresh(world, h.id)
    && h.phase != Sent && h.phase != Unresolved
  }

  /** The held intent has its room recorded. */
  ghost predicate Attached(intents: map<IntentId, Intent>, row: Join, h: Held) {
    && HeldOk(intents, row, h)
    && h.channel.Some? && intents[h.id].channel == h.channel
    && h.phase != Sent && h.phase != Unresolved
  }

  ghost predicate Either(world: World, intents: map<IntentId, Intent>, row: Join, h: Held) {
    Unsent(world, intents, row, h) || Attached(intents, row, h)
  }

  ghost predicate JoinOk(world: World, intents: map<IntentId, Intent>, row: Join, pc: JoinPc) {
    match pc
    case Start => true
    case MarkUnresolved(h) => HeldOk(intents, row, h)
    case Audit(h) => HeldOk(intents, row, h)
    case AuditAttach(h, c) => HeldOk(intents, row, h) && c in world.made && world.made[c] == h.id
    case Presence(h) => Either(world, intents, row, h)
    case Recheck(h, _) => Either(world, intents, row, h)
    case Retarget(h) => Either(world, intents, row, h)
    case RetargetCleanup(h) => Attached(intents, row, h)
    case Reread => forall i | i in intents && intents[i].guild == row.guild && intents[i].user == row.user ::
                     !Open(intents[i].phase)
    case Preflight(h) => Either(world, intents, row, h)
    case FetchOwn(h) => Attached(intents, row, h)
    case OwnGone(h) => Attached(intents, row, h) && Dead(world, h.channel.value)
    case OwnGoneIntent(h) => Attached(intents, row, h) && Dead(world, h.channel.value)
    case FindOther(h) => Unsent(world, intents, row, h)
    case FetchOther(h, c) => Unsent(world, intents, row, h) && c in world.made && c.guild == row.guild
    case OtherGone(c) => Dead(world, c)
    case OtherEmpty(c) => c.guild == row.guild
    case MarkSent(h) => Unsent(world, intents, row, h)
    case Create(h) => Unsent(world, intents, row, h) && intents[h.id].phase != Prepared
    case Await(h) => HeldOk(intents, row, h) && h.channel.None? && intents[h.id].channel.None?
                     && intents[h.id].phase != Prepared && h.phase != Sent && h.phase != Unresolved
    case Withdraw(h, _) => Unsent(world, intents, row, h)
    case Reject(h) => Unsent(world, intents, row, h)
    case RejectJoin => true
    case Doubt(h) => HeldOk(intents, row, h)
    case AttachRoom(h, c) => HeldOk(intents, row, h) && h.channel.None? && c.guild == row.guild
                             && c in world.made && world.made[c] == h.id
    case Arrive(h) => Attached(intents, row, h)
    case Moving(h) => Attached(intents, row, h)
    case MarkMoved(h) => Attached(intents, row, h)
    case Panel(h) => Attached(intents, row, h)
    case SendPanel(h) => Attached(intents, row, h)
    case SavePanel(h, _) => Attached(intents, row, h)
    case BlockPanel(h) => Attached(intents, row, h)
    case BlockPanelJoin => true
    case Count(h) => Attached(intents, row, h)
    case Finish => true
    case AbandonJoin(h, _) => Either(world, intents, row, h)
    case AbandonIntent(h, _) => Either(world, intents, row, h)
    case AbandonRoom(h, _) => Attached(intents, row, h)
    case End(_) => true
  }

  /** No intent that still protects its room records channel c. */
  ghost predicate Unprotected(intents: map<IntentId, Intent>, c: Channel) {
    forall i | i in intents && intents[i].channel == Some(c) :: !Guarded(intents[i].phase)
  }

  ghost predicate CleanOk(world: World, intents: map<IntentId, Intent>, key: CleanupKey, at: CleanPc) {
    match at
    case Lookup => true
    case Guard => key.channel in world.made
    case Visit => Unprotected(intents, key.channel) && key.channel in world.made
    case Second => Unprotected(intents, key.channel) && key.channel in world.made
    case Reconcile => Unprotected(intents, key.channel) && key.channel in world.made
    case Delete(_) => Unprotected(intents, key.channel) && key.channel in world.made
    case Drop(_) => Unprotected(intents, key.channel) && Dead(world, key.channel)
    case Forget(_) => true
    case Record(_) => true
  }

  ghost predicate StaffOk(world: World, intents: map<IntentId, Intent>, run: Run)
    requires run.StaffRun?
  {
    && run.id in intents
    && intents[run.id].guild == run.guild && intents[run.id].user == run.user
    && intents[run.id].completed.None?
    && OthersClosed(intents, run.id)
    && (run.evidence.Some? ==>
          run.evidence.value in world.made && world.made[run.evidence.value] == run.id)
  }

  ghost predicate RunOk(world: World, intents: map<IntentId, Intent>, run: Run) {
    match run
    case JoinRun(row, pc) => JoinOk(world, intents, row, pc)
    case CleanRun(key, at) => CleanOk(world, intents, key, at)
    case StaffRun(_, _, _, _, _) => StaffOk(world, intents, run)
  }

  ghost predicate RunsOk(world: World, intents: map<IntentId, Intent>, runs: map<nat, Run>) {
    forall w | w in runs :: RunOk(world, intents, runs[w])
  }

  ghost predicate Core(s: State) {
    && OneOpenIntentEach(s.t.intents)
    && OneRoomEach(s.t.rooms)
    && IdsMinted(s.t)
    && Exclusive(s.busy, s.runs)
    && IntentsOk(s.world, s.t.intents)
    && WorldOk(s.world, s.t.intents)
    && RoomsOk(s.world, s.t.rooms)
    && RunsOk(s.world, s.t.intents, s.runs)
  }
}
