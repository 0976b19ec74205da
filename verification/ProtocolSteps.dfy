/** Every action of the protocol keeps `Core`. */
module ProtocolSteps {
  import opened Common
  import opened Tables
  import opened Protocol
  import opened ProtocolInvariant
  import StoreRuns

  // ---- what one change means to the runs it does not belong to ---------------

  /** A run of another guild does not see a write to intent i. */
  lemma OtherGuildUnaffected(world: World, n: map<IntentId, Intent>, i: IntentId, v: Intent, run: Run)
    requires RunOk(world, n, run)
    requires IntentOk(world, i, v)
    requires i in n ==> n[i].guild == v.guild && n[i].user == v.user
    requires GuildOf(run) != v.guild
    requires run.JoinRun? || run.StaffRun? || IntentsOk(world, n)
    ensures RunOk(world, n[i := v], run)
  {
  }

  /** Some intents were cancelled, nothing else changed. */
  ghost predicate OnlyCancels(n: map<IntentId, Intent>, m: map<IntentId, Intent>) {
    && m.Keys == n.Keys
    && forall i | i in n :: m[i] == n[i] || m[i] == n[i].(phase := Cancelled)
  }

  lemma CancelsKeepClosed(n: map<IntentId, Intent>, m: map<IntentId, Intent>, i: IntentId)
    requires OnlyCancels(n, m) && i in n && OthersClosed(n, i)
    ensures OthersClosed(m, i)
  {
  }

  lemma CancelsKeepHeld(world: World, n: map<IntentId, Intent>, m: map<IntentId, Intent>, row: Join, h: Held)
    requires OnlyCancels(n, m)
    ensures HeldOk(n, row, h) ==> HeldOk(m, row, h)
    ensures Unsent(world, n, row, h) ==> Unsent(world, m, row, h)
    ensures Attached(n, row, h) ==> Attached(m, row, h)
  {
    hide OthersClosed;
    if h.id in n && OthersClosed(n, h.id) {
      CancelsKeepClosed(n, m, h.id);
    }
  }

  predicate HasHeld(pc: JoinPc) {
    !(pc.Start? || pc.Reread? || pc.OtherGone? || pc.OtherEmpty? || pc.RejectJoin? || pc.BlockPanelJoin?
      || pc.Finish? || pc.End?)
  }

  lemma HeldIsKnown(world: World, n: map<IntentId, Intent>, row: Join, pc: JoinPc)
    requires JoinOk(world, n, row, pc) && HasHeld(pc)
    ensures pc.h.id in n
  {
  }

  lemma CancelsKeepJoin(world: World, n: map<IntentId, Intent>, m: map<IntentId, Intent>, row: Join, pc: JoinPc)
    requires JoinOk(world, n, row, pc) && OnlyCancels(n, m)
    ensures JoinOk(world, m, row, pc)
  {
    if HasHeld(pc) {
      HeldIsKnown(world, n, row, pc);
      CancelsKeepHeld(world, n, m, row, pc.h);
      hide HeldOk, Unsent, Attached;
    }
  }

  /** Cancelling intents disturbs no run, of whatever guild. */
  lemma CancelsUnaffected(world: World, n: map<IntentId, Intent>, m: map<IntentId, Intent>, run: Run)
    requires RunOk(world, n, run) && OnlyCancels(n, m)
    ensures RunOk(world, m, run)
  {
    hide JoinOk;
    match run
    case JoinRun(row, pc) => CancelsKeepJoin(world, n, m, row, pc);
    case CleanRun(_, _) =>
    case StaffRun(_, _, _, _, _) =>
  }

  lemma LandUnaffected(world: World, n: map<IntentId, Intent>, i: IntentId, c: Channel, run: Run)
    requires RunOk(world, n, run) && i in world.inflight && c !in world.made
    ensures RunOk(World(world.made[c := i], world.live + {c}, world.inflight - {i}), n, run)
  {
  }

  lemma VanishUnaffected(world: World, n: map<IntentId, Intent>, c: Channel, run: Run)
    requires RunOk(world, n, run)
    ensures RunOk(world.(live := world.live - {c}), n, run)
  {
  }

  lemma TransmitUnaffected(world: World, n: map<IntentId, Intent>, i: IntentId, run: Run)
    requires RunOk(world, n, run) && i in n && n[i].guild != GuildOf(run)
    ensures RunOk(world.(inflight := world.inflight + {i}), n, run)
  {
  }

  lemma AnswerUnaffected(world: World, n: map<IntentId, Intent>, i: IntentId, run: Run)
    requires RunOk(world, n, run)
    ensures RunOk(world.(inflight := world.inflight - {i}), n, run)
  {
  }

  // ---- building blocks -------------------------------------------------------

  /** Queue rows, cleanup rows, panels and memory sets do not matter to Core;
      rooms matter only through their own index and attribution. */
  lemma SideKeeps(s: State, s': State)
    requires Core(s)
    requires s'.t.intents == s.t.intents && s'.world == s.world && s'.busy == s.busy && s'.runs == s.runs
    requires OneRoomEach(s'.t.rooms) && RoomsOk(s.world, s'.t.rooms) && IdsMinted(s'.t)
    ensures Core(s')
  {
  }

  /** Run w moves on within its guild. */
  lemma RunKeeps(s: State, s': State, w: nat, run: Run)
    requires Core(s) && w in s.runs
    requires s' == s.(runs := s.runs[w := run])
    requires GuildOf(run) == GuildOf(s.runs[w]) && RunOk(s.world, s.t.intents, run)
    ensures Core(s')
  {
  }

  lemma GotoKeeps(s: State, w: nat, row: Join, pc: JoinPc)
    requires Core(s) && w in s.runs && s.runs[w].JoinRun? && s.runs[w].row == row
    requires JoinOk(s.world, s.t.intents, row, pc)
    ensures Core(Goto(s, w, row, pc))
  {
    RunKeeps(s, Goto(s, w, row, pc), w, JoinRun(row, pc));
  }

  lemma CleanToKeeps(s: State, w: nat, key: CleanupKey, at: CleanPc)
    requires Core(s) && w in s.runs && s.runs[w].CleanRun? && s.runs[w].key == key
    requires CleanOk(s.world, s.t.intents, key, at)
    ensures Core(CleanTo(s, w, key, at))
  {
    RunKeeps(s, CleanTo(s, w, key, at), w, CleanRun(key, at));
  }

  /** Run w ends and frees its guild. */
  lemma ReleaseKeeps(s: State, w: nat)
    requires Core(s) && w in s.runs
    ensures Core(s.(runs := s.runs - {w}, busy := s.busy - {GuildOf(s.runs[w])}))
  {
    var s' := s.(runs := s.runs - {w}, busy := s.busy - {GuildOf(s.runs[w])});
    forall x | x in s'.runs ensures GuildOf(s'.runs[x]) in s'.busy {
      assert x in s.runs && x != w;
    }
  }

  /** A new run claims a free guild. */
  lemma StartKeeps(s: State, w: nat, run: Run)
    requires Core(s) && w !in s.runs && GuildOf(run) !in s.busy
    requires RunOk(s.world, s.t.intents, run)
    ensures Core(s.(busy := s.busy + {GuildOf(run)}, runs := s.runs[w := run]))
  {
  }

  /** Tables t' differ from those of s in the intent row i, which becomes v, and
      perhaps in rooms, by a write that Core allows. */
  ghost predicate MayWrite(s: State, t': Tables, i: IntentId, v: Intent) {
    && t'.intents == s.t.intents[i := v]
    && (i in s.t.intents ==> s.t.intents[i].guild == v.guild && s.t.intents[i].user == v.user)
    && IntentOk(s.world, i, v) && (Open(v.phase) ==> OthersClosed(t'.intents, i))
    && OneRoomEach(t'.rooms) && RoomsOk(s.world, t'.rooms) && IdsMinted(t')
  }

  /** Run w writes the intent row i of its guild and moves on. */
  lemma WriteKeeps(s: State, s': State, w: nat, i: IntentId, v: Intent, run: Run)
    requires Core(s) && w in s.runs
    requires MayWrite(s, s'.t, i, v) && s'.world == s.world && s'.busy == s.busy
    requires s'.runs == s.runs[w := run]
    requires GuildOf(run) == GuildOf(s.runs[w]) == v.guild && RunOk(s.world, s'.t.intents, run)
    ensures Core(s')
  {
    RunsWritten(s, i, v, w);
    WrittenOk(s.world, s.t.intents, i, v);
    hide IntentsOk, WorldOk, IntentOk, OthersClosed, OneRoomEach, RoomsOk, IdsMinted, OneOpenIntentEach;
    assert RunsOk(s.world, s'.t.intents, s'.runs) by {
      hide RunOk;
    }
  }

  /** The runs of the other guilds do not see the write. */
  lemma RunsWritten(s: State, i: IntentId, v: Intent, w: nat)
    requires Core(s) && w in s.runs && GuildOf(s.runs[w]) == v.guild && IntentOk(s.world, i, v)
    requires i in s.t.intents ==> s.t.intents[i].guild == v.guild && s.t.intents[i].user == v.user
    ensures forall x | x in s.runs && x != w :: RunOk(s.world, s.t.intents[i := v], s.runs[x])
  {
    forall x | x in s.runs && x != w ensures RunOk(s.world, s.t.intents[i := v], s.runs[x]) {
      assert RunOk(s.world, s.t.intents, s.runs[x]) && GuildOf(s.runs[x]) != v.guild;
      hide RunOk, IntentOk, WorldOk, IdsMinted, OneOpenIntentEach, OneRoomEach, RoomsOk;
      OtherGuildUnaffected(s.world, s.t.intents, i, v, s.runs[x]);
    }
  }

  lemma WrittenOk(world: World, n: map<IntentId, Intent>, i: IntentId, v: Intent)
    requires IntentsOk(world, n) && WorldOk(world, n) && OneOpenIntentEach(n) && IntentOk(world, i, v)
    requires i in n ==> n[i].guild == v.guild && n[i].user == v.user
    requires Open(v.phase) ==> OthersClosed(n[i := v], i)
    ensures IntentsOk(world, n[i := v]) && WorldOk(world, n[i := v]) && OneOpenIntentEach(n[i := v])
  {
  }

  lemma MarkMayWrite(s: State, row: Join, h: Held, p: Phase)
    requires Core(s) && HeldOk(s.t.intents, row, h) && IntentOk(s.world, h.id, s.t.intents[h.id].(phase := p))
    ensures SetPhase(s.t, h.id, p) == Some(s.t.(intents := WithPhase(s.t.intents, h.id, p)))
    ensures MayWrite(s, s.t.(intents := WithPhase(s.t.intents, h.id, p)), h.id, s.t.intents[h.id].(phase := p))
  {
    hide RunsOk, WorldOk, IntentsOk, Exclusive, IntentOk;
  }

  /** The worker's unconditional phase update never raises, and keeps Core. */
  lemma MarkKeeps(s: State, w: nat, row: Join, h: Held, p: Phase, next: JoinPc)
    requires Core(s) && w in s.runs && s.runs[w].JoinRun? && s.runs[w].row == row
    requires HeldOk(s.t.intents, row, h)
    requires IntentOk(s.world, h.id, s.t.intents[h.id].(phase := p))
    requires JoinOk(s.world, WithPhase(s.t.intents, h.id, p), row, next)
    ensures SetPhase(s.t, h.id, p) == Some(s.t.(intents := WithPhase(s.t.intents, h.id, p)))
    ensures Core(Mark(s, w, row, h, p, next))
  {
    MarkMayWrite(s, row, h, p);
    hide Core, MayWrite, IntentOk, JoinOk, SetPhase;
    WriteKeeps(s, Mark(s, w, row, h, p, next), w, h.id, s.t.intents[h.id].(phase := p), JoinRun(row, next));
  }

  /** The runs that are about to attach room c to intent i. */
  predicate Attaching(run: Run, i: IntentId, c: Channel) {
    match run
    case JoinRun(_, AttachRoom(h, room)) => h.id == i && room == c
    case JoinRun(_, AuditAttach(h, room)) => h.id == i && room == c
    case JoinRun(_, _) => false
    case CleanRun(_, _) => false
    case StaffRun(id, _, _, _, evidence) => id == i && evidence == Some(c)
  }

  /** What an attach that commits writes. */
  lemma AttachWrites(t: Tables, i: IntentId, profile: Profile, c: Channel)
    requires i in t.intents && Attach(t, i, t.intents[i].guild, t.intents[i].user, profile, c).Some?
    ensures var n := t.intents[i];
            var t' := Attach(t, i, n.guild, n.user, profile, c).value;
            && t' == t.(intents := t.intents[i := n.(channel := Some(c), phase := Created)], rooms := t'.rooms)
            && t'.rooms == (if c in t.rooms then t.rooms else t.rooms[c := Room(n.guild, profile, n.user, None)])
            && OthersClosed(t.intents, i) && (c !in t.rooms ==> OwnerFree(t.rooms, c, n.guild, n.user))
  {
  }

  lemma AttachedRoomsOk(s: State, c: Channel, v: Room)
    requires Core(s) && c in s.world.made && v.guild == c.guild && OwnerFree(s.t.rooms, c, v.guild, v.owner)
    ensures OneRoomEach(s.t.rooms[c := v]) && RoomsOk(s.world, s.t.rooms[c := v])
  {
  }

  lemma AttachKeeps(s: State, s': State, w: nat, i: IntentId, c: Channel, profile: Profile)
    requires Core(s) && w in s.runs && Attaching(s.runs[w], i, c) && i in s.t.intents
    requires var n := s.t.intents[i];
             var a := Attach(s.t, i, n.guild, n.user, profile, c);
             a.Some? && s' == s.(t := a.value, tracked := s'.tracked)
    ensures Core(s')
  {
    var n := s.t.intents[i];
    var v := n.(channel := Some(c), phase := Created);
    AttachWrites(s.t, i, profile, c);
    AttachingFacts(s, w, i, c);
    CoreTables(s);
    if c !in s.t.rooms {
      AttachedRoomsOk(s, c, Room(n.guild, profile, n.user, None));
    }
    assert s'.runs == s.runs[w := s.runs[w]] && MayWrite(s, s'.t, i, v);
    hide Core, Attach, Attaching, RunOk, MayWrite;
    WriteKeeps(s, s', w, i, v, s.runs[w]);
  }

  lemma AttachingFacts(s: State, w: nat, i: IntentId, c: Channel)
    requires Core(s) && w in s.runs && Attaching(s.runs[w], i, c) && i in s.t.intents
    ensures var v := s.t.intents[i].(channel := Some(c), phase := Created);
            && GuildOf(s.runs[w]) == v.guild && c in s.world.made && c.guild == v.guild
            && IntentOk(s.world, i, v) && RunOk(s.world, s.t.intents[i := v], s.runs[w])
            && (OthersClosed(s.t.intents, i) ==> OthersClosed(s.t.intents[i := v], i))
  {
    assert RunOk(s.world, s.t.intents, s.runs[w]);
  }

  lemma DropKeeps(s: State, s': State, c: Channel)
    requires Core(s) && s' == s.(t := DropRoom(s.t, c), tracked := s'.tracked)
    ensures Core(s')
  {
    SideKeeps(s, s');
  }

  lemma OnlyCancelsKeeps(s: State, s': State)
    requires Core(s) && OnlyCancels(s.t.intents, s'.t.intents)
    requires s' == s.(t := s.t.(intents := s'.t.intents), tracked := s'.tracked)
    ensures Core(s')
  {
    forall x | x in s.runs ensures RunOk(s.world, s'.t.intents, s.runs[x]) {
      CancelsUnaffected(s.world, s.t.intents, s'.t.intents, s.runs[x]);
    }
    assert WorldOk(s.world, s'.t.intents);
  }

  lemma DeletedKeeps(s: State, s': State, c: Channel)
    requires Core(s) && s' == s.(t := Deleted(s.t, c), tracked := s'.tracked)
    ensures Core(s')
  {
    OnlyCancelsKeeps(s, s');
  }

  lemma RoomsOkStays(world: World, t: Tables, op: StoreRuns.Op, now: real)
    requires RoomsOk(world, t.rooms) && !op.OpAttach?
    ensures RoomsOk(world, StoreRuns.Commit(t, op, now).rooms)
  {
  }

  lemma CoreTables(s: State)
    requires Core(s)
    ensures IdsMinted(s.t) && OneRoomEach(s.t.rooms) && RoomsOk(s.world, s.t.rooms)
  {
  }

  lemma TableOpKeeps(s: State, op: StoreRuns.Op)
    requires Core(s)
    requires op.OpEnqueue? || op.OpCancel? || op.OpAddCleanup? || op.OpTransfer? || op.OpDefer? || op.OpCleanupResult?
             || op.OpSetPanel?
    ensures Core(s.(t := StoreRuns.Commit(s.t, op, s.clock)))
  {
    hide Core, IdsMinted, OneRoomEach, RoomsOk;
    CoreTables(s);
    StoreRuns.CommitKeepsIds(s.t, op, s.clock);
    StoreRuns.CommitKeepsOwnerIndex(s.t, op, s.clock);
    RoomsOkStays(s.world, s.t, op, s.clock);
    SideKeeps(s, s.(t := StoreRuns.Commit(s.t, op, s.clock)));
  }

  // ---- the join worker -------------------------------------------------------

  /** The state and run of a join step, as every lemma below needs them. */
  ghost predicate AtJoin(s: State, w: nat, row: Join, pc: JoinPc) {
    && Core(s)
    && w in s.runs && s.runs[w] == JoinRun(row, pc)
  }

  lemma AtJoinOk(s: State, w: nat, row: Join, pc: JoinPc)
    requires AtJoin(s, w, row, pc)
    ensures JoinOk(s.world, s.t.intents, row, pc)
  {
    assert RunOk(s.world, s.t.intents, s.runs[w]);
  }

  lemma RoomAt(s: State, c: Channel)
    requires Core(s) && c in s.t.rooms
    ensures c in s.world.made && s.t.rooms[c].guild == c.guild
  {
  }

  lemma FlightAt(s: State, i: IntentId)
    requires Core(s) && i in s.world.inflight
    ensures Fresh(s.world.(inflight := s.world.inflight - {i}), i)
  {
  }

  lemma MadeAt(s: State, c: Channel)
    requires Core(s) && c in s.world.made
    ensures s.world.made[c] in s.t.intents && s.t.intents[s.world.made[c]].guild == c.guild
  {
  }

  lemma IntentOkAt(s: State, i: IntentId)
    requires Core(s) && i in s.t.intents
    ensures IntentOk(s.world, i, s.t.intents[i])
  {
  }

  /** Reading the owner's open intent finds the only one. */
  lemma ReadKeeps(s: State, w: nat, row: Join, pc: JoinPc, i: IntentId)
    requires AtJoin(s, w, row, pc) && (pc.Start? || pc.Reread?)
    requires ReadIntent(s, w, row, Read(i), pc.Start?).Some?
    ensures Core(ReadIntent(s, w, row, Read(i), pc.Start?).value)
  {
    AtJoinOk(s, w, row, pc);
    IntentOkAt(s, i);
    var h := Copy(s.t, i);
    OpenIsOnly(s, row, h);
    hide Core;
    GotoKeeps(s, w, row, ReadIntent(s, w, row, Read(i), pc.Start?).value.runs[w].pc);
  }

  lemma OpenIsOnly(s: State, row: Join, h: Held)
    requires Core(s) && OpenFor(s.t, h.id, row.guild, row.user)
    ensures HeldOk(s.t.intents, row, h)
  {
    IntentOkAt(s, h.id);
  }

  lemma InsertKeeps(s: State, w: nat, row: Join, pc: JoinPc)
    requires AtJoin(s, w, row, pc) && (pc.Start? || pc.Reread?)
    requires ReadIntent(s, w, row, Inserted, pc.Start?).Some?
    ensures Core(ReadIntent(s, w, row, Inserted, pc.Start?).value)
  {
    var s' := ReadIntent(s, w, row, Inserted, pc.Start?).value;
    var i := s.t.minted;
    InsertMayWrite(s, row);
    var next := s'.runs[w].pc;
    assert s' == Goto(s.(t := InsertIntent(s.t, row, s.clock)), w, row, next) && JoinOk(s.world, s'.t.intents, row, next);
    hide Core, MayWrite, JoinOk, ReadIntent, HeldOk, Fresh, OpenFor;
    WriteKeeps(s, s', w, i, s'.t.intents[i], JoinRun(row, next));
  }

  lemma InsertMayWrite(s: State, row: Join)
    requires Core(s) && forall i :: !OpenFor(s.t, i, row.guild, row.user)
    ensures var t', i := InsertIntent(s.t, row, s.clock), s.t.minted;
            && i !in s.t.intents && Fresh(s.world, i) && i in t'.intents && MayWrite(s, t', i, t'.intents[i])
            && HeldOk(t'.intents, row, Copy(t', i))
  {
    assert s.t.minted !in s.t.intents;
    assert forall j | j in s.t.intents && s.t.intents[j].guild == row.guild && s.t.intents[j].user == row.user ::
      !OpenFor(s.t, j, row.guild, row.user);
    hide RunsOk, Exclusive;
  }

  lemma ReadIntentKeeps(s: State, w: nat, row: Join, pc: JoinPc, r: Reply)
    requires AtJoin(s, w, row, pc) && (pc.Start? || pc.Reread?)
    requires ReadIntent(s, w, row, r, pc.Start?).Some?
    ensures Core(ReadIntent(s, w, row, r, pc.Start?).value)
  {
    hide Core;
    match r
    case NotReady => GotoKeeps(s, w, row, End(Some(5.0)));
    case Read(i) => ReadKeeps(s, w, row, pc, i);
    case Inserted => InsertKeeps(s, w, row, pc);
  }

  lemma AuditedKeeps(s: State, audited: set<IntentId>)
    requires Core(s)
    ensures Core(s.(audited := audited))
  {
  }

  lemma AuditKeeps(s: State, w: nat, row: Join, h: Held, r: Reply)
    requires AtJoin(s, w, row, Audit(h))
    requires AuditStep(s, w, row, h, r).Some?
    ensures Core(AuditStep(s, w, row, h, r).value)
  {
    hide Core;
    AtJoinOk(s, w, row, Audit(h));
    var s' := AuditStep(s, w, row, h, r).value;
    AuditedKeeps(s, s'.audited);
    hide AtJoin, HeldOk;
    if r.Evidence? && h.id !in s.audited {
      GotoKeeps(s.(audited := s'.audited), w, row, AuditAttach(h, r.room));
    } else {
      GotoKeeps(s.(audited := s'.audited), w, row, End(Some(60.0)));
    }
  }

  lemma AuditAttachKeeps(s: State, w: nat, row: Join, h: Held, c: Channel, r: Reply)
    requires AtJoin(s, w, row, AuditAttach(h, c))
    requires AuditAttachStep(s, w, row, h, c, r).Some?
    ensures Core(AuditAttachStep(s, w, row, h, c, r).value)
  {
    hide Core;
    AtJoinOk(s, w, row, AuditAttach(h, c));
    var s' := AuditAttachStep(s, w, row, h, c, r).value;
    if r == Done {
      var s1 := s.(t := s'.t, tracked := s'.tracked);
      AttachKeeps(s, s1, w, h.id, c, h.profile);
      GotoKeeps(s1, w, row, End(Some(60.0)));
    } else {
      GotoKeeps(s, w, row, End(Some(60.0)));
    }
  }

  lemma PresenceKeeps(s: State, w: nat, row: Join, h: Held, present: bool)
    requires AtJoin(s, w, row, Presence(h))
    ensures Core(Goto(s, w, row, Recheck(h, present)))
  {
    hide Core;
    AtJoinOk(s, w, row, Presence(h));
    GotoKeeps(s, w, row, Recheck(h, present));
  }

  lemma RecheckKeeps(s: State, w: nat, row: Join, h: Held, present: bool, r: Reply)
    requires AtJoin(s, w, row, Recheck(h, present))
    requires RecheckStep(s, w, row, h, present, r).Some?
    ensures Core(RecheckStep(s, w, row, h, present, r).value)
  {
    hide Core;
    AtJoinOk(s, w, row, Recheck(h, present));
    GotoKeeps(s, w, row, RecheckStep(s, w, row, h, present, r).value.runs[w].pc);
  }

  lemma PreflightKeeps(s: State, w: nat, row: Join, h: Held, r: Reply)
    requires AtJoin(s, w, row, Preflight(h))
    requires PreflightStep(s, w, row, h, r).Some?
    ensures Core(PreflightStep(s, w, row, h, r).value)
  {
    hide Core;
    AtJoinOk(s, w, row, Preflight(h));
    GotoKeeps(s, w, row, PreflightStep(s, w, row, h, r).value.runs[w].pc);
  }

  lemma FetchOwnKeeps(s: State, w: nat, row: Join, h: Held, r: Reply)
    requires AtJoin(s, w, row, FetchOwn(h))
    requires FetchOwnStep(s, w, row, h, r).Some?
    ensures Core(FetchOwnStep(s, w, row, h, r).value)
  {
    hide Core;
    AtJoinOk(s, w, row, FetchOwn(h));
    IntentOkAt(s, h.id);
    GotoKeeps(s, w, row, FetchOwnStep(s, w, row, h, r).value.runs[w].pc);
  }

  lemma FindOtherKeeps(s: State, w: nat, row: Join, h: Held, r: Reply)
    requires AtJoin(s, w, row, FindOther(h))
    requires FindOtherStep(s, w, row, h, r).Some?
    ensures Core(FindOtherStep(s, w, row, h, r).value)
  {
    hide Core;
    AtJoinOk(s, w, row, FindOther(h));
    if r.Owned? {
      RoomAt(s, r.room);
    }
    GotoKeeps(s, w, row, FindOtherStep(s, w, row, h, r).value.runs[w].pc);
  }

  lemma FetchOtherKeeps(s: State, w: nat, row: Join, h: Held, c: Channel, r: Reply)
    requires AtJoin(s, w, row, FetchOther(h, c))
    requires FetchOtherStep(s, w, row, h, c, r).Some?
    ensures Core(FetchOtherStep(s, w, row, h, c, r).value)
  {
    hide Core;
    AtJoinOk(s, w, row, FetchOther(h, c));
    GotoKeeps(s, w, row, FetchOtherStep(s, w, row, h, c, r).value.runs[w].pc);
  }

  /** Dropping the record of a room that answered 404. */
  lemma DropGotoKeeps(s: State, w: nat, row: Join, pc: JoinPc, c: Channel, next: JoinPc)
    requires AtJoin(s, w, row, pc)
    requires JoinOk(s.world, s.t.intents, row, next)
    ensures Core(Goto(s.(t := DropRoom(s.t, c), tracked := s.tracked - {c}), w, row, next))
  {
    hide Core;
    var s1 := s.(t := DropRoom(s.t, c), tracked := s.tracked - {c});
    DropKeeps(s, s1, c);
    GotoKeeps(s1, w, row, next);
  }

  lemma DeletedGotoKeeps(s: State, w: nat, row: Join, pc: JoinPc, c: Channel)
    requires AtJoin(s, w, row, pc)
    ensures Core(Goto(s.(t := Deleted(s.t, c)), w, row, End(Some(1.0))))
  {
    hide Core;
    var s1 := s.(t := Deleted(s.t, c));
    DeletedKeeps(s, s1, c);
    GotoKeeps(s1, w, row, End(Some(1.0)));
  }

  /** A write to the queue, the cleanup table or a panel, then a move on. */
  lemma TableOpGotoKeeps(s: State, w: nat, row: Join, pc: JoinPc, op: StoreRuns.Op, next: JoinPc)
    requires AtJoin(s, w, row, pc) && (op.OpCancel? || op.OpAddCleanup? || op.OpSetPanel?)
    requires JoinOk(s.world, s.t.intents, row, next)
    ensures Core(Goto(s.(t := StoreRuns.Commit(s.t, op, s.clock)), w, row, next))
  {
    hide Core;
    TableOpKeeps(s, op);
    GotoKeeps(s.(t := StoreRuns.Commit(s.t, op, s.clock)), w, row, next);
  }

  lemma DequeueKeeps(s: State, w: nat, row: Join, pc: JoinPc, next: JoinPc)
    requires AtJoin(s, w, row, pc) && JoinOk(s.world, s.t.intents, row, next)
    ensures Core(Goto(Dequeue(s, row), w, row, next))
  {
    hide Core;
    TableOpGotoKeeps(s, w, row, pc, StoreRuns.OpCancel(row.guild, row.user, Some(row.revision)), next);
  }

  lemma AddCleanupKeeps(s: State, w: nat, row: Join, pc: JoinPc, c: Channel, next: JoinPc)
    requires AtJoin(s, w, row, pc) && JoinOk(s.world, s.t.intents, row, next)
    ensures Core(Goto(s.(t := AddCleanup(s.t, row.guild, c, None)), w, row, next))
  {
    hide Core;
    TableOpGotoKeeps(s, w, row, pc, StoreRuns.OpAddCleanup(row.guild, c, None), next);
  }

  lemma SetPanelKeeps(s: State, w: nat, row: Join, pc: JoinPc, c: Channel, m: nat, next: JoinPc)
    requires AtJoin(s, w, row, pc) && JoinOk(s.world, s.t.intents, row, next)
    ensures Core(Goto(s.(t := SetPanel(s.t, c, m)), w, row, next))
  {
    hide Core;
    TableOpGotoKeeps(s, w, row, pc, StoreRuns.OpSetPanel(c, m), next);
  }

  /** The phase updates of a run that never transmitted. */
  lemma UnsentMarkKeeps(s: State, w: nat, row: Join, pc: JoinPc, h: Held, p: Phase, next: JoinPc)
    requires AtJoin(s, w, row, pc) && Unsent(s.world, s.t.intents, row, h)
    requires p == Prepared || p == Sent || p == Cancelled
    requires (p == Sent && next == Create(h)) || next.End? || next.RejectJoin? || (p == Cancelled && next.Reread?)
    ensures Core(Mark(s, w, row, h, p, next))
  {
    hide Core;
    IntentOkAt(s, h.id);
    MarkKeeps(s, w, row, h, p, next);
  }

  lemma AttachedStays(n: map<IntentId, Intent>, row: Join, h: Held, p: Phase)
    requires Attached(n, row, h)
    ensures Attached(WithPhase(n, h.id, p), row, h)
  {
  }

  /** Where a run with a recorded room goes after a phase update. */
  predicate AfterMark(h: Held, next: JoinPc) {
    next == Panel(h) || next == RetargetCleanup(h) || next.BlockPanelJoin? || (next.AbandonRoom? && next.h == h)
  }

  lemma AfterMarkOk(world: World, n: map<IntentId, Intent>, row: Join, h: Held, next: JoinPc)
    requires Attached(n, row, h) && AfterMark(h, next)
    ensures JoinOk(world, n, row, next)
  {
  }

  lemma AttachedAt(s: State, w: nat, row: Join, pc: JoinPc)
    requires AtJoin(s, w, row, pc)
    requires pc.MarkMoved? || pc.BlockPanel? || ((pc.Retarget? || pc.AbandonIntent?) && pc.h.channel.Some?)
    ensures Attached(s.t.intents, row, pc.h)
  {
    hide Core;
    AtJoinOk(s, w, row, pc);
  }

  /** The phase updates of a run whose room is recorded. */
  lemma AttachedMarkKeeps(s: State, w: nat, row: Join, pc: JoinPc, h: Held, p: Phase, next: JoinPc)
    requires AtJoin(s, w, row, pc) && Attached(s.t.intents, row, h)
    requires p == Moved || p == PanelBlocked || p == Cancelled
    requires AfterMark(h, next)
    ensures Core(Mark(s, w, row, h, p, next))
  {
    hide Core;
    IntentOkAt(s, h.id);
    AttachedStays(s.t.intents, row, h, p);
    AfterMarkOk(s.world, WithPhase(s.t.intents, h.id, p), row, h, next);
    MarkKeeps(s, w, row, h, p, next);
  }

  lemma UnresolvedMarkKeeps(s: State, w: nat, row: Join, pc: JoinPc, h: Held, next: JoinPc)
    requires AtJoin(s, w, row, pc) && HeldOk(s.t.intents, row, h)
    requires next == Audit(h) || next.End?
    ensures Core(Mark(s, w, row, h, Unresolved, next))
  {
    hide Core;
    IntentOkAt(s, h.id);
    MarkKeeps(s, w, row, h, Unresolved, next);
  }

  /** A change of the in-flight set that only adds or removes intent h.id. */
  lemma FlightKeeps(s: State, s': State, w: nat, row: Join, h: Held, flying: set<IntentId>, next: JoinPc)
    requires Core(s) && w in s.runs && s.runs[w].JoinRun? && s.runs[w].row == row
    requires HeldOk(s.t.intents, row, h) && s.t.intents[h.id].phase != Prepared
    requires flying == s.world.inflight - {h.id}
             || (flying == s.world.inflight + {h.id} && Fresh(s.world, h.id))
    requires s' == Goto(s.(world := s.world.(inflight := flying)), w, row, next)
    requires JoinOk(s'.world, s.t.intents, row, next)
    ensures Core(s')
  {
    OthersInFlight(s, w, h.id, flying);
    InFlightIntents(s.world, s.t.intents, h.id, flying);
    InFlightWorld(s.world, s.t.intents, h.id, flying);
    hide IntentsOk, WorldOk, OneOpenIntentEach, OneRoomEach, RoomsOk, IdsMinted, JoinOk, HeldOk, Fresh;
  }

  /** The other runs belong to other guilds. */
  lemma OthersInFlight(s: State, w: nat, i: IntentId, flying: set<IntentId>)
    requires Core(s) && w in s.runs && i in s.t.intents && s.t.intents[i].guild == GuildOf(s.runs[w])
    requires flying == s.world.inflight - {i} || flying == s.world.inflight + {i}
    ensures forall x | x in s.runs && x != w :: RunOk(s.world.(inflight := flying), s.t.intents, s.runs[x])
  {
    hide WorldOk, OneOpenIntentEach, OneRoomEach, RoomsOk, IdsMinted, IntentsOk, RunOk;
    forall x | x in s.runs && x != w ensures RunOk(s.world.(inflight := flying), s.t.intents, s.runs[x]) {
      if flying == s.world.inflight - {i} {
        AnswerUnaffected(s.world, s.t.intents, i, s.runs[x]);
      } else {
        TransmitUnaffected(s.world, s.t.intents, i, s.runs[x]);
      }
    }
  }

  lemma InFlightIntents(world: World, n: map<IntentId, Intent>, i: IntentId, flying: set<IntentId>)
    requires IntentsOk(world, n) && i in n && n[i].phase != Prepared && flying <= world.inflight + {i}
    ensures IntentsOk(world.(inflight := flying), n)
  {
  }

  lemma InFlightWorld(world: World, n: map<IntentId, Intent>, i: IntentId, flying: set<IntentId>)
    requires WorldOk(world, n) && i in n
    requires flying == world.inflight - {i} || (flying == world.inflight + {i} && Fresh(world, i))
    ensures WorldOk(world.(inflight := flying), n)
  {
  }

  lemma CreateKeeps(s: State, w: nat, row: Join, h: Held, r: Reply)
    requires AtJoin(s, w, row, Create(h))
    requires CreateStep(s, w, row, h, r).Some?
    ensures Core(CreateStep(s, w, row, h, r).value)
  {
    hide Core;
    AtJoinOk(s, w, row, Create(h));
    var s' := CreateStep(s, w, row, h, r).value;
    if r == Transmit {
      FlightKeeps(s, s', w, row, h, s'.world.inflight, Await(h));
    } else {
      GotoKeeps(s, w, row, s'.runs[w].pc);
    }
  }

  lemma AwaitKeeps(s: State, w: nat, row: Join, h: Held, r: Reply)
    requires AtJoin(s, w, row, Await(h))
    requires AwaitStep(s, w, row, h, r).Some?
    ensures Core(AwaitStep(s, w, row, h, r).value)
  {
    hide Core;
    AtJoinOk(s, w, row, Await(h));
    var s' := AwaitStep(s, w, row, h, r).value;
    if r.Success? {
      MadeAt(s, r.room);
    }
    if h.id in s.world.inflight {
      FlightAt(s, h.id);
    }
    if r == Throttled || r == Refused {
      FlightKeeps(s, s', w, row, h, s.world.inflight - {h.id}, if r == Throttled then Create(h) else Reject(h));
    } else {
      GotoKeeps(s, w, row, if r.Success? then AttachRoom(h, r.room) else Doubt(h));
    }
  }

  lemma AttachStepKeeps(s: State, w: nat, row: Join, h: Held, c: Channel, r: Reply)
    requires AtJoin(s, w, row, AttachRoom(h, c))
    requires AttachStep(s, w, row, h, c, r).Some?
    ensures Core(AttachStep(s, w, row, h, c, r).value)
  {
    hide Core;
    AtJoinOk(s, w, row, AttachRoom(h, c));
    var s' := AttachStep(s, w, row, h, c, r).value;
    if r == Done || r == Lost {
      AttachedKeeps(s, w, row, h, c, s'.tracked, s'.runs[w].pc);
    } else {
      GotoKeeps(s, w, row, Doubt(h));
    }
  }

  /** The transaction commits, and the worker goes on or, interrupted, doubts. */
  lemma AttachedKeeps(s: State, w: nat, row: Join, h: Held, c: Channel, tracked: set<Channel>, next: JoinPc)
    requires AtJoin(s, w, row, AttachRoom(h, c)) && h.id in s.t.intents
    requires s.t.intents[h.id].guild == row.guild && s.t.intents[h.id].user == row.user
    requires next == Doubt(h) || next == Arrive(h.(channel := Some(c), phase := Created))
    requires Attach(s.t, h.id, row.guild, row.user, h.profile, c).Some?
    ensures var t' := Attach(s.t, h.id, row.guild, row.user, h.profile, c).value;
            Core(Goto(s.(t := t', tracked := tracked), w, row, next))
  {
    var s1 := s.(t := Attach(s.t, h.id, row.guild, row.user, h.profile, c).value, tracked := tracked);
    AttachWrites(s.t, h.id, h.profile, c);
    hide Core, Attach;
    AttachKeeps(s, s1, w, h.id, c, h.profile);
    AtJoinOk(s1, w, row, AttachRoom(h, c));
    GotoKeeps(s1, w, row, next);
  }

  lemma ArriveKeeps(s: State, w: nat, row: Join, h: Held, r: Reply)
    requires AtJoin(s, w, row, Arrive(h))
    requires ArriveStep(s, w, row, h, r).Some?
    ensures Core(ArriveStep(s, w, row, h, r).value)
  {
    hide Core;
    AtJoinOk(s, w, row, Arrive(h));
    GotoKeeps(s, w, row, ArriveStep(s, w, row, h, r).value.runs[w].pc);
  }

  lemma MovingKeeps(s: State, w: nat, row: Join, h: Held, r: Reply)
    requires AtJoin(s, w, row, Moving(h))
    requires MovingStep(s, w, row, h, r).Some?
    ensures Core(MovingStep(s, w, row, h, r).value)
  {
    hide Core;
    AtJoinOk(s, w, row, Moving(h));
    if r != Transmit {
      GotoKeeps(s, w, row, MovingStep(s, w, row, h, r).value.runs[w].pc);
    }
  }

  lemma PanelKeeps(s: State, w: nat, row: Join, h: Held, r: Reply)
    requires AtJoin(s, w, row, Panel(h))
    requires PanelStep(s, w, row, h, r).Some?
    ensures Core(PanelStep(s, w, row, h, r).value)
  {
    hide Core;
    AtJoinOk(s, w, row, Panel(h));
    GotoKeeps(s, w, row, PanelStep(s, w, row, h, r).value.runs[w].pc);
  }

  lemma SendPanelKeeps(s: State, w: nat, row: Join, h: Held, r: Reply)
    requires AtJoin(s, w, row, SendPanel(h))
    requires SendPanelStep(s, w, row, h, r).Some?
    ensures Core(SendPanelStep(s, w, row, h, r).value)
  {
    hide Core;
    AtJoinOk(s, w, row, SendPanel(h));
    GotoKeeps(s, w, row, SendPanelStep(s, w, row, h, r).value.runs[w].pc);
  }

  lemma CountedOk(s: State, row: Join, h: Held)
    requires Core(s) && Attached(s.t.intents, row, h) && s.t.intents[h.id].phase == Moved
    ensures var v := s.t.intents[h.id].(phase := Completed, completed := Some(s.clock));
            && Complete(s.t, h.id, s.clock) == s.t.(intents := s.t.intents[h.id := v], created := s.t.created + 1)
            && IntentOk(s.world, h.id, v) && v.guild == row.guild && v.user == row.user && !Open(v.phase)
  {
    IntentOkAt(s, h.id);
    hide OthersClosed, RunsOk, WorldOk, OneOpenIntentEach, OneRoomEach, RoomsOk;
  }

  /** A worker closes the intent it holds and is done with it. */
  lemma ClosedKeeps(s: State, w: nat, row: Join, h: Held, v: Intent, created: nat)
    requires Core(s) && w in s.runs && s.runs[w].JoinRun? && s.runs[w].row == row && h.id in s.t.intents
    requires IntentOk(s.world, h.id, v) && !Open(v.phase)
    requires s.t.intents[h.id].guild == v.guild == row.guild && s.t.intents[h.id].user == v.user
    ensures Core(Goto(s.(t := s.t.(intents := s.t.intents[h.id := v], created := created)), w, row, Finish))
  {
    var t' := s.t.(intents := s.t.intents[h.id := v], created := created);
    CoreTables(s);
    assert MayWrite(s, t', h.id, v);
    hide Core, MayWrite;
    WriteKeeps(s, Goto(s.(t := t'), w, row, Finish), w, h.id, v, JoinRun(row, Finish));
  }

  lemma CountKeeps(s: State, w: nat, row: Join, h: Held)
    requires AtJoin(s, w, row, Count(h))
    ensures Core(Goto(s.(t := Complete(s.t, h.id, s.clock)), w, row, Finish))
  {
    AtJoinOk(s, w, row, Count(h));
    hide Core, OthersClosed;
    if s.t.intents[h.id].phase == Moved {
      CountedOk(s, row, h);
      hide Complete, IntentOk, IdsMinted;
      ClosedKeeps(s, w, row, h, s.t.intents[h.id].(phase := Completed, completed := Some(s.clock)), s.t.created + 1);
    } else {
      GotoKeeps(s, w, row, Finish);
    }
  }

  lemma EndKeeps(s: State, w: nat, row: Join, again: Option<real>, r: Reply)
    requires AtJoin(s, w, row, End(again))
    requires EndStep(s, w, row, again, r).Some?
    ensures Core(EndStep(s, w, row, again, r).value)
  {
    hide Core;
    if again.Some? && r == Done {
      var op := StoreRuns.OpDefer(row, again.value);
      TableOpKeeps(s, op);
      ReleaseKeeps(s.(t := StoreRuns.Commit(s.t, op, s.clock)), w);
    } else {
      ReleaseKeeps(s, w);
    }
  }

  /** The pcs at which a run only reads, or ends. */
  predicate Reading(pc: JoinPc) {
    pc.Start? || pc.Audit? || pc.Presence? || pc.Recheck? || pc.Reread? || pc.Preflight? || pc.FetchOwn?
    || pc.FindOther? || pc.FetchOther? || pc.Create? || pc.Await? || pc.Arrive? || pc.Moving? || pc.Panel?
    || pc.SendPanel? || pc.End?
  }

  /** The pcs at which it is about to update the phase of its intent. */
  predicate Marking(pc: JoinPc) {
    pc.MarkUnresolved? || pc.Retarget? || pc.MarkSent? || pc.Withdraw? || pc.Reject? || pc.Doubt? || pc.MarkMoved?
    || pc.BlockPanel? || pc.AbandonIntent?
  }

  lemma ReadingKeeps(s: State, w: nat, row: Join, pc: JoinPc, r: Reply)
    requires AtJoin(s, w, row, pc) && JoinNext(s, w, row, pc, r).Some? && Reading(pc)
    requires r != Fail || pc.End?
    ensures Core(JoinNext(s, w, row, pc, r).value)
  {
    hide Core;
    match pc
    case Start => ReadIntentKeeps(s, w, row, pc, r);
    case Audit(h) => AuditKeeps(s, w, row, h, r);
    case Presence(h) => PresenceKeeps(s, w, row, h, JoinNext(s, w, row, pc, r).value.runs[w].pc.present);
    case Recheck(h, present) => RecheckKeeps(s, w, row, h, present, r);
    case Reread => ReadIntentKeeps(s, w, row, pc, r);
    case Preflight(h) => PreflightKeeps(s, w, row, h, r);
    case FetchOwn(h) => FetchOwnKeeps(s, w, row, h, r);
    case FindOther(h) => FindOtherKeeps(s, w, row, h, r);
    case FetchOther(h, c) => FetchOtherKeeps(s, w, row, h, c, r);
    case Create(h) => CreateKeeps(s, w, row, h, r);
    case Await(h) => AwaitKeeps(s, w, row, h, r);
    case Arrive(h) => ArriveKeeps(s, w, row, h, r);
    case Moving(h) => MovingKeeps(s, w, row, h, r);
    case Panel(h) => PanelKeeps(s, w, row, h, r);
    case SendPanel(h) => SendPanelKeeps(s, w, row, h, r);
    case End(again) => EndKeeps(s, w, row, again, r);
  }

  lemma UnsentMarkingKeeps(s: State, w: nat, row: Join, pc: JoinPc)
    requires AtJoin(s, w, row, pc) && Marking(pc) && !pc.MarkMoved? && !pc.BlockPanel?
    requires (pc.Retarget? || pc.AbandonIntent?) ==> pc.h.channel.None?
    requires JoinNext(s, w, row, pc, Done).Some?
    ensures Core(JoinNext(s, w, row, pc, Done).value)
  {
    hide Core, Mark, SetPhase;
    AtJoinOk(s, w, row, pc);
    match pc
    case MarkUnresolved(h) => UnresolvedMarkKeeps(s, w, row, pc, h, Audit(h));
    case Retarget(h) => UnsentMarkKeeps(s, w, row, pc, h, Cancelled, Reread);
    case MarkSent(h) => UnsentMarkKeeps(s, w, row, pc, h, Sent, Create(h));
    case Withdraw(h, delay) => UnsentMarkKeeps(s, w, row, pc, h, Prepared, End(Some(delay)));
    case Reject(h) => UnsentMarkKeeps(s, w, row, pc, h, Cancelled, RejectJoin);
    case Doubt(h) => UnresolvedMarkKeeps(s, w, row, pc, h, End(Some(60.0)));
    case AbandonIntent(h, again) => UnsentMarkKeeps(s, w, row, pc, h, Cancelled, End(again));
  }

  lemma AttachedMarkingKeeps(s: State, w: nat, row: Join, pc: JoinPc)
    requires AtJoin(s, w, row, pc)
    requires pc.MarkMoved? || pc.BlockPanel? || ((pc.Retarget? || pc.AbandonIntent?) && pc.h.channel.Some?)
    requires JoinNext(s, w, row, pc, Done).Some?
    ensures Core(JoinNext(s, w, row, pc, Done).value)
  {
    hide Core, Mark, SetPhase, Attached, JoinOk;
    AttachedAt(s, w, row, pc);
    match pc
    case Retarget(h) => AttachedMarkKeeps(s, w, row, pc, h, Cancelled, RetargetCleanup(h));
    case MarkMoved(h) => AttachedMarkKeeps(s, w, row, pc, h, Moved, Panel(h));
    case BlockPanel(h) => AttachedMarkKeeps(s, w, row, pc, h, PanelBlocked, BlockPanelJoin);
    case AbandonIntent(h, again) => AttachedMarkKeeps(s, w, row, pc, h, Cancelled, AbandonRoom(h, again));
  }

  function AfterAbandonJoin(h: Held, again: Option<real>): JoinPc {
    if h.phase == Unresolved || h.phase == Sent then End(again) else AbandonIntent(h, again)
  }

  lemma AfterAbandonJoinOk(world: World, n: map<IntentId, Intent>, row: Join, h: Held, again: Option<real>)
    requires JoinOk(world, n, row, AbandonJoin(h, again))
    ensures JoinOk(world, n, row, AfterAbandonJoin(h, again))
  {
    hide Either;
  }

  lemma AbandonJoinStep(s: State, w: nat, row: Join, h: Held, again: Option<real>)
    ensures JoinNext(s, w, row, AbandonJoin(h, again), Done) == Some(Goto(Dequeue(s, row), w, row, AfterAbandonJoin(h, again)))
  {
    hide Dequeue;
  }

  lemma AbandonJoinKeeps(s: State, w: nat, row: Join, h: Held, again: Option<real>)
    requires AtJoin(s, w, row, AbandonJoin(h, again))
    ensures Core(JoinNext(s, w, row, AbandonJoin(h, again), Done).value)
  {
    AtJoinOk(s, w, row, AbandonJoin(h, again));
    hide AtJoin, JoinOk, Core, Goto, Dequeue, JoinNext;
    AfterAbandonJoinOk(s.world, s.t.intents, row, h, again);
    AbandonJoinStep(s, w, row, h, again);
    DequeueKeeps(s, w, row, AbandonJoin(h, again), AfterAbandonJoin(h, again));
  }

  lemma DequeuingKeeps(s: State, w: nat, row: Join, pc: JoinPc)
    requires AtJoin(s, w, row, pc)
    requires pc.RejectJoin? || pc.BlockPanelJoin? || pc.Finish? || pc.AbandonJoin?
    requires JoinNext(s, w, row, pc, Done).Some?
    ensures Core(JoinNext(s, w, row, pc, Done).value)
  {
    hide AtJoin, Core, Goto, Dequeue,
         ReadIntent, AuditStep, AuditAttachStep, RecheckStep, PreflightStep, FetchOwnStep, FindOtherStep,
         FetchOtherStep, CreateStep, AwaitStep, AttachStep, ArriveStep, MovingStep, PanelStep, SendPanelStep, EndStep, Mark;
    if pc.AbandonJoin? {
      AbandonJoinKeeps(s, w, row, pc.h, pc.again);
    } else {
      DequeueKeeps(s, w, row, pc, if pc.RejectJoin? then End(Some(60.0)) else End(None));
    }
  }

  lemma DroppingKeeps(s: State, w: nat, row: Join, pc: JoinPc)
    requires AtJoin(s, w, row, pc) && JoinNext(s, w, row, pc, Done).Some?
    requires pc.OwnGone? || pc.OwnGoneIntent? || pc.OtherGone?
    ensures Core(JoinNext(s, w, row, pc, Done).value)
  {
    hide Core, Goto, AddCleanup, SetPanel, Complete, DropRoom, Deleted, Dequeue;
    AtJoinOk(s, w, row, pc);
    match pc
    case OwnGone(h) => DropGotoKeeps(s, w, row, pc, h.channel.value, OwnGoneIntent(h));
    case OwnGoneIntent(h) => DeletedGotoKeeps(s, w, row, pc, h.channel.value);
    case OtherGone(c) => DropGotoKeeps(s, w, row, pc, c, End(Some(1.0)));
  }

  lemma RoomWritingKeeps(s: State, w: nat, row: Join, pc: JoinPc)
    requires AtJoin(s, w, row, pc) && JoinNext(s, w, row, pc, Done).Some?
    requires pc.RetargetCleanup? || pc.OtherEmpty? || pc.AbandonRoom?
    ensures Core(JoinNext(s, w, row, pc, Done).value)
  {
    hide Core, Goto, AddCleanup;
    match pc
    case RetargetCleanup(h) => AddCleanupKeeps(s, w, row, pc, h.channel.value, End(Some(5.0)));
    case OtherEmpty(c) => AddCleanupKeeps(s, w, row, pc, c, End(Some(5.0)));
    case AbandonRoom(h, again) => AddCleanupKeeps(s, w, row, pc, h.channel.value, End(again));
  }

  lemma SavePanelKeeps(s: State, w: nat, row: Join, h: Held, message: nat)
    requires AtJoin(s, w, row, SavePanel(h, message)) && h.channel.Some?
    ensures Core(Goto(s.(t := SetPanel(s.t, h.channel.value, message)), w, row, Count(h)))
  {
    hide Core;
    AtJoinOk(s, w, row, SavePanel(h, message));
    SetPanelKeeps(s, w, row, SavePanel(h, message), h.channel.value, message, Count(h));
  }

  lemma JoinKeeps(s: State, w: nat, row: Join, pc: JoinPc, r: Reply)
    requires AtJoin(s, w, row, pc) && JoinNext(s, w, row, pc, r).Some?
    ensures Core(JoinNext(s, w, row, pc, r).value)
  {
    hide Core, ReadIntent, AuditStep, AuditAttachStep, RecheckStep, PreflightStep, FetchOwnStep, FindOtherStep,
         FetchOtherStep, CreateStep, AwaitStep, AttachStep, ArriveStep, MovingStep, PanelStep, SendPanelStep, EndStep, Mark;
    if r == Fail && !pc.End? && !pc.AttachRoom? {
      GotoKeeps(s, w, row, End(Some(60.0)));
    } else if Reading(pc) {
      ReadingKeeps(s, w, row, pc, r);
    } else if Marking(pc) {
      AtJoinOk(s, w, row, pc);
      if pc.MarkMoved? || pc.BlockPanel? || ((pc.Retarget? || pc.AbandonIntent?) && pc.h.channel.Some?) {
        AttachedMarkingKeeps(s, w, row, pc);
      } else {
        UnsentMarkingKeeps(s, w, row, pc);
      }
    } else if pc.AttachRoom? {
      AttachStepKeeps(s, w, row, pc.h, pc.room, r);
    } else if pc.AuditAttach? {
      AuditAttachKeeps(s, w, row, pc.h, pc.room, r);
    } else if pc.RejectJoin? || pc.BlockPanelJoin? || pc.Finish? || pc.AbandonJoin? {
      DequeuingKeeps(s, w, row, pc);
    } else if pc.OwnGone? || pc.OwnGoneIntent? || pc.OtherGone? {
      DroppingKeeps(s, w, row, pc);
    } else if pc.SavePanel? {
      SavePanelKeeps(s, w, row, pc.h, pc.message);
    } else if pc.Count? {
      CountKeeps(s, w, row, pc.h);
    } else {
      RoomWritingKeeps(s, w, row, pc);
    }
  }

  // ---- the cleanup worker ----------------------------------------------------

  lemma CleanOkAt(s: State, w: nat, key: CleanupKey, at: CleanPc)
    requires Core(s) && w in s.runs && s.runs[w] == CleanRun(key, at)
    ensures CleanOk(s.world, s.t.intents, key, at)
  {
    assert RunOk(s.world, s.t.intents, s.runs[w]);
  }

  lemma LookupKeeps(s: State, w: nat, key: CleanupKey)
    requires Core(s) && w in s.runs && s.runs[w] == CleanRun(key, Lookup)
    ensures Core(CleanNext(s, w, key, Lookup, Done).value)
  {
    CleanToKeeps(s, w, key, if key.channel in s.t.rooms then Guard else Record(None));
  }

  /** The protection check is what lets the run go on towards a delete. */
  lemma GuardKeeps(s: State, w: nat, key: CleanupKey, r: Reply)
    requires Core(s) && w in s.runs && s.runs[w] == CleanRun(key, Guard)
    requires r != Fail && CleanNext(s, w, key, Guard, r).Some?
    ensures Core(CleanNext(s, w, key, Guard, r).value)
  {
    hide Core;
    CleanOkAt(s, w, key, Guard);
    var s' := CleanNext(s, w, key, Guard, r).value;
    if !Protects(s.t, key.channel) {
      assert Unprotected(s.t.intents, key.channel);
    }
    CleanToKeeps(s, w, key, s'.runs[w].at);
  }

  lemma VisitKeeps(s: State, w: nat, key: CleanupKey, r: Reply)
    requires Core(s) && w in s.runs && s.runs[w] == CleanRun(key, Visit)
    requires VisitStep(s, w, key, r).Some?
    ensures Core(VisitStep(s, w, key, r).value)
  {
    hide Core;
    CleanOkAt(s, w, key, Visit);
    CleanToKeeps(s, w, key, VisitStep(s, w, key, r).value.runs[w].at);
  }

  lemma SecondKeeps(s: State, w: nat, key: CleanupKey)
    requires Core(s) && w in s.runs && s.runs[w] == CleanRun(key, Second)
    ensures Core(CleanNext(s, w, key, Second, Done).value)
  {
    hide Core;
    CleanOkAt(s, w, key, Second);
    CleanToKeeps(s, w, key, if key.channel in s.t.rooms then Reconcile else Forget(false));
  }

  lemma ReconcileKeeps(s: State, w: nat, key: CleanupKey, r: Reply)
    requires Core(s) && w in s.runs && s.runs[w] == CleanRun(key, Reconcile)
    requires ReconcileStep(s, w, key, r).Some?
    ensures Core(ReconcileStep(s, w, key, r).value)
  {
    hide Core;
    CleanOkAt(s, w, key, Reconcile);
    var s' := ReconcileStep(s, w, key, r).value;
    if r.Posted? {
      TableOpKeeps(s, StoreRuns.OpSetPanel(key.channel, r.message));
      CleanToKeeps(s.(t := SetPanel(s.t, key.channel, r.message)), w, key, s'.runs[w].at);
    } else {
      CleanToKeeps(s, w, key, s'.runs[w].at);
    }
  }

  /** The live set shrinks; everything Core says survives. */
  lemma VanishKeeps(s: State, c: Channel)
    requires Core(s)
    ensures Core(s.(world := s.world.(live := s.world.live - {c})))
  {
    forall x | x in s.runs ensures RunOk(s.world.(live := s.world.live - {c}), s.t.intents, s.runs[x]) {
      VanishUnaffected(s.world, s.t.intents, c, s.runs[x]);
    }
  }

  lemma DeleteStepKeeps(s: State, w: nat, key: CleanupKey, early: bool, r: Reply)
    requires Core(s) && w in s.runs && s.runs[w] == CleanRun(key, Delete(early))
    requires DeleteStep(s, w, key, early, r).Some?
    ensures Core(DeleteStep(s, w, key, early, r).value)
  {
    hide Core;
    CleanOkAt(s, w, key, Delete(early));
    var s' := DeleteStep(s, w, key, early, r).value;
    if r == Done {
      VanishKeeps(s, key.channel);
      CleanToKeeps(s.(world := s'.world), w, key, Drop(early));
    } else {
      CleanToKeeps(s, w, key, s'.runs[w].at);
    }
  }

  lemma CleanWriteKeeps(s: State, w: nat, key: CleanupKey, at: CleanPc)
    requires Core(s) && w in s.runs && s.runs[w] == CleanRun(key, at) && (at.Drop? || at.Forget?)
    ensures Core(CleanNext(s, w, key, at, Done).value)
  {
    CleanOkAt(s, w, key, at);
    var s' := CleanNext(s, w, key, at, Done).value;
    var s1 := s.(t := s'.t, tracked := s'.tracked);
    if at.Drop? {
      DropKeeps(s, s1, key.channel);
    } else {
      DeletedKeeps(s, s1, key.channel);
    }
    CleanToKeeps(s1, w, key, s'.runs[w].at);
  }

  lemma RecordKeeps(s: State, w: nat, key: CleanupKey, again: Option<real>, r: Reply)
    requires Core(s) && w in s.runs && s.runs[w] == CleanRun(key, Record(again))
    requires RecordStep(s, w, key, again, r).Some?
    ensures Core(RecordStep(s, w, key, again, r).value)
  {
    hide Core;
    if r == Done {
      var op := StoreRuns.OpCleanupResult(key, again);
      TableOpKeeps(s, op);
      ReleaseKeeps(s.(t := StoreRuns.Commit(s.t, op, s.clock)), w);
    } else {
      ReleaseKeeps(s, w);
    }
  }

  lemma CleanKeeps(s: State, w: nat, key: CleanupKey, at: CleanPc, r: Reply)
    requires Core(s) && w in s.runs && s.runs[w] == CleanRun(key, at)
    requires CleanNext(s, w, key, at, r).Some?
    ensures Core(CleanNext(s, w, key, at, r).value)
  {
    hide Core;
    if r == Fail && !at.Record? {
      CleanToKeeps(s, w, key, Record(Some(60.0)));
    } else {
      match at
      case Delete(early) => DeleteStepKeeps(s, w, key, early, r);
      case Drop(_) => CleanWriteKeeps(s, w, key, at);
      case Forget(_) => CleanWriteKeeps(s, w, key, at);
      case Record(again) => RecordKeeps(s, w, key, again, r);
      case Lookup => LookupKeeps(s, w, key);
      case Guard => GuardKeeps(s, w, key, r);
      case Visit => VisitKeeps(s, w, key, r);
      case Second => SecondKeeps(s, w, key);
      case Reconcile => ReconcileKeeps(s, w, key, r);
    }
  }

  // ---- staff, members, Discord, crashes --------------------------------------

  lemma StaffStartKeeps(s: State, w: nat, i: IntentId, evidence: Option<Channel>)
    requires Core(s) && StaffStart(s, w, i, evidence).Some?
    ensures Core(StaffStart(s, w, i, evidence).value)
  {
    var n := s.t.intents[i];
    IntentOkAt(s, i);
    StartKeeps(s, w, StaffRun(i, n.guild, n.user, n.profile, evidence));
  }

  lemma StaffKeeps(s: State, w: nat, r: Reply)
    requires Core(s) && w in s.runs && s.runs[w].StaffRun?
    requires StaffNext(s, w, s.runs[w], r).Some?
    ensures Core(StaffNext(s, w, s.runs[w], r).value)
  {
    var run := s.runs[w];
    assert RunOk(s.world, s.t.intents, run);
    var s' := StaffNext(s, w, run, r).value;
    var s1 := s.(t := s'.t, tracked := s'.tracked);
    if r == Done && run.evidence.Some? {
      AttachKeeps(s, s1, w, run.id, run.evidence.value, run.profile);
    } else if r == Done {
      OnlyCancelsKeeps(s, s1);
    }
    ReleaseKeeps(s1, w);
  }

  lemma LandKeepsIntent(world: World, i: IntentId, c: Channel, j: IntentId, n: Intent)
    requires IntentOk(world, j, n) && i in world.inflight && c !in world.made
    ensures IntentOk(World(world.made[c := i], world.live + {c}, world.inflight - {i}), j, n)
  {
  }

  lemma LandKeepsWorld(world: World, n: map<IntentId, Intent>, i: IntentId, c: Channel)
    requires WorldOk(world, n) && i in world.inflight && c !in world.made && i in n && n[i].guild == c.guild
    ensures WorldOk(World(world.made[c := i], world.live + {c}, world.inflight - {i}), n)
  {
  }

  lemma LandKeeps(s: State, i: IntentId, c: Channel)
    requires Core(s) && Next(s, Land(i, c)).Some?
    ensures Core(Next(s, Land(i, c)).value)
  {
    var s' := Next(s, Land(i, c)).value;
    hide Next, RunOk, IntentOk, WorldOk;
    forall x | x in s.runs ensures RunOk(s'.world, s.t.intents, s.runs[x]) {
      LandUnaffected(s.world, s.t.intents, i, c, s.runs[x]);
    }
    forall j | j in s.t.intents ensures IntentOk(s'.world, j, s.t.intents[j]) {
      LandKeepsIntent(s.world, i, c, j, s.t.intents[j]);
    }
    LandKeepsWorld(s.world, s.t.intents, i, c);
  }

  lemma RestartKeeps(s: State)
    requires Core(s)
    ensures Core(Booted(Stopped(s)))
  {
    var s' := Booted(Stopped(s));
    RestoredOk(s.world, s.t);
    hide IntentsOk, WorldOk, OneOpenIntentEach, Restore;
  }

  lemma RestoredOk(world: World, t: Tables)
    requires IntentsOk(world, t.intents) && WorldOk(world, t.intents) && OneOpenIntentEach(t.intents) && IdsMinted(t)
    ensures var n := Restore(t).intents; IntentsOk(world, n) && WorldOk(world, n) && OneOpenIntentEach(n)
    ensures IdsMinted(Restore(t)) && Restore(t).rooms == t.rooms
  {
    RestoredIntents(world, t);
    hide IntentsOk;
  }

  lemma RestoredIntents(world: World, t: Tables)
    requires IntentsOk(world, t.intents)
    ensures IntentsOk(world, Restore(t).intents)
  {
    forall i | i in t.intents ensures IntentOk(world, i, Restore(t).intents[i]) {
      assert IntentOk(world, i, t.intents[i]);
    }
  }

  lemma OutsideKeeps(s: State, clock: real, voice: map<(Guild, User), Channel>)
    requires Core(s)
    ensures Core(s.(clock := clock)) && Core(s.(voice := voice))
  {
  }

  lemma EnvironmentKeeps(s: State, a: Action)
    requires Core(s) && Next(s, a).Some?
    requires a.Tick? || a.JoinLobby? || a.LeaveQueue? || a.AskCleanup? || a.VoiceMove? || a.ChangeOwner?
    ensures Core(Next(s, a).value)
  {
    hide Core;
    var s' := Next(s, a).value;
    OutsideKeeps(s, s'.clock, s'.voice);
    match a
    case Tick(_) =>
    case VoiceMove(_, _, _) =>
    case JoinLobby(g, u, lobby, profile) => TableOpKeeps(s, StoreRuns.OpEnqueue(g, u, lobby, profile));
    case LeaveQueue(g, u) => TableOpKeeps(s, StoreRuns.OpCancel(g, u, None));
    case AskCleanup(c, leaver) => TableOpKeeps(s, StoreRuns.OpAddCleanup(c.guild, c, leaver));
    case ChangeOwner(c, u) => TableOpKeeps(s, StoreRuns.OpTransfer(c, u));
  }

  /** Every action keeps Core, stale handler writes included. */
  lemma StepKeepsCore(s: State, a: Action)
    requires Core(s) && Next(s, a).Some?
    ensures Core(Next(s, a).value)
  {
    hide Core;
    match a
    case Crash => CrashKeeps(s);
    case Restart => RestartKeeps(s);
    case CancelIntent(i, _) => OnlyCancelsKeeps(s, Next(s, a).value);
    case Land(i, c) => LandKeeps(s, i, c);
    case Vanish(c) => VanishKeeps(s, c);
    case GatewayDrop(c) => DropKeeps(s, Next(s, a).value, c);
    case GatewayClose(c) => DeletedKeeps(s, Next(s, a).value, c);
    case StartJoin(w, row) => StartKeeps(s, w, JoinRun(row, Start));
    case JoinStep(w, r) => JoinKeeps(s, w, s.runs[w].row, s.runs[w].pc, r);
    case StartClean(w, key) => StartKeeps(s, w, CleanRun(key, Lookup));
    case CleanStep(w, r) => CleanKeeps(s, w, s.runs[w].key, s.runs[w].at, r);
    case StartStaff(w, i, evidence) => StaffStartKeeps(s, w, i, evidence);
    case StaffStep(w, r) => StaffKeeps(s, w, r);
    case _ => EnvironmentKeeps(s, a);
  }

  lemma CrashKeeps(s: State)
    requires Core(s)
    ensures Core(Stopped(s))
  {
  }

  lemma InitIsCore(s: State)
    requires Init(s)
    ensures Core(s)
  {
  }
}
