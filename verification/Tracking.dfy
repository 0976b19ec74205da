/** No room is forgotten: every channel the bot made and that still exists is
    tracked, or its intent is durably marked as possibly having made it. This
    needs one thing Core does not: that no handler overwrites the phase of an
    intent whose create is pending. */
module Tracking {
  import opened Common
  import opened Tables
  import opened Protocol
  import opened ProtocolInvariant
  import opened ProtocolSteps

  /** The phases that record that a create may have taken effect. */
  predicate Pending(p: Phase) {
    p == Sent || p == Unresolved
  }

  ghost predicate FlightKnown(world: World, n: map<IntentId, Intent>) {
    forall i | i in world.inflight :: i in n && Pending(n[i].phase)
  }

  ghost predicate LiveKnown(world: World, n: map<IntentId, Intent>, rooms: set<Channel>) {
    forall c | c in world.live ::
      c in rooms || (c in world.made && world.made[c] in n && Pending(n[world.made[c]].phase))
  }

  ghost predicate RecordedKept(world: World, n: map<IntentId, Intent>, rooms: set<Channel>) {
    forall i | i in n && n[i].channel.Some? && n[i].channel.value in world.live :: n[i].channel.value in rooms
  }

  /** A create is only ever transmitted for an intent already durably `sent`,
      which stays so while it is in flight; staff only close an intent that made
      nothing that still exists. */
  ghost predicate RunKnown(world: World, n: map<IntentId, Intent>, run: Run) {
    match run
    case JoinRun(_, Create(h)) => h.id in n && n[h.id].phase == Sent
    case JoinRun(_, Await(h)) => h.id in n && (h.id in world.inflight ==> n[h.id].phase == Sent)
    case JoinRun(_, _) => true
    case CleanRun(_, _) => true
    case StaffRun(i, _, _, _, evidence) =>
      evidence.None? ==> i !in world.inflight && forall c | c in world.live && c in world.made :: world.made[c] != i
  }

  /** Between the durable `sent` and the answer to the create. */
  predicate Sending(pc: JoinPc) {
    pc.Create? || pc.Await?
  }

  ghost predicate RunsKnown(world: World, n: map<IntentId, Intent>, runs: map<nat, Run>) {
    forall w | w in runs :: RunKnown(world, n, runs[w])
  }

  ghost predicate Tracked(s: State) {
    && FlightKnown(s.world, s.t.intents)
    && LiveKnown(s.world, s.t.intents, s.t.rooms.Keys)
    && RecordedKept(s.world, s.t.intents, s.t.rooms.Keys)
    && RunsKnown(s.world, s.t.intents, s.runs)
  }

  /** A handler's write that lands on a pending intent: the row it read has been
      sent since. */
  predicate Stale(s: State, a: Action) {
    a.CancelIntent? && a.i in s.t.intents && Pending(s.t.intents[a.i].phase)
  }

  // ---- effects ---------------------------------------------------------------

  /** Nothing is made or phased; channels may disappear, requests may end. */
  lemma QuietKeeps(s: State, s': State)
    requires Tracked(s)
    requires s'.t.intents == s.t.intents && s.t.rooms.Keys <= s'.t.rooms.Keys
    requires s'.world.made == s.world.made && s'.world.live <= s.world.live && s'.world.inflight <= s.world.inflight
    requires forall w | w in s'.runs :: (w in s.runs && s'.runs[w] == s.runs[w]) || RunKnown(s'.world, s'.t.intents, s'.runs[w])
    ensures Tracked(s')
  {
    forall w | w in s'.runs ensures RunKnown(s'.world, s'.t.intents, s'.runs[w]) {
      if w in s.runs && s'.runs[w] == s.runs[w] {
        assert RunKnown(s.world, s.t.intents, s.runs[w]);
      }
    }
  }

  /** Dropping the record of a room that no longer exists. */
  lemma DropKeepsTracked(s: State, s': State, c: Channel)
    requires Tracked(s) && c !in s.world.live
    requires s'.t == DropRoom(s.t, c) && s'.world == s.world && s'.runs == s.runs
    ensures Tracked(s')
  {
  }

  /** Intent i is settled: pending, or with nothing in flight and nothing live
      outside the table. */
  ghost predicate Settled(world: World, rooms: set<Channel>, i: IntentId, v: Intent) {
    && (Pending(v.phase)
        || (i !in world.inflight && forall c | c in world.live && c in world.made && world.made[c] == i :: c in rooms))
    && (v.channel.Some? && v.channel.value in world.live ==> v.channel.value in rooms)
  }

  /** Run w rewrites its intent i. */
  lemma RewriteKeeps(s: State, s': State, w: nat, i: IntentId, v: Intent)
    requires Core(s) && Tracked(s)
    requires s'.t.intents == s.t.intents[i := v] && s.t.rooms.Keys <= s'.t.rooms.Keys && s'.world == s.world
    requires Settled(s.world, s'.t.rooms.Keys, i, v)
    requires w in s.runs && GuildOf(s.runs[w]) == v.guild && (i in s.t.intents ==> s.t.intents[i].guild == v.guild)
    requires forall x | x in s'.runs && x != w :: x in s.runs && s'.runs[x] == s.runs[x]
    requires w in s'.runs ==> RunKnown(s'.world, s'.t.intents, s'.runs[w])
    ensures Tracked(s')
  {
    OthersKnow(s, w, i, v);
    SettledIsKnown(s.world, s.t.intents, s.t.rooms.Keys, s'.t.rooms.Keys, i, v);
    hide Core, FlightKnown, LiveKnown, RecordedKept, Settled, RunKnown;
  }

  lemma SettledIsKnown(world: World, n: map<IntentId, Intent>, rooms: set<Channel>, rooms': set<Channel>, i: IntentId, v: Intent)
    requires FlightKnown(world, n) && LiveKnown(world, n, rooms) && RecordedKept(world, n, rooms)
    requires Settled(world, rooms', i, v) && rooms <= rooms'
    ensures FlightKnown(world, n[i := v]) && LiveKnown(world, n[i := v], rooms') && RecordedKept(world, n[i := v], rooms')
  {
  }

  lemma OthersKnow(s: State, w: nat, i: IntentId, v: Intent)
    requires Core(s) && RunsKnown(s.world, s.t.intents, s.runs)
    requires w in s.runs && GuildOf(s.runs[w]) == v.guild && (i in s.t.intents ==> s.t.intents[i].guild == v.guild)
    ensures forall x | x in s.runs && x != w :: RunKnown(s.world, s.t.intents[i := v], s.runs[x])
  {
    hide IntentsOk, WorldOk, RoomsOk, OneRoomEach, OneOpenIntentEach, IdsMinted, RunOk, RunKnown;
    forall x | x in s.runs && x != w ensures RunKnown(s.world, s.t.intents[i := v], s.runs[x]) {
      OtherRunKnows(s.world, s.t.intents, i, v, s.runs[x]);
    }
  }

  /** A run of another guild knows what it knew. */
  lemma OtherRunKnows(world: World, n: map<IntentId, Intent>, i: IntentId, v: Intent, run: Run)
    requires RunKnown(world, n, run) && RunOk(world, n, run) && GuildOf(run) != v.guild
    requires i in n ==> n[i].guild == v.guild
    ensures RunKnown(world, n[i := v], run)
  {
  }

  /** What Core says of an attached intent: its room is the only one it made. */
  lemma AttachedSettled(s: State, i: IntentId, p: Phase)
    requires Core(s) && Tracked(s) && i in s.t.intents && s.t.intents[i].channel.Some?
    ensures Settled(s.world, s.t.rooms.Keys, i, s.t.intents[i].(phase := p))
    ensures Settled(s.world, s.t.rooms.Keys, i, s.t.intents[i].(phase := p, completed := Some(s.clock)))
  {
    IntentOkAt(s, i);
  }

  lemma UnsentSettled(s: State, row: Join, h: Held, p: Phase)
    requires Core(s) && Tracked(s) && Unsent(s.world, s.t.intents, row, h)
    ensures Settled(s.world, s.t.rooms.Keys, h.id, s.t.intents[h.id].(phase := p))
  {
  }

  lemma PendingSettled(s: State, i: IntentId, p: Phase)
    requires Tracked(s) && i in s.t.intents && Pending(p)
    ensures Settled(s.world, s.t.rooms.Keys, i, s.t.intents[i].(phase := p))
  {
  }

  lemma AttachEffect(t: Tables, i: IntentId, profile: Profile, c: Channel)
    requires i in t.intents
    requires Attach(t, i, t.intents[i].guild, t.intents[i].user, profile, c).Some?
    ensures var t' := Attach(t, i, t.intents[i].guild, t.intents[i].user, profile, c).value;
            && t'.intents == t.intents[i := t.intents[i].(channel := Some(c), phase := Created)]
            && t'.rooms.Keys == t.rooms.Keys + {c}
  {
  }

  lemma AttachingOk(s: State, w: nat, i: IntentId, c: Channel)
    requires Core(s) && w in s.runs && Attaching(s.runs[w], i, c)
    ensures i in s.t.intents && GuildOf(s.runs[w]) == s.t.intents[i].guild
    ensures c in s.world.made && s.world.made[c] == i && i !in s.world.inflight
    ensures forall d | d in s.world.made && s.world.made[d] == i :: d == c
  {
    assert RunOk(s.world, s.t.intents, s.runs[w]);
  }

  /** Committing an attach records the room in the same transaction. */
  lemma AttachKeepsTracked(s: State, s': State, w: nat, i: IntentId, c: Channel, profile: Profile)
    requires Core(s) && Tracked(s) && w in s.runs && Attaching(s.runs[w], i, c) && i in s.t.intents
    requires var n := s.t.intents[i];
             var a := Attach(s.t, i, n.guild, n.user, profile, c);
             a.Some? && s'.t == a.value && s'.world == s.world
    requires forall x | x in s'.runs && x != w :: x in s.runs && s'.runs[x] == s.runs[x]
    requires w in s'.runs ==> s'.runs[w].JoinRun? && !Sending(s'.runs[w].pc)
    ensures Tracked(s')
  {
    hide Core, Tracked, Attach;
    AttachingOk(s, w, i, c);
    AttachEffect(s.t, i, profile, c);
    RewriteKeeps(s, s', w, i, s.t.intents[i].(channel := Some(c), phase := Created));
  }

  /** Some intents changed phase, each of them settled and none of them sent. */
  ghost predicate SettledCancels(s: State, m: map<IntentId, Intent>) {
    && OnlyCancels(s.t.intents, m)
    && forall i | i in s.t.intents && m[i] != s.t.intents[i] ::
         Settled(s.world, s.t.rooms.Keys, i, m[i]) && s.t.intents[i].phase != Sent
  }

  lemma CancelsKeepLive(s: State, m: map<IntentId, Intent>)
    requires Core(s) && Tracked(s) && SettledCancels(s, m)
    ensures LiveKnown(s.world, m, s.t.rooms.Keys)
  {
    forall c | c in s.world.live && c !in s.t.rooms
      ensures s.world.made[c] in m && Pending(m[s.world.made[c]].phase)
    {
      var i := s.world.made[c];
      assert i in s.t.intents && (m[i] != s.t.intents[i] ==> Settled(s.world, s.t.rooms.Keys, i, m[i]));
    }
  }

  lemma CancelsKeepRuns(s: State, m: map<IntentId, Intent>)
    requires Tracked(s) && SettledCancels(s, m)
    ensures RunsKnown(s.world, m, s.runs)
  {
    hide Settled;
    forall w | w in s.runs ensures RunKnown(s.world, m, s.runs[w]) {
      assert RunKnown(s.world, s.t.intents, s.runs[w]);
    }
  }

  lemma CancelsKeepTracked(s: State, s': State)
    requires Core(s) && Tracked(s) && SettledCancels(s, s'.t.intents)
    requires s'.t.rooms == s.t.rooms && s'.world == s.world && s'.runs == s.runs
    ensures Tracked(s')
  {
    CancelsKeepLive(s, s'.t.intents);
    CancelsKeepRuns(s, s'.t.intents);
    CancelsKeepFlight(s, s'.t.intents);
    hide Core, RunsKnown, LiveKnown, FlightKnown, RecordedKept, SettledCancels;
  }

  lemma CancelsKeepFlight(s: State, m: map<IntentId, Intent>)
    requires Core(s) && Tracked(s) && SettledCancels(s, m)
    ensures FlightKnown(s.world, m) && RecordedKept(s.world, m, s.t.rooms.Keys)
  {
    hide Core, RunsKnown, LiveKnown;
  }

  lemma DeletedKeepsTracked(s: State, s': State, c: Channel)
    requires Core(s) && Tracked(s) && s'.t == Deleted(s.t, c) && s'.world == s.world && s'.runs == s.runs
    ensures Tracked(s')
  {
    forall i | i in s.t.intents && s'.t.intents[i] != s.t.intents[i]
      ensures Settled(s.world, s.t.rooms.Keys, i, s'.t.intents[i]) && s.t.intents[i].phase != Sent
    {
      IntentOkAt(s, i);
      AttachedSettled(s, i, Cancelled);
    }
    CancelsKeepTracked(s, s');
  }

  // ---- the join worker -------------------------------------------------------

  /** A worker's phase update on its settled intent. */
  lemma MarkKeepsTracked(s: State, w: nat, row: Join, pc: JoinPc, h: Held, p: Phase, next: JoinPc)
    requires AtJoin(s, w, row, pc) && Tracked(s) && HeldOk(s.t.intents, row, h)
    requires Settled(s.world, s.t.rooms.Keys, h.id, s.t.intents[h.id].(phase := p))
    requires !Sending(next) || (next == Create(h) && p == Sent)
    ensures Tracked(Mark(s, w, row, h, p, next))
  {
    hide Core, Tracked, Settled, OthersClosed;
    var v := s.t.intents[h.id].(phase := p);
    assert SetPhase(s.t, h.id, p).Some?;
    RewriteKeeps(s, Mark(s, w, row, h, p, next), w, h.id, v);
  }

  lemma PendingMarkingKeepsTracked(s: State, w: nat, row: Join, pc: JoinPc)
    requires AtJoin(s, w, row, pc) && Tracked(s) && JoinNext(s, w, row, pc, Done).Some?
    requires pc.MarkUnresolved? || pc.Doubt? || pc.MarkSent?
    ensures Tracked(JoinNext(s, w, row, pc, Done).value)
  {
    hide Core, Tracked, Mark, SetPhase, Settled, OthersClosed;
    AtJoinOk(s, w, row, pc);
    match pc
    case MarkUnresolved(h) =>
      PendingSettled(s, h.id, Unresolved);
      MarkKeepsTracked(s, w, row, pc, h, Unresolved, Audit(h));
    case Doubt(h) =>
      PendingSettled(s, h.id, Unresolved);
      MarkKeepsTracked(s, w, row, pc, h, Unresolved, End(Some(60.0)));
    case MarkSent(h) =>
      PendingSettled(s, h.id, Sent);
      MarkKeepsTracked(s, w, row, pc, h, Sent, Create(h));
  }

  lemma UnsentMarkKeepsTracked(s: State, w: nat, row: Join, pc: JoinPc, h: Held, p: Phase, next: JoinPc)
    requires AtJoin(s, w, row, pc) && Tracked(s) && Unsent(s.world, s.t.intents, row, h)
    requires !Sending(next)
    ensures Tracked(Mark(s, w, row, h, p, next))
  {
    hide Core, Tracked, Mark, Settled;
    UnsentSettled(s, row, h, p);
    MarkKeepsTracked(s, w, row, pc, h, p, next);
  }

  lemma UnsentMarkingKeepsTracked(s: State, w: nat, row: Join, pc: JoinPc)
    requires AtJoin(s, w, row, pc) && Tracked(s) && JoinNext(s, w, row, pc, Done).Some?
    requires pc.Withdraw? || pc.Reject? || ((pc.Retarget? || pc.AbandonIntent?) && pc.h.channel.None?)
    ensures Tracked(JoinNext(s, w, row, pc, Done).value)
  {
    hide Core, Tracked, Mark, SetPhase, OthersClosed, Fresh;
    AtJoinOk(s, w, row, pc);
    match pc
    case Withdraw(h, delay) => UnsentMarkKeepsTracked(s, w, row, pc, h, Prepared, End(Some(delay)));
    case Reject(h) => UnsentMarkKeepsTracked(s, w, row, pc, h, Cancelled, RejectJoin);
    case Retarget(h) => UnsentMarkKeepsTracked(s, w, row, pc, h, Cancelled, Reread);
    case AbandonIntent(h, again) => UnsentMarkKeepsTracked(s, w, row, pc, h, Cancelled, End(again));
  }

  lemma AttachedMarkKeepsTracked(s: State, w: nat, row: Join, pc: JoinPc, h: Held, p: Phase, next: JoinPc)
    requires AtJoin(s, w, row, pc) && Tracked(s) && Attached(s.t.intents, row, h) && AfterMark(h, next)
    ensures Tracked(Mark(s, w, row, h, p, next))
  {
    hide Core, Tracked, Mark, Settled;
    AttachedSettled(s, h.id, p);
    MarkKeepsTracked(s, w, row, pc, h, p, next);
  }

  lemma AttachedMarkingKeepsTracked(s: State, w: nat, row: Join, pc: JoinPc)
    requires AtJoin(s, w, row, pc) && Tracked(s) && JoinNext(s, w, row, pc, Done).Some?
    requires pc.MarkMoved? || pc.BlockPanel? || ((pc.Retarget? || pc.AbandonIntent?) && pc.h.channel.Some?)
    ensures Tracked(JoinNext(s, w, row, pc, Done).value)
  {
    hide Core, Tracked, Mark, SetPhase, Attached;
    AttachedAt(s, w, row, pc);
    match pc
    case MarkMoved(h) => AttachedMarkKeepsTracked(s, w, row, pc, h, Moved, Panel(h));
    case BlockPanel(h) => AttachedMarkKeepsTracked(s, w, row, pc, h, PanelBlocked, BlockPanelJoin);
    case Retarget(h) => AttachedMarkKeepsTracked(s, w, row, pc, h, Cancelled, RetargetCleanup(h));
    case AbandonIntent(h, again) => AttachedMarkKeepsTracked(s, w, row, pc, h, Cancelled, AbandonRoom(h, again));
  }

  /** A step that changes neither intents nor Discord, and drops no room. */
  ghost predicate Quiet(s: State, s': State, w: nat) {
    && s'.t.intents == s.t.intents && s'.t.rooms.Keys == s.t.rooms.Keys && s'.world == s.world
    && (forall x | x in s'.runs && x != w :: x in s.runs && s'.runs[x] == s.runs[x])
    && (w in s'.runs ==> s'.runs[w].JoinRun? && !Sending(s'.runs[w].pc))
  }

  lemma QuietJoinKeeps(s: State, s': State, w: nat)
    requires Tracked(s) && Quiet(s, s', w)
    ensures Tracked(s')
  {
    QuietKeeps(s, s');
  }

  lemma FailIsQuiet(s: State, w: nat, row: Join)
    requires w in s.runs
    ensures Quiet(s, Goto(s, w, row, End(Some(60.0))), w)
  {
  }

  lemma EndIsQuiet(s: State, w: nat, row: Join, again: Option<real>, r: Reply)
    requires EndStep(s, w, row, again, r).Some?
    ensures Quiet(s, EndStep(s, w, row, again, r).value, w)
  {
  }

  lemma GotoIsQuiet(s: State, w: nat, row: Join, audited: set<IntentId>, next: JoinPc)
    requires !Sending(next)
    ensures Quiet(s, Goto(s.(audited := audited), w, row, next), w)
  {
  }

  lemma ChecksAreQuiet(s: State, w: nat, row: Join, pc: JoinPc, r: Reply)
    requires JoinNext(s, w, row, pc, r).Some? && r != Fail
    requires pc.Presence? || pc.Recheck? || pc.Preflight? || pc.FetchOwn? || pc.FindOther? || pc.FetchOther?
    ensures Quiet(s, JoinNext(s, w, row, pc, r).value, w)
  {
    hide Quiet, StillWaiting, InVoice, Current;
    var s' := JoinNext(s, w, row, pc, r).value;
    GotoIsQuiet(s, w, row, s.audited, s'.runs[w].pc);
    assert s' == Goto(s.(audited := s.audited), w, row, s'.runs[w].pc);
  }

  lemma AuditIsQuiet(s: State, w: nat, row: Join, h: Held, r: Reply)
    requires AuditStep(s, w, row, h, r).Some?
    ensures Quiet(s, AuditStep(s, w, row, h, r).value, w)
  {
    hide Quiet;
    var s' := AuditStep(s, w, row, h, r).value;
    GotoIsQuiet(s, w, row, s'.audited, s'.runs[w].pc);
  }

  lemma ReadIntentIsQuiet(s: State, w: nat, row: Join, r: Reply, first: bool)
    requires ReadIntent(s, w, row, r, first).Some? && r != Inserted
    ensures Quiet(s, ReadIntent(s, w, row, r, first).value, w)
  {
    hide Quiet, OpenFor;
    var s' := ReadIntent(s, w, row, r, first).value;
    GotoIsQuiet(s, w, row, s.audited, s'.runs[w].pc);
    assert s' == Goto(s.(audited := s.audited), w, row, s'.runs[w].pc);
  }

  lemma LaterReadsAreQuiet(s: State, w: nat, row: Join, pc: JoinPc, r: Reply)
    requires w in s.runs && s.runs[w] == JoinRun(row, pc) && JoinNext(s, w, row, pc, r).Some? && r != Fail
    requires pc.Arrive? || pc.Moving? || pc.Panel? || pc.SendPanel?
    ensures Quiet(s, JoinNext(s, w, row, pc, r).value, w)
  {
    hide Quiet, StillWaiting, InVoice, Current;
    var s' := JoinNext(s, w, row, pc, r).value;
    GotoIsQuiet(s, w, row, s.audited, s'.runs[w].pc);
    assert s' == Goto(s.(audited := s.audited), w, row, s'.runs[w].pc);
  }

  lemma ReadingIsQuiet(s: State, w: nat, row: Join, pc: JoinPc, r: Reply)
    requires w in s.runs && s.runs[w] == JoinRun(row, pc) && JoinNext(s, w, row, pc, r).Some?
    requires Reading(pc) && !pc.Create? && !pc.Await? && r != Inserted && (r != Fail || pc.End?)
    ensures Quiet(s, JoinNext(s, w, row, pc, r).value, w)
  {
    hide Quiet;
    if pc.End? {
      EndIsQuiet(s, w, row, pc.again, r);
    } else if pc.Start? || pc.Reread? {
      ReadIntentIsQuiet(s, w, row, r, pc.Start?);
    } else if pc.Audit? {
      AuditIsQuiet(s, w, row, pc.h, r);
    } else if pc.Arrive? || pc.Moving? || pc.Panel? || pc.SendPanel? {
      LaterReadsAreQuiet(s, w, row, pc, r);
    } else {
      ChecksAreQuiet(s, w, row, pc, r);
    }
  }

  /** Writes to the queue, the cleanup table or a panel. */
  lemma SideGotoIsQuiet(s: State, w: nat, row: Join, t: Tables, next: JoinPc)
    requires t.intents == s.t.intents && t.rooms.Keys == s.t.rooms.Keys && !Sending(next)
    ensures Quiet(s, Goto(s.(t := t), w, row, next), w)
  {
  }

  lemma DequeuingIsQuiet(s: State, w: nat, row: Join, pc: JoinPc)
    requires JoinNext(s, w, row, pc, Done).Some?
    requires pc.RejectJoin? || pc.BlockPanelJoin? || pc.Finish? || pc.AbandonJoin?
    ensures Quiet(s, JoinNext(s, w, row, pc, Done).value, w)
  {
    hide Quiet, Goto, CancelJoin;
    CancelIsSide(s, row);
    match pc
    case RejectJoin => SideGotoIsQuiet(s, w, row, Dequeue(s, row).t, End(Some(60.0)));
    case BlockPanelJoin => SideGotoIsQuiet(s, w, row, Dequeue(s, row).t, End(None));
    case Finish => SideGotoIsQuiet(s, w, row, Dequeue(s, row).t, End(None));
    case AbandonJoin(h, again) =>
      SideGotoIsQuiet(s, w, row, Dequeue(s, row).t,
                      if h.phase == Unresolved || h.phase == Sent then End(again) else AbandonIntent(h, again));
  }

  lemma CancelIsSide(s: State, row: Join)
    ensures Dequeue(s, row).t.intents == s.t.intents && Dequeue(s, row).t.rooms == s.t.rooms
  {
  }

  lemma AskingIsQuiet(s: State, w: nat, row: Join, pc: JoinPc)
    requires JoinNext(s, w, row, pc, Done).Some?
    requires pc.RetargetCleanup? || pc.OtherEmpty? || pc.AbandonRoom? || pc.SavePanel?
    ensures Quiet(s, JoinNext(s, w, row, pc, Done).value, w)
  {
    hide Quiet, Goto;
    match pc
    case RetargetCleanup(h) =>
      SideGotoIsQuiet(s, w, row, AddCleanup(s.t, row.guild, h.channel.value, None), End(Some(5.0)));
    case OtherEmpty(c) => SideGotoIsQuiet(s, w, row, AddCleanup(s.t, row.guild, c, None), End(Some(5.0)));
    case AbandonRoom(h, again) =>
      SideGotoIsQuiet(s, w, row, AddCleanup(s.t, row.guild, h.channel.value, None), End(again));
    case SavePanel(h, message) => SideGotoIsQuiet(s, w, row, SetPanel(s.t, h.channel.value, message), Count(h));
  }

  lemma SideIsQuiet(s: State, w: nat, row: Join, pc: JoinPc)
    requires JoinNext(s, w, row, pc, Done).Some?
    requires pc.RejectJoin? || pc.BlockPanelJoin? || pc.Finish? || pc.AbandonJoin? || pc.RetargetCleanup?
             || pc.OtherEmpty? || pc.AbandonRoom? || pc.SavePanel?
    ensures Quiet(s, JoinNext(s, w, row, pc, Done).value, w)
  {
    hide Quiet, JoinNext;
    if pc.RejectJoin? || pc.BlockPanelJoin? || pc.Finish? || pc.AbandonJoin? {
      DequeuingIsQuiet(s, w, row, pc);
    } else {
      AskingIsQuiet(s, w, row, pc);
    }
  }

  lemma InsertKeepsTracked(s: State, w: nat, row: Join, pc: JoinPc)
    requires AtJoin(s, w, row, pc) && Tracked(s) && (pc.Start? || pc.Reread?)
    requires ReadIntent(s, w, row, Inserted, pc.Start?).Some?
    ensures Tracked(ReadIntent(s, w, row, Inserted, pc.Start?).value)
  {
    var s' := ReadIntent(s, w, row, Inserted, pc.Start?).value;
    var i := s.t.minted;
    assert i !in s.t.intents && Fresh(s.world, i);
    RewriteKeeps(s, s', w, i, s'.t.intents[i]);
  }

  lemma CreateKeepsTracked(s: State, w: nat, row: Join, h: Held, r: Reply)
    requires AtJoin(s, w, row, Create(h)) && Tracked(s) && CreateStep(s, w, row, h, r).Some?
    ensures Tracked(CreateStep(s, w, row, h, r).value)
  {
    var s' := CreateStep(s, w, row, h, r).value;
    assert RunKnown(s.world, s.t.intents, s.runs[w]) && RunOk(s.world, s.t.intents, s.runs[w]);
    forall x | x in s'.runs ensures RunKnown(s'.world, s'.t.intents, s'.runs[x]) {
      if x != w {
        assert RunKnown(s.world, s.t.intents, s.runs[x]) && RunOk(s.world, s.t.intents, s.runs[x]);
      }
    }
  }

  lemma AwaitKeepsTracked(s: State, w: nat, row: Join, h: Held, r: Reply)
    requires AtJoin(s, w, row, Await(h)) && Tracked(s) && AwaitStep(s, w, row, h, r).Some?
    ensures Tracked(AwaitStep(s, w, row, h, r).value)
  {
    hide Core;
    assert RunKnown(s.world, s.t.intents, s.runs[w]);
    QuietKeeps(s, AwaitStep(s, w, row, h, r).value);
  }

  lemma CountKeepsTracked(s: State, w: nat, row: Join, h: Held)
    requires AtJoin(s, w, row, Count(h)) && Tracked(s)
    ensures Tracked(Goto(s.(t := Complete(s.t, h.id, s.clock)), w, row, Finish))
  {
    hide Core, Tracked;
    AtJoinOk(s, w, row, Count(h));
    var s' := Goto(s.(t := Complete(s.t, h.id, s.clock)), w, row, Finish);
    if s.t.intents[h.id].phase == Moved {
      AttachedSettled(s, h.id, Completed);
      RewriteKeeps(s, s', w, h.id, s'.t.intents[h.id]);
    } else {
      QuietJoinKeeps(s, s', w);
    }
  }

  lemma DroppingKeepsTracked(s: State, w: nat, row: Join, pc: JoinPc)
    requires AtJoin(s, w, row, pc) && Tracked(s) && JoinNext(s, w, row, pc, Done).Some?
    requires pc.OwnGone? || pc.OwnGoneIntent? || pc.OtherGone?
    ensures Tracked(JoinNext(s, w, row, pc, Done).value)
  {
    hide Core, Tracked, Deleted;
    AtJoinOk(s, w, row, pc);
    var s' := JoinNext(s, w, row, pc, Done).value;
    var s1 := s.(t := s'.t, tracked := s'.tracked);
    match pc {
      case OwnGone(h) => DropKeepsTracked(s, s1, h.channel.value);
      case OtherGone(c) => DropKeepsTracked(s, s1, c);
      case OwnGoneIntent(h) => DeletedKeepsTracked(s, s1, h.channel.value);
    }
    QuietJoinKeeps(s1, s', w);
  }

  lemma AttachStepKeepsTracked(s: State, w: nat, row: Join, h: Held, c: Channel, r: Reply)
    requires AtJoin(s, w, row, AttachRoom(h, c)) && Tracked(s) && AttachStep(s, w, row, h, c, r).Some?
    ensures Tracked(AttachStep(s, w, row, h, c, r).value)
  {
    hide Core, Tracked;
    AtJoinOk(s, w, row, AttachRoom(h, c));
    var s' := AttachStep(s, w, row, h, c, r).value;
    if r == Done || r == Lost {
      AttachKeepsTracked(s, s', w, h.id, c, h.profile);
    } else {
      QuietJoinKeeps(s, s', w);
    }
  }

  lemma AuditAttachKeepsTracked(s: State, w: nat, row: Join, h: Held, c: Channel, r: Reply)
    requires AtJoin(s, w, row, AuditAttach(h, c)) && Tracked(s) && AuditAttachStep(s, w, row, h, c, r).Some?
    ensures Tracked(AuditAttachStep(s, w, row, h, c, r).value)
  {
    hide Core, Tracked;
    AtJoinOk(s, w, row, AuditAttach(h, c));
    var s' := AuditAttachStep(s, w, row, h, c, r).value;
    if r == Done {
      AttachKeepsTracked(s, s', w, h.id, c, h.profile);
    } else {
      QuietJoinKeeps(s, s', w);
    }
  }

  lemma JoinKeepsTracked(s: State, w: nat, row: Join, pc: JoinPc, r: Reply)
    requires AtJoin(s, w, row, pc) && Tracked(s) && JoinNext(s, w, row, pc, r).Some?
    ensures Tracked(JoinNext(s, w, row, pc, r).value)
  {
    hide Core, Tracked, Quiet, Goto, Mark, Dequeue, DropRoom, Deleted, Complete, AddCleanup, SetPanel;
    var s' := JoinNext(s, w, row, pc, r).value;
    if r == Fail && !pc.End? && !pc.AttachRoom? {
      FailIsQuiet(s, w, row);
      QuietJoinKeeps(s, s', w);
    } else if r == Inserted && (pc.Start? || pc.Reread?) {
      InsertKeepsTracked(s, w, row, pc);
    } else if pc.Create? {
      CreateKeepsTracked(s, w, row, pc.h, r);
    } else if pc.Await? {
      AwaitKeepsTracked(s, w, row, pc.h, r);
    } else if Reading(pc) {
      ReadingIsQuiet(s, w, row, pc, r);
      QuietJoinKeeps(s, s', w);
    } else if pc.MarkUnresolved? || pc.Doubt? || pc.MarkSent? {
      PendingMarkingKeepsTracked(s, w, row, pc);
    } else if pc.MarkMoved? || pc.BlockPanel? || ((pc.Retarget? || pc.AbandonIntent?) && pc.h.channel.Some?) {
      AttachedMarkingKeepsTracked(s, w, row, pc);
    } else if Marking(pc) {
      UnsentMarkingKeepsTracked(s, w, row, pc);
    } else if pc.AttachRoom? {
      AttachStepKeepsTracked(s, w, row, pc.h, pc.room, r);
    } else if pc.AuditAttach? {
      AuditAttachKeepsTracked(s, w, row, pc.h, pc.room, r);
    } else if pc.Count? {
      CountKeepsTracked(s, w, row, pc.h);
    } else if pc.OwnGone? || pc.OwnGoneIntent? || pc.OtherGone? {
      DroppingKeepsTracked(s, w, row, pc);
    } else {
      SideIsQuiet(s, w, row, pc);
      QuietJoinKeeps(s, s', w);
    }
  }

  // ---- the cleanup worker, staff and the rest --------------------------------

  lemma CleanMoveIsQuiet(s: State, w: nat, key: CleanupKey, at: CleanPc, r: Reply)
    requires w in s.runs && s.runs[w] == CleanRun(key, at) && CleanNext(s, w, key, at, r).Some?
    requires !at.Drop? && !at.Forget?
    ensures var s' := CleanNext(s, w, key, at, r).value;
            && s'.t.intents == s.t.intents && s'.t.rooms.Keys == s.t.rooms.Keys
            && s'.world == s.world.(live := s'.world.live) && s'.world.live <= s.world.live
            && (forall x | x in s'.runs :: (x in s.runs && s'.runs[x] == s.runs[x]) || s'.runs[x].CleanRun?)
  {
    hide Protects, Max;
  }

  lemma CleanKeepsTracked(s: State, w: nat, key: CleanupKey, at: CleanPc, r: Reply)
    requires Core(s) && Tracked(s) && w in s.runs && s.runs[w] == CleanRun(key, at)
    requires CleanNext(s, w, key, at, r).Some?
    ensures Tracked(CleanNext(s, w, key, at, r).value)
  {
    hide Core, Tracked, Deleted;
    var s' := CleanNext(s, w, key, at, r).value;
    if r == Fail && !at.Record? {
      QuietKeeps(s, s');
    } else if at.Drop? {
      CleanOkAt(s, w, key, at);
      var s1 := s.(t := s'.t, tracked := s'.tracked);
      DropKeepsTracked(s, s1, key.channel);
      QuietKeeps(s1, s');
    } else if at.Forget? {
      var s1 := s.(t := s'.t, tracked := s'.tracked);
      DeletedKeepsTracked(s, s1, key.channel);
      QuietKeeps(s1, s');
    } else {
      CleanMoveIsQuiet(s, w, key, at, r);
      hide CleanNext;
      QuietKeeps(s, s');
    }
  }

  lemma StaffKeepsTracked(s: State, w: nat, r: Reply)
    requires Core(s) && Tracked(s) && w in s.runs && s.runs[w].StaffRun?
    requires StaffNext(s, w, s.runs[w], r).Some?
    ensures Tracked(StaffNext(s, w, s.runs[w], r).value)
  {
    var run := s.runs[w];
    assert RunOk(s.world, s.t.intents, run) && RunKnown(s.world, s.t.intents, run);
    var s' := StaffNext(s, w, run, r).value;
    hide Core, Tracked;
    if r == Done && run.evidence.Some? {
      AttachKeepsTracked(s, s', w, run.id, run.evidence.value, run.profile);
    } else if r == Done {
      var v := s.t.intents[run.id].(phase := Cancelled);
      if v.channel.Some? {
        AttachedSettled(s, run.id, Cancelled);
      }
      RewriteKeeps(s, s', w, run.id, v);
    } else {
      QuietKeeps(s, s');
    }
  }

  lemma CancelIntentKeepsTracked(s: State, a: Action)
    requires Core(s) && Tracked(s) && a.CancelIntent? && Next(s, a).Some? && !Stale(s, a)
    ensures Tracked(Next(s, a).value)
  {
    var s' := Next(s, a).value;
    assert Settled(s.world, s.t.rooms.Keys, a.i, s'.t.intents[a.i]);
    hide Core, Tracked, Settled;
    CancelsKeepTracked(s, s');
  }

  lemma LandKeepsTracked(s: State, i: IntentId, c: Channel)
    requires Core(s) && Tracked(s) && Next(s, Land(i, c)).Some?
    ensures Tracked(Next(s, Land(i, c)).value)
  {
    var s' := Next(s, Land(i, c)).value;
    forall w | w in s'.runs ensures RunKnown(s'.world, s'.t.intents, s'.runs[w]) {
      assert RunKnown(s.world, s.t.intents, s.runs[w]);
    }
    forall j | j in s.t.intents && s.t.intents[j].channel.Some? ensures s.t.intents[j].channel.value != c {
      IntentOkAt(s, j);
    }
  }

  lemma RestartKeepsTracked(s: State)
    requires Core(s) && Tracked(s)
    ensures Tracked(Booted(Stopped(s)))
  {
  }

  lemma EnvironmentKeepsTracked(s: State, a: Action)
    requires Tracked(s) && Next(s, a).Some?
    requires a.Crash? || a.Tick? || a.JoinLobby? || a.LeaveQueue? || a.AskCleanup? || a.VoiceMove? || a.Vanish?
             || a.ChangeOwner?
    ensures Tracked(Next(s, a).value)
  {
    hide Tracked, Full, OwnerFree, SameTarget, RunKnown;
    var s' := Next(s, a).value;
    match a
    case Crash => QuietKeeps(s, s');
    case Vanish(_) => VanishKeepsTracked(s, s');
    case _ => QuietKeeps(s, s');
  }

  lemma VanishKeepsTracked(s: State, s': State)
    requires Tracked(s) && s' == s.(world := s.world.(live := s'.world.live)) && s'.world.live <= s.world.live
    ensures Tracked(s')
  {
    QuietKeeps(s, s');
  }

  lemma StartKeepsTracked(s: State, w: nat, run: Run)
    requires Tracked(s) && w !in s.runs && RunKnown(s.world, s.t.intents, run)
    ensures Tracked(s.(busy := s.busy + {GuildOf(run)}, runs := s.runs[w := run]))
  {
    hide Tracked;
    QuietKeeps(s, s.(busy := s.busy + {GuildOf(run)}, runs := s.runs[w := run]));
  }

  /** Every action keeps Tracked, unless a handler overwrites a pending intent. */
  lemma StepKeepsTracked(s: State, a: Action)
    requires Core(s) && Tracked(s) && Next(s, a).Some? && !Stale(s, a)
    ensures Tracked(Next(s, a).value)
  {
    hide Core, Tracked, JoinNext, CleanNext, StaffNext, Deleted, Stale;
    match a
    case Restart => RestartKeepsTracked(s);
    case CancelIntent(_, _) => CancelIntentKeepsTracked(s, a);
    case Land(i, c) => LandKeepsTracked(s, i, c);
    case GatewayDrop(c) => DropKeepsTracked(s, Next(s, a).value, c);
    case GatewayClose(c) => DeletedKeepsTracked(s, Next(s, a).value, c);
    case StartJoin(w, row) => StartKeepsTracked(s, w, JoinRun(row, Start));
    case JoinStep(w, r) => JoinKeepsTracked(s, w, s.runs[w].row, s.runs[w].pc, r);
    case StartClean(w, key) => StartKeepsTracked(s, w, CleanRun(key, Lookup));
    case CleanStep(w, r) => CleanKeepsTracked(s, w, s.runs[w].key, s.runs[w].at, r);
    case StartStaff(w, i, evidence) =>
      var n := s.t.intents[i];
      StartKeepsTracked(s, w, StaffRun(i, n.guild, n.user, n.profile, evidence));
    case StaffStep(w, r) => StaffKeepsTracked(s, w, r);
    case _ => EnvironmentKeepsTracked(s, a);
  }
}
