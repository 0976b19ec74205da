/** The durable room-creation protocol as a step relation. One step is one
    awaited store transaction or Discord call, with the synchronous code around
    it; a crash may fall between any two steps. `Next` is `None` when the action
    cannot happen in the state, and every freedom of Discord, of the members and
    of the scheduler is an argument of the action. */
module Protocol {
  import opened Common
  import opened Tables

  /** What Discord holds. `made` remembers which intent each bot-made channel
      came from, `inflight` the creates that were transmitted and may still
      take effect, even after the bot stopped waiting for them. */
  datatype World = World(made: map<Channel, IntentId>, live: set<Channel>, inflight: set<IntentId>)

  /** A worker's copy of an intent row. */
  datatype Held = Held(id: IntentId, lobby: Channel, profile: Profile, phase: Phase, channel: Option<Channel>)

  /** Where run_join stands: the next await it will complete. */
  datatype JoinPc =
    | Start
    | MarkUnresolved(h: Held)
    | Audit(h: Held)
    | AuditAttach(h: Held, room: Channel)
    | Presence(h: Held)
    | Recheck(h: Held, present: bool)
    | Retarget(h: Held)
    | RetargetCleanup(h: Held)
    | Reread
    | Preflight(h: Held)
    | FetchOwn(h: Held)
    | OwnGone(h: Held)
    | OwnGoneIntent(h: Held)
    | FindOther(h: Held)
    | FetchOther(h: Held, room: Channel)
    | OtherGone(room: Channel)
    | OtherEmpty(room: Channel)
    | MarkSent(h: Held)
    | Create(h: Held)
    | Await(h: Held)
    | Withdraw(h: Held, delay: real)
    | Reject(h: Held)
    | RejectJoin
    | Doubt(h: Held)
    | AttachRoom(h: Held, room: Channel)
    | Arrive(h: Held)
    | Moving(h: Held)
    | MarkMoved(h: Held)
    | Panel(h: Held)
    | SendPanel(h: Held)
    | SavePanel(h: Held, message: nat)
    | BlockPanel(h: Held)
    | BlockPanelJoin
    | Count(h: Held)
    | Finish
    | AbandonJoin(h: Held, again: Option<real>)
    | AbandonIntent(h: Held, again: Option<real>)
    | AbandonRoom(h: Held, again: Option<real>)
    | End(again: Option<real>)

  /** Where run_cleanup stands. `early` marks the leaver's pass through
      cleanup_temp_channel, which comes before the reconcile pass. */
  datatype CleanPc =
    | Lookup
    | Guard
    | Visit
    | Reconcile
    | Second
    | Delete(early: bool)
    | Drop(early: bool)
    | Forget(gone: bool)
    | Record(again: Option<real>)

  datatype Run =
    | JoinRun(row: Join, pc: JoinPc)
    | CleanRun(key: CleanupKey, at: CleanPc)
    | StaffRun(id: IntentId, guild: Guild, user: User, profile: Profile, evidence: Option<Channel>)

  datatype State = State(t: Tables, world: World, voice: map<(Guild, User), Channel>, clock: real,
                         up: bool, busy: set<Guild>, tracked: set<Channel>, audited: set<IntentId>,
                         runs: map<nat, Run>)

  /** How an awaited call came back. */
  datatype Reply =
    | Done                         // it returned
    | Fail                         // it raised something no handler expects
    | NotReady                     // gateway not ready, guild or member not cached
    | Read(id: IntentId)           // an intent row, or
    | Inserted                     // a newly inserted one
    | Evidence(room: Channel) | NoEvidence
    | Config(ok: bool)             // profile, lobby, category and permission checks
    | Missing | Odd | Occupied | Vacant   // fetch: 404, not a voice channel, found
    | Owned(room: Channel) | Unowned
    | Deferred(delay: real)        // the gate refused, nothing was sent
    | Transmit                     // the headers went out
    | Throttled                    // 429: nothing was made, the client tries again
    | Refused                      // any other 4xx, or a refused transaction
    | Lost                         // 5xx, transport failure or cancellation
    | Success(room: Channel)
    | Forbidden
    | Posted(message: nat)
    | Away | Here                  // the leaver is no longer, or still, in the room

  datatype Action =
    // the process
    | Crash
    | Restart
    | Tick(dt: real)
    // members, handlers and Discord
    | JoinLobby(g: Guild, u: User, lobby: Channel, profile: Profile)
    | LeaveQueue(g: Guild, u: User)
    | CancelIntent(i: IntentId, seen: Phase)
    | AskCleanup(c: Channel, leaver: Option<User>)
    | VoiceMove(g: Guild, u: User, to: Option<Channel>)
    | Land(i: IntentId, c: Channel)
    | Vanish(c: Channel)
    | GatewayDrop(c: Channel)
    | GatewayClose(c: Channel)
    | ChangeOwner(c: Channel, u: User)
    // workers and staff
    | StartJoin(w: nat, row: Join)
    | JoinStep(w: nat, r: Reply)
    | StartClean(w: nat, key: CleanupKey)
    | CleanStep(w: nat, r: Reply)
    | StartStaff(w: nat, i: IntentId, evidence: Option<Channel>)
    | StaffStep(w: nat, r: Reply)

  function GuildOf(run: Run): Guild {
    match run
    case JoinRun(row, _) => row.guild
    case CleanRun(key, _) => key.channel.guild
    case StaffRun(_, guild, _, _, _) => guild
  }

  predicate InVoice(s: State, g: Guild, u: User, c: Channel) {
    (g, u) in s.voice && s.voice[(g, u)] == c
  }

  /** The room's members as the gateway reports them: there are none. */
  predicate Vacated(s: State, c: Channel) {
    forall k | k in s.voice.Keys :: s.voice[k] != c
  }

  /** The precondition re-evaluated at every transmission, retries included. */
  predicate StillWaiting(s: State, row: Join) {
    InVoice(s, row.guild, row.user, row.lobby)
  }

  function Copy(t: Tables, i: IntentId): Held
    requires i in t.intents
  {
    Held(i, t.intents[i].lobby, t.intents[i].profile, t.intents[i].phase, t.intents[i].channel)
  }

  // ---- run_join ------------------------------------------------------------

  function Goto(s: State, w: nat, row: Join, pc: JoinPc): State {
    s.(runs := s.runs[w := JoinRun(row, pc)])
  }

  /** A phase update; an integrity error ends the run like any other error. */
  function Mark(s: State, w: nat, row: Join, h: Held, p: Phase, next: JoinPc): State {
    match SetPhase(s.t, h.id, p)
    case Some(t) => Goto(s.(t := t), w, row, next)
    case None => Goto(s, w, row, End(Some(60.0)))
  }

  function Dequeue(s: State, row: Join): State {
    s.(t := CancelJoin(s.t, row.guild, row.user, Some(row.revision)))
  }

  ghost function ReadIntent(s: State, w: nat, row: Join, r: Reply, first: bool): Option<State> {
    match r
    case NotReady => if first then Some(Goto(s, w, row, End(Some(5.0)))) else None
    case Read(i) =>
      if !OpenFor(s.t, i, row.guild, row.user) then None
      else
        var h := Copy(s.t, i);
        Some(Goto(s, w, row,
                  if !first then Preflight(h)
                  else if h.phase == Sent then MarkUnresolved(h)
                  else if h.phase == Unresolved then Audit(h)
                  else Presence(h)))
    case Inserted =>
      if exists i :: OpenFor(s.t, i, row.guild, row.user) then None
      else
        var t := InsertIntent(s.t, row, s.clock);
        var h := Copy(t, s.t.minted);
        Some(Goto(s.(t := t), w, row, if first then Presence(h) else Preflight(h)))
    case _ => None
  }

  function AuditStep(s: State, w: nat, row: Join, h: Held, r: Reply): Option<State> {
    var s1 := s.(audited := s.audited + {h.id});
    if h.id in s.audited then (if r == Done then Some(Goto(s, w, row, End(Some(60.0)))) else None)
    else
      match r
      // One audit entry carrying this intent's id, made by the bot, and its
      // channel is still a voice channel.
      case Evidence(c) => if c in s.world.made && s.world.made[c] == h.id
                          then Some(Goto(s1, w, row, AuditAttach(h, c))) else None
      case NoEvidence => Some(Goto(s1, w, row, End(Some(60.0))))
      case _ => None
  }

  function AuditAttachStep(s: State, w: nat, row: Join, h: Held, c: Channel, r: Reply): Option<State> {
    var a := Attach(s.t, h.id, row.guild, row.user, h.profile, c);
    if r == Done && a.Some? then Some(Goto(s.(t := a.value, tracked := s.tracked + {c}), w, row, End(Some(60.0))))
    else if r == Refused && a.None? then Some(Goto(s, w, row, End(Some(60.0))))
    else None
  }

  function RecheckStep(s: State, w: nat, row: Join, h: Held, present: bool, r: Reply): Option<State> {
    match r
    case Config(ok) =>
      Some(Goto(s, w, row,
                if !Current(s.t, row) then End(None)
                else if !ok || !present then AbandonJoin(h, None)
                else if h.lobby != row.lobby || h.profile != row.profile then Retarget(h)
                else Preflight(h)))
    case _ => None
  }

  function PreflightStep(s: State, w: nat, row: Join, h: Held, r: Reply): Option<State> {
    match r
    case Config(ok) =>
      Some(Goto(s, w, row,
                if !ok then AbandonJoin(h, None)
                else if h.channel.Some? then FetchOwn(h) else FindOther(h)))
    case _ => None
  }

  /** Resolving the intent's own recorded room. */
  function FetchOwnStep(s: State, w: nat, row: Join, h: Held, r: Reply): Option<State> {
    if h.channel.None? then None
    else
      match r
      case Missing => if h.channel.value in s.world.live then None else Some(Goto(s, w, row, OwnGone(h)))
      case Odd => Some(Goto(s, w, row, End(Some(60.0))))
      case Occupied => Some(Goto(s, w, row, Arrive(h)))
      case Vacant => Some(Goto(s, w, row, Arrive(h)))
      case _ => None
  }

  function FindOtherStep(s: State, w: nat, row: Join, h: Held, r: Reply): Option<State> {
    match r
    case Unowned =>
      if exists c :: c in s.t.rooms.Keys && s.t.rooms[c].guild == row.guild && s.t.rooms[c].owner == row.user
      then None else Some(Goto(s, w, row, MarkSent(h)))
    case Owned(c) =>
      if c in s.t.rooms && s.t.rooms[c].guild == row.guild && s.t.rooms[c].owner == row.user
      then Some(Goto(s, w, row, FetchOther(h, c))) else None
    case _ => None
  }

  function FetchOtherStep(s: State, w: nat, row: Join, h: Held, c: Channel, r: Reply): Option<State> {
    match r
    case Missing => if c in s.world.live then None else Some(Goto(s, w, row, OtherGone(c)))
    case Odd => Some(Goto(s, w, row, End(Some(5.0))))
    case Occupied => if Vacated(s, c) then None else Some(Goto(s, w, row, AbandonJoin(h, None)))
    case Vacant => if Vacated(s, c) then Some(Goto(s, w, row, OtherEmpty(c))) else None
    case _ => None
  }

  /** The create call up to its transmission. */
  function CreateStep(s: State, w: nat, row: Join, h: Held, r: Reply): Option<State> {
    match r
    case Deferred(delay) => Some(Goto(s, w, row, Withdraw(h, delay)))
    case Transmit =>
      if StillWaiting(s, row)
      then Some(Goto(s.(world := s.world.(inflight := s.world.inflight + {h.id})), w, row, Await(h)))
      else None
    case Lost => Some(Goto(s, w, row, Doubt(h)))
    case _ => None
  }

  /** The reply to a transmitted create. A 4xx proves nothing was made; a lost
      reply proves nothing at all, and the request may still land later. No
      deferral comes back, since the transport does not send a POST twice. */
  function AwaitStep(s: State, w: nat, row: Join, h: Held, r: Reply): Option<State> {
    var dropped := s.(world := s.world.(inflight := s.world.inflight - {h.id}));
    match r
    case Success(c) =>
      if c in s.world.made && s.world.made[c] == h.id then Some(Goto(s, w, row, AttachRoom(h, c))) else None
    case Throttled => if h.id in s.world.inflight then Some(Goto(dropped, w, row, Create(h))) else None
    case Refused => if h.id in s.world.inflight then Some(Goto(dropped, w, row, Reject(h))) else None
    case Lost => Some(Goto(s, w, row, Doubt(h)))
    case _ => None
  }

  function AttachStep(s: State, w: nat, row: Join, h: Held, c: Channel, r: Reply): Option<State> {
    var a := Attach(s.t, h.id, row.guild, row.user, h.profile, c);
    match r
    case Done =>
      if a.None? then None
      else Some(Goto(s.(t := a.value, tracked := s.tracked + {c}), w, row,
                     Arrive(h.(channel := Some(c), phase := Created))))
    case Refused => if a.Some? then None else Some(Goto(s, w, row, Doubt(h)))
    case Lost => // interrupted: the transaction may have committed or not
      if a.None? then None else Some(Goto(s.(t := a.value), w, row, Doubt(h)))
    case Fail => Some(Goto(s, w, row, Doubt(h)))
    case _ => None
  }

  function ArriveStep(s: State, w: nat, row: Join, h: Held, r: Reply): Option<State> {
    if h.channel.None? then None
    else
      match r
      case NotReady => Some(Goto(s, w, row, End(Some(5.0))))
      case Done =>
        Some(Goto(s, w, row,
                  if InVoice(s, row.guild, row.user, h.channel.value) then MarkMoved(h)
                  else if StillWaiting(s, row) && Current(s.t, row) then Moving(h)
                  else AbandonJoin(h, None)))
      case _ => None
  }

  function MovingStep(s: State, w: nat, row: Join, h: Held, r: Reply): Option<State> {
    match r
    case Transmit => if StillWaiting(s, row) then Some(s) else None
    case Done => Some(Goto(s, w, row, MarkMoved(h)))
    case Forbidden => Some(Goto(s, w, row, AbandonJoin(h, Some(60.0))))
    case Deferred(delay) => Some(Goto(s, w, row, End(Some(delay))))
    case _ => None
  }

  function PanelStep(s: State, w: nat, row: Join, h: Held, r: Reply): Option<State> {
    if r != Done || h.channel.None? then None
    else
      var c := h.channel.value;
      Some(Goto(s, w, row,
                if c !in s.t.rooms then End(Some(5.0))
                else if s.t.rooms[c].panel.Some? then Count(h)
                else SendPanel(h)))
  }

  function SendPanelStep(s: State, w: nat, row: Join, h: Held, r: Reply): Option<State> {
    match r
    case Forbidden => Some(Goto(s, w, row, BlockPanel(h)))
    case Deferred(delay) => Some(Goto(s, w, row, End(Some(delay))))
    case NotReady => Some(Goto(s, w, row, End(Some(10.0))))
    case Posted(message) => Some(Goto(s, w, row, SavePanel(h, message)))
    case _ => None
  }

  /** tick's handlers and its `finally`: defer the row, release the guild. */
  function EndStep(s: State, w: nat, row: Join, again: Option<real>, r: Reply): Option<State> {
    var t := if again.Some? && r == Done then Defer(s.t, row, again.value, s.clock) else s.t;
    if r == Done || r == Fail
    then Some(s.(t := t, runs := s.runs - {w}, busy := s.busy - {row.guild}))
    else None
  }

  ghost function JoinNext(s: State, w: nat, row: Join, pc: JoinPc, r: Reply): Option<State> {
    if r == Fail && !pc.End? && !pc.AttachRoom? then Some(Goto(s, w, row, End(Some(60.0))))
    else
      match pc
      case Start => ReadIntent(s, w, row, r, true)
      case MarkUnresolved(h) => if r == Done then Some(Mark(s, w, row, h, Unresolved, Audit(h))) else None
      case Audit(h) => AuditStep(s, w, row, h, r)
      case AuditAttach(h, c) => AuditAttachStep(s, w, row, h, c, r)
      case Presence(h) =>
        if r != Done then None
        else Some(Goto(s, w, row, Recheck(h, StillWaiting(s, row)
                                             || (h.channel.Some? && InVoice(s, row.guild, row.user, h.channel.value)))))
      case Recheck(h, present) => RecheckStep(s, w, row, h, present, r)
      case Retarget(h) =>
        if r == Done then Some(Mark(s, w, row, h, Cancelled, if h.channel.Some? then RetargetCleanup(h) else Reread))
        else None
      case RetargetCleanup(h) =>
        if r == Done && h.channel.Some?
        then Some(Goto(s.(t := AddCleanup(s.t, row.guild, h.channel.value, None)), w, row, End(Some(5.0))))
        else None
      case Reread => ReadIntent(s, w, row, r, false)
      case Preflight(h) => PreflightStep(s, w, row, h, r)
      case FetchOwn(h) => FetchOwnStep(s, w, row, h, r)
      case OwnGone(h) =>
        if r == Done && h.channel.Some?
        then Some(Goto(s.(t := DropRoom(s.t, h.channel.value), tracked := s.tracked - {h.channel.value}),
                       w, row, OwnGoneIntent(h)))
        else None
      case OwnGoneIntent(h) =>
        if r == Done && h.channel.Some?
        then Some(Goto(s.(t := Deleted(s.t, h.channel.value)), w, row, End(Some(1.0))))
        else None
      case FindOther(h) => FindOtherStep(s, w, row, h, r)
      case FetchOther(h, c) => FetchOtherStep(s, w, row, h, c, r)
      case OtherGone(c) =>
        if r == Done
        then Some(Goto(s.(t := DropRoom(s.t, c), tracked := s.tracked - {c}), w, row, End(Some(1.0)))) else None
      case OtherEmpty(c) =>
        if r == Done then Some(Goto(s.(t := AddCleanup(s.t, row.guild, c, None)), w, row, End(Some(5.0)))) else None
      case MarkSent(h) => if r == Done then Some(Mark(s, w, row, h, Sent, Create(h))) else None
      case Create(h) => CreateStep(s, w, row, h, r)
      case Await(h) => AwaitStep(s, w, row, h, r)
      case Withdraw(h, delay) => if r == Done then Some(Mark(s, w, row, h, Prepared, End(Some(delay)))) else None
      case Reject(h) => if r == Done then Some(Mark(s, w, row, h, Cancelled, RejectJoin)) else None
      case RejectJoin => if r == Done then Some(Goto(Dequeue(s, row), w, row, End(Some(60.0)))) else None
      case Doubt(h) => if r == Done then Some(Mark(s, w, row, h, Unresolved, End(Some(60.0)))) else None
      case AttachRoom(h, c) => AttachStep(s, w, row, h, c, r)
      case Arrive(h) => ArriveStep(s, w, row, h, r)
      case Moving(h) => MovingStep(s, w, row, h, r)
      case MarkMoved(h) => if r == Done then Some(Mark(s, w, row, h, Moved, Panel(h))) else None
      case Panel(h) => PanelStep(s, w, row, h, r)
      case SendPanel(h) => SendPanelStep(s, w, row, h, r)
      case SavePanel(h, message) =>
        if r == Done && h.channel.Some?
        then Some(Goto(s.(t := SetPanel(s.t, h.channel.value, message)), w, row, Count(h))) else None
      case BlockPanel(h) => if r == Done then Some(Mark(s, w, row, h, PanelBlocked, BlockPanelJoin)) else None
      case BlockPanelJoin => if r == Done then Some(Goto(Dequeue(s, row), w, row, End(None))) else None
      case Count(h) =>
        if r == Done then Some(Goto(s.(t := Complete(s.t, h.id, s.clock)), w, row, Finish)) else None
      case Finish => if r == Done then Some(Goto(Dequeue(s, row), w, row, End(None))) else None
      case AbandonJoin(h, again) =>
        if r != Done then None
        else Some(Goto(Dequeue(s, row), w, row,
                       if h.phase == Unresolved || h.phase == Sent then End(again) else AbandonIntent(h, again)))
      case AbandonIntent(h, again) =>
        if r != Done then None
        else Some(Mark(s, w, row, h, Cancelled, if h.channel.Some? then AbandonRoom(h, again) else End(again)))
      case AbandonRoom(h, again) =>
        if r == Done && h.channel.Some?
        then Some(Goto(s.(t := AddCleanup(s.t, row.guild, h.channel.value, None)), w, row, End(again))) else None
      case End(again) => EndStep(s, w, row, again, r)
  }

  // ---- run_cleanup ---------------------------------------------------------

  function CleanTo(s: State, w: nat, key: CleanupKey, at: CleanPc): State {
    s.(runs := s.runs[w := CleanRun(key, at)])
  }

  /** The leaver's visit: cleanup_temp_channel acts only on a room the process
      remembers, and deletes it only when it is empty. */
  function VisitStep(s: State, w: nat, key: CleanupKey, r: Reply): Option<State> {
    match r
    case Odd => Some(CleanTo(s, w, key, Second))
    case Here =>
      if key.leaver.Some? && InVoice(s, key.channel.guild, key.leaver.value, key.channel)
      then Some(CleanTo(s, w, key, Second)) else None
    case Occupied => if Vacated(s, key.channel) then None else Some(CleanTo(s, w, key, Second))
    case Vacant =>
      if Vacated(s, key.channel)
      then Some(CleanTo(s, w, key, if key.channel in s.tracked then Delete(true) else Second)) else None
    case Missing => Some(CleanTo(s, w, key, Record(Some(60.0))))
    case Deferred(delay) => Some(CleanTo(s, w, key, Record(Some(delay))))
    case _ => None
  }

  /** The reconcile pass. A record is dropped only on a 404 or after a delete;
      every doubt keeps it. */
  function ReconcileStep(s: State, w: nat, key: CleanupKey, r: Reply): Option<State> {
    match r
    case NotReady => Some(CleanTo(s, w, key, Record(Some(60.0))))
    case Missing => if key.channel in s.world.live then None else Some(CleanTo(s, w, key, Drop(false)))
    case Forbidden => Some(CleanTo(s, w, key, Record(Some(60.0))))
    case Lost => Some(CleanTo(s, w, key, Record(Some(60.0))))
    case Here => // empty but too young
      if Vacated(s, key.channel) then Some(CleanTo(s, w, key, Record(Some(60.0)))) else None
    case Vacant => if Vacated(s, key.channel) then Some(CleanTo(s, w, key, Delete(false))) else None
    case Occupied => if Vacated(s, key.channel) then None else Some(CleanTo(s, w, key, Record(Some(60.0))))
    case Posted(message) =>
      if Vacated(s, key.channel) then None
      else Some(CleanTo(s.(t := SetPanel(s.t, key.channel, message)), w, key, Record(Some(60.0))))
    case Deferred(delay) => Some(CleanTo(s, w, key, Record(Some(delay))))
    case _ => None
  }

  /** delete_managed_channel: this is the step that issues the delete. */
  function DeleteStep(s: State, w: nat, key: CleanupKey, early: bool, r: Reply): Option<State> {
    match r
    case Done =>
      Some(CleanTo(s.(world := s.world.(live := s.world.live - {key.channel})), w, key, Drop(early)))
    case Missing => if key.channel in s.world.live then None else Some(CleanTo(s, w, key, Drop(early)))
    case Forbidden => Some(CleanTo(s, w, key, if early then Second else Record(Some(60.0))))
    case Lost => Some(CleanTo(s, w, key, if early then Second else Record(Some(60.0))))
    case Deferred(delay) => Some(CleanTo(s, w, key, Record(Some(delay))))
    case _ => None
  }

  function RecordStep(s: State, w: nat, key: CleanupKey, again: Option<real>, r: Reply): Option<State> {
    var t := if r == Done then CleanupResult(s.t, key, again, s.clock) else s.t;
    if r == Done || r == Fail
    then Some(s.(t := t, runs := s.runs - {w}, busy := s.busy - {key.channel.guild}))
    else None
  }

  function CleanNext(s: State, w: nat, key: CleanupKey, at: CleanPc, r: Reply): Option<State> {
    var c := key.channel;
    if r == Fail && !at.Record? then Some(CleanTo(s, w, key, Record(Some(60.0))))
    else
      match at
      case Lookup =>
        if r != Done then None
        else Some(CleanTo(s, w, key, if c in s.t.rooms then Guard else Record(None)))
      case Guard =>
        if r == NotReady && !Protects(s.t, c) then Some(CleanTo(s, w, key, Record(Some(5.0))))
        else if r != Done then None
        else Some(CleanTo(s, w, key,
                          if Protects(s.t, c) then Record(Some(5.0))
                          else if key.leaver.Some? then Visit else Second))
      case Visit => VisitStep(s, w, key, r)
      case Second =>
        if r != Done then None
        else Some(CleanTo(s, w, key, if c in s.t.rooms then Reconcile else Forget(false)))
      case Reconcile => ReconcileStep(s, w, key, r)
      case Delete(early) => DeleteStep(s, w, key, early, r)
      case Drop(early) =>
        if r != Done then None
        else Some(CleanTo(s.(t := DropRoom(s.t, c), tracked := if early then s.tracked - {c} else s.tracked),
                          w, key, if early then Second else Forget(true)))
      case Forget(gone) =>
        if r != Done then None
        else Some(CleanTo(s.(t := Deleted(s.t, c), tracked := if gone then s.tracked - {c} else s.tracked),
                          w, key, Record(None)))
      case Record(again) => RecordStep(s, w, key, again, r)
  }

  // ---- staff resolution ----------------------------------------------------

  /** Staff have verified the evidence: the named room came from this intent, or
      none exists and none can still appear. */
  ghost predicate Verified(s: State, i: IntentId, evidence: Option<Channel>) {
    match evidence
    case Some(c) => c in s.world.made && s.world.made[c] == i
    case None => i !in s.world.inflight && forall c | c in s.world.live && c in s.world.made :: s.world.made[c] != i
  }

  ghost function StaffStart(s: State, w: nat, i: IntentId, evidence: Option<Channel>): Option<State> {
    if s.up && w !in s.runs && i in s.t.intents && s.t.intents[i].phase == Unresolved
       && s.t.intents[i].guild !in s.busy && Verified(s, i, evidence)
       && (evidence.Some? ==> evidence.value.guild == s.t.intents[i].guild)
    then
      var n := s.t.intents[i];
      Some(s.(busy := s.busy + {n.guild}, runs := s.runs[w := StaffRun(i, n.guild, n.user, n.profile, evidence)]))
    else None
  }

  function StaffNext(s: State, w: nat, run: Run, r: Reply): Option<State>
    requires run.StaffRun?
  {
    var freed := s.(runs := s.runs - {w}, busy := s.busy - {run.guild});
    if r == Fail then Some(freed)
    else if run.evidence.Some? then
      var a := Attach(s.t, run.id, run.guild, run.user, run.profile, run.evidence.value);
      if r == Done && a.Some? then Some(freed.(t := a.value, tracked := s.tracked + {run.evidence.value}))
      else if r == Refused && a.None? then Some(freed)
      else None
    else
      var a := SetPhase(s.t, run.id, Cancelled);
      if r == Done && a.Some? then Some(freed.(t := a.value)) else None
  }

  // ---- the whole system ----------------------------------------------------

  /** Phases in which the departure, removal and scan handlers cancel. */
  predicate Cancellable(p: Phase) {
    p == Prepared || p == Created || p == Moved || p == PanelBlocked
  }

  /** A memory-less process: everything but the tables and Discord is gone. */
  function Stopped(s: State): State {
    s.(up := false, busy := {}, tracked := {}, audited := {}, runs := map[])
  }

  /** Boot: restore ambiguous intents, reload the tracked rooms. */
  function Booted(s: State): State {
    s.(up := true, t := Restore(s.t), tracked := s.t.rooms.Keys)
  }

  ghost function Next(s: State, a: Action): Option<State> {
    match a
    case Crash => Some(Stopped(s))
    case Restart => if s.up then None else Some(Booted(Stopped(s)))
    case Tick(dt) => if dt >= 0.0 then Some(s.(clock := s.clock + dt)) else None
    case JoinLobby(g, u, lobby, profile) =>
      if s.up then Some(s.(t := Enqueue(s.t, g, u, lobby, profile, s.clock))) else None
    case LeaveQueue(g, u) => if s.up then Some(s.(t := CancelJoin(s.t, g, u, None))) else None
    case CancelIntent(i, seen) =>
      // The handler read the row in phase `seen`; its write does not look again.
      if s.up && i in s.t.intents && Cancellable(seen)
      then Some(s.(t := s.t.(intents := WithPhase(s.t.intents, i, Cancelled)))) else None
    case AskCleanup(c, leaver) => if s.up then Some(s.(t := AddCleanup(s.t, c.guild, c, leaver))) else None
    case VoiceMove(g, u, to) =>
      Some(s.(voice := if to.Some? then s.voice[(g, u) := to.value] else s.voice - {(g, u)}))
    case Land(i, c) =>
      if i in s.world.inflight && i in s.t.intents && c !in s.world.made && c.guild == s.t.intents[i].guild
      then Some(s.(world := World(s.world.made[c := i], s.world.live + {c}, s.world.inflight - {i}))) else None
    case Vanish(c) => Some(s.(world := s.world.(live := s.world.live - {c})))
    case GatewayDrop(c) =>
      if s.up && c !in s.world.live && c in s.tracked && c in s.t.rooms
      then Some(s.(t := DropRoom(s.t, c), tracked := s.tracked - {c})) else None
    case GatewayClose(c) =>
      if s.up && c in s.world.made && c !in s.world.live then Some(s.(t := Deleted(s.t, c))) else None
    case ChangeOwner(c, u) =>
      if s.up && Transfer(s.t, c, u).Some? then Some(s.(t := Transfer(s.t, c, u).value)) else None
    case StartJoin(w, row) =>
      // Any row, however stale: the queue was read before the guild was claimed.
      if s.up && w !in s.runs && row.guild !in s.busy
      then Some(s.(busy := s.busy + {row.guild}, runs := s.runs[w := JoinRun(row, Start)])) else None
    case JoinStep(w, r) =>
      if w in s.runs && s.runs[w].JoinRun? then JoinNext(s, w, s.runs[w].row, s.runs[w].pc, r) else None
    case StartClean(w, key) =>
      if s.up && w !in s.runs && key.channel.guild !in s.busy
      then Some(s.(busy := s.busy + {key.channel.guild}, runs := s.runs[w := CleanRun(key, Lookup)])) else None
    case CleanStep(w, r) =>
      if w in s.runs && s.runs[w].CleanRun? then CleanNext(s, w, s.runs[w].key, s.runs[w].at, r) else None
    case StartStaff(w, i, evidence) => StaffStart(s, w, i, evidence)
    case StaffStep(w, r) =>
      if w in s.runs && s.runs[w].StaffRun? then StaffNext(s, w, s.runs[w], r) else None
  }

  ghost predicate Init(s: State) {
    && s.t == EMPTY
    && s.world == World(map[], {}, {})
    && !s.up && s.busy == {} && s.tracked == {} && s.audited == {} && s.runs == map[]
  }

  /** The state after a sequence of actions, if each of them can happen. */
  ghost function After(s: State, acts: seq<Action>): Option<State>
    decreases |acts|
  {
    if acts == [] then Some(s)
    else
      var s' := Next(s, acts[0]);
      if s'.None? then None else After(s'.value, acts[1..])
  }
}
