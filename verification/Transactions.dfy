/** Each action of the protocol is at most one store transaction, so what holds
    of every sequence of transactions holds of every run. */
module Transactions {
  import opened Common
  import opened Tables
  import opened Protocol
  import opened StoreRuns

  /** The transaction a worker's step commits, if its tables change at all. */
  ghost function JoinTx(s: State, row: Join, pc: JoinPc, r: Reply): Option<Op> {
    if r == Inserted then (if pc.Start? || pc.Reread? then Some(OpIntent(row)) else None)
    else if r != Done && r != Lost then None
    else
      match pc
      case MarkUnresolved(h) => Some(OpPhase(h.id, Unresolved))
      case AuditAttach(h, c) => Some(OpAttach(h.id, row.guild, row.user, h.profile, c))
      case Retarget(h) => Some(OpPhase(h.id, Cancelled))
      case RetargetCleanup(h) => if h.channel.Some? then Some(OpAddCleanup(row.guild, h.channel.value, None)) else None
      case OwnGone(h) => if h.channel.Some? then Some(OpDropRoom(h.channel.value)) else None
      case OwnGoneIntent(h) => if h.channel.Some? then Some(OpDeleted(h.channel.value)) else None
      case OtherGone(c) => Some(OpDropRoom(c))
      case OtherEmpty(c) => Some(OpAddCleanup(row.guild, c, None))
      case MarkSent(h) => Some(OpPhase(h.id, Sent))
      case Withdraw(h, _) => Some(OpPhase(h.id, Prepared))
      case Reject(h) => Some(OpPhase(h.id, Cancelled))
      case RejectJoin => Some(OpCancel(row.guild, row.user, Some(row.revision)))
      case Doubt(h) => Some(OpPhase(h.id, Unresolved))
      case AttachRoom(h, c) => Some(OpAttach(h.id, row.guild, row.user, h.profile, c))
      case MarkMoved(h) => Some(OpPhase(h.id, Moved))
      case SavePanel(h, message) => if h.channel.Some? then Some(OpSetPanel(h.channel.value, message)) else None
      case BlockPanel(h) => Some(OpPhase(h.id, PanelBlocked))
      case BlockPanelJoin => Some(OpCancel(row.guild, row.user, Some(row.revision)))
      case Count(h) => Some(OpComplete(h.id))
      case Finish => Some(OpCancel(row.guild, row.user, Some(row.revision)))
      case AbandonJoin(_, _) => Some(OpCancel(row.guild, row.user, Some(row.revision)))
      case AbandonIntent(h, _) => Some(OpPhase(h.id, Cancelled))
      case AbandonRoom(h, _) => if h.channel.Some? then Some(OpAddCleanup(row.guild, h.channel.value, None)) else None
      case End(again) => if again.Some? then Some(OpDefer(row, again.value)) else None
      case _ => None
  }

  ghost function CleanTx(key: CleanupKey, at: CleanPc, r: Reply): Option<Op> {
    match at
    case Reconcile => if r.Posted? then Some(OpSetPanel(key.channel, r.message)) else None
    case Drop(_) => if r == Done then Some(OpDropRoom(key.channel)) else None
    case Forget(_) => if r == Done then Some(OpDeleted(key.channel)) else None
    case Record(again) => if r == Done then Some(OpCleanupResult(key, again)) else None
    case _ => None
  }

  ghost function StaffTx(run: Run, r: Reply): Option<Op>
    requires run.StaffRun?
  {
    if r != Done then None
    else if run.evidence.Some? then Some(OpAttach(run.id, run.guild, run.user, run.profile, run.evidence.value))
    else Some(OpPhase(run.id, Cancelled))
  }

  ghost function TxOf(s: State, a: Action): Option<Op> {
    match a
    case Restart => Some(OpRestore)
    case JoinLobby(g, u, lobby, profile) => Some(OpEnqueue(g, u, lobby, profile))
    case LeaveQueue(g, u) => Some(OpCancel(g, u, None))
    case CancelIntent(i, _) => Some(OpPhase(i, Cancelled))
    case AskCleanup(c, leaver) => Some(OpAddCleanup(c.guild, c, leaver))
    case GatewayDrop(c) => Some(OpDropRoom(c))
    case GatewayClose(c) => Some(OpDeleted(c))
    case ChangeOwner(c, u) => Some(OpTransfer(c, u))
    case JoinStep(w, r) =>
      if w in s.runs && s.runs[w].JoinRun? then JoinTx(s, s.runs[w].row, s.runs[w].pc, r) else None
    case CleanStep(w, r) => if w in s.runs && s.runs[w].CleanRun? then CleanTx(s.runs[w].key, s.runs[w].at, r) else None
    case StaffStep(w, r) => if w in s.runs && s.runs[w].StaffRun? then StaffTx(s.runs[w], r) else None
    case _ => None
  }

  ghost predicate Commits(s: State, op: Option<Op>, s': State) {
    s'.t == (if op.Some? then Commit(s.t, op.value, s.clock) else s.t)
  }

  lemma MarkCommits(s: State, w: nat, row: Join, h: Held, p: Phase, next: JoinPc)
    ensures Commits(s, Some(OpPhase(h.id, p)), Mark(s, w, row, h, p, next))
  {
  }

  lemma MarkingCommits(s: State, w: nat, row: Join, pc: JoinPc)
    requires MarkPc(pc)
    ensures JoinNext(s, w, row, pc, Done).Some?
    ensures Commits(s, JoinTx(s, row, pc, Done), JoinNext(s, w, row, pc, Done).value)
  {
    hide Mark, Commits, SetPhase, ReadIntent, AuditStep, AuditAttachStep, RecheckStep, PreflightStep, FetchOwnStep,
         FindOtherStep, FetchOtherStep, CreateStep, AwaitStep, AttachStep, ArriveStep, MovingStep, PanelStep, SendPanelStep;
    match pc
    case MarkUnresolved(h) => MarkCommits(s, w, row, h, Unresolved, Audit(h));
    case Retarget(h) => MarkCommits(s, w, row, h, Cancelled, if h.channel.Some? then RetargetCleanup(h) else Reread);
    case MarkSent(h) => MarkCommits(s, w, row, h, Sent, Create(h));
    case Withdraw(h, delay) => MarkCommits(s, w, row, h, Prepared, End(Some(delay)));
    case Reject(h) => MarkCommits(s, w, row, h, Cancelled, RejectJoin);
    case Doubt(h) => MarkCommits(s, w, row, h, Unresolved, End(Some(60.0)));
    case MarkMoved(h) => MarkCommits(s, w, row, h, Moved, Panel(h));
    case BlockPanel(h) => MarkCommits(s, w, row, h, PanelBlocked, BlockPanelJoin);
    case AbandonIntent(h, again) =>
      MarkCommits(s, w, row, h, Cancelled, if h.channel.Some? then AbandonRoom(h, again) else End(again));
  }

  lemma RoomWritingCommits(s: State, w: nat, row: Join, pc: JoinPc)
    requires JoinNext(s, w, row, pc, Done).Some?
    requires RoomPc(pc)
    ensures Commits(s, JoinTx(s, row, pc, Done), JoinNext(s, w, row, pc, Done).value)
  {
    hide Deleted, DropRoom, AddCleanup, SetPanel,
         ReadIntent, AuditStep, AuditAttachStep, RecheckStep, PreflightStep, FetchOwnStep, FindOtherStep,
         FetchOtherStep, CreateStep, AwaitStep, AttachStep, ArriveStep, MovingStep, PanelStep, SendPanelStep, EndStep, Mark;
  }

  lemma QueueWritingCommits(s: State, w: nat, row: Join, pc: JoinPc)
    requires JoinNext(s, w, row, pc, Done).Some?
    requires QueuePc(pc)
    ensures Commits(s, JoinTx(s, row, pc, Done), JoinNext(s, w, row, pc, Done).value)
  {
    hide CancelJoin, Complete,
         ReadIntent, AuditStep, AuditAttachStep, RecheckStep, PreflightStep, FetchOwnStep, FindOtherStep,
         FetchOtherStep, CreateStep, AwaitStep, AttachStep, ArriveStep, MovingStep, PanelStep, SendPanelStep, EndStep, Mark;
  }

  lemma AttachCommits(s: State, w: nat, row: Join, h: Held, c: Channel, r: Reply)
    ensures AttachStep(s, w, row, h, c, r).Some? ==>
              Commits(s, JoinTx(s, row, AttachRoom(h, c), r), AttachStep(s, w, row, h, c, r).value)
  {
    hide Attach;
  }

  lemma AuditAttachCommits(s: State, w: nat, row: Join, h: Held, c: Channel, r: Reply)
    ensures AuditAttachStep(s, w, row, h, c, r).Some? ==>
              Commits(s, JoinTx(s, row, AuditAttach(h, c), r), AuditAttachStep(s, w, row, h, c, r).value)
  {
    hide Attach;
  }

  lemma ReadCommits(s: State, w: nat, row: Join, r: Reply, first: bool)
    requires ReadIntent(s, w, row, r, first).Some?
    ensures Commits(s, if r == Inserted then Some(OpIntent(row)) else None, ReadIntent(s, w, row, r, first).value)
  {
  }

  lemma EndCommits(s: State, w: nat, row: Join, again: Option<real>, r: Reply)
    requires EndStep(s, w, row, again, r).Some?
    ensures Commits(s, if again.Some? && r == Done then Some(OpDefer(row, again.value)) else None,
                    EndStep(s, w, row, again, r).value)
    ensures r == Done || r == Fail
  {
    hide Defer;
  }

  ghost predicate Silent(s: State, after: Option<State>) {
    after.Some? ==> after.value.t == s.t
  }

  /** The remaining steps of run_join only read or call Discord. */
  lemma ChecksAreSilent(s: State, w: nat, row: Join, h: Held, present: bool, c: Channel, r: Reply)
    ensures Silent(s, RecheckStep(s, w, row, h, present, r)) && Silent(s, PreflightStep(s, w, row, h, r))
    ensures Silent(s, FetchOwnStep(s, w, row, h, r)) && Silent(s, FindOtherStep(s, w, row, h, r))
    ensures Silent(s, FetchOtherStep(s, w, row, h, c, r)) && Silent(s, AuditStep(s, w, row, h, r))
  {
    FetchesAreSilent(s, w, row, h, c, r);
    hide FetchOwnStep, FindOtherStep, FetchOtherStep, Current;
  }

  lemma FetchesAreSilent(s: State, w: nat, row: Join, h: Held, c: Channel, r: Reply)
    ensures Silent(s, FetchOwnStep(s, w, row, h, r)) && Silent(s, FindOtherStep(s, w, row, h, r))
    ensures Silent(s, FetchOtherStep(s, w, row, h, c, r))
  {
    hide Vacated;
  }

  lemma CallsAreSilent(s: State, w: nat, row: Join, h: Held, r: Reply)
    ensures Silent(s, CreateStep(s, w, row, h, r)) && Silent(s, AwaitStep(s, w, row, h, r))
    ensures Silent(s, ArriveStep(s, w, row, h, r)) && Silent(s, MovingStep(s, w, row, h, r))
    ensures Silent(s, PanelStep(s, w, row, h, r)) && Silent(s, SendPanelStep(s, w, row, h, r))
  {
    LaterCallsAreSilent(s, w, row, h, r);
    hide StillWaiting, InVoice, Current, MovingStep, PanelStep, SendPanelStep;
  }

  lemma LaterCallsAreSilent(s: State, w: nat, row: Join, h: Held, r: Reply)
    ensures Silent(s, MovingStep(s, w, row, h, r))
    ensures Silent(s, PanelStep(s, w, row, h, r)) && Silent(s, SendPanelStep(s, w, row, h, r))
  {
    hide StillWaiting;
  }

  predicate Checking(pc: JoinPc) {
    pc.Recheck? || pc.Preflight? || pc.FetchOwn? || pc.FindOther? || pc.FetchOther? || pc.Audit?
  }

  predicate Calling(pc: JoinPc) {
    pc.Create? || pc.Await? || pc.Arrive? || pc.Moving? || pc.Panel? || pc.SendPanel?
  }

  predicate EdgePc(pc: JoinPc) {
    pc.Start? || pc.Reread? || pc.AttachRoom? || pc.AuditAttach? || pc.End?
  }

  lemma EdgeCommits(s: State, w: nat, row: Join, pc: JoinPc, r: Reply)
    requires JoinNext(s, w, row, pc, r).Some? && EdgePc(pc)
    ensures Commits(s, JoinTx(s, row, pc, r), JoinNext(s, w, row, pc, r).value)
  {
    hide Commit, ReadIntent, AttachStep, AuditAttachStep, EndStep;
    match pc
    case End(again) => EndCommits(s, w, row, again, r);
    case AttachRoom(h, c) => AttachCommits(s, w, row, h, c, r);
    case AuditAttach(h, c) =>
      if r != Fail {
        AuditAttachCommits(s, w, row, h, c, r);
      }
    case Start =>
      if r != Fail {
        ReadCommits(s, w, row, r, true);
      }
    case Reread =>
      if r != Fail {
        ReadCommits(s, w, row, r, false);
      }
  }

  lemma SilentPcHasNoTx(s: State, row: Join, pc: JoinPc, r: Reply)
    requires Checking(pc) || Calling(pc)
    ensures JoinTx(s, row, pc, r) == None
  {
  }

  /** The step a checking or calling worker takes. */
  ghost function CheckOf(s: State, w: nat, row: Join, pc: JoinPc, r: Reply): Option<State>
    requires Checking(pc)
  {
    if pc.Recheck? then RecheckStep(s, w, row, pc.h, pc.present, r)
    else if pc.Preflight? then PreflightStep(s, w, row, pc.h, r)
    else if pc.FetchOwn? then FetchOwnStep(s, w, row, pc.h, r)
    else if pc.FindOther? then FindOtherStep(s, w, row, pc.h, r)
    else if pc.FetchOther? then FetchOtherStep(s, w, row, pc.h, pc.room, r)
    else AuditStep(s, w, row, pc.h, r)
  }

  lemma CheckIs(s: State, w: nat, row: Join, pc: JoinPc, r: Reply)
    requires Checking(pc)
    ensures JoinNext(s, w, row, pc, r) == if r == Fail then Some(Goto(s, w, row, End(Some(60.0)))) else CheckOf(s, w, row, pc, r)
  {
    hide RecheckStep, PreflightStep, FetchOwnStep, FindOtherStep, FetchOtherStep, AuditStep, Goto;
  }

  lemma CheckIsSilent(s: State, w: nat, row: Join, pc: JoinPc, r: Reply)
    requires Checking(pc)
    ensures Silent(s, CheckOf(s, w, row, pc, r))
  {
    hide RecheckStep, PreflightStep, FetchOwnStep, FindOtherStep, FetchOtherStep, AuditStep, Silent;
    if pc.Recheck? {
      ChecksAreSilent(s, w, row, pc.h, pc.present, Channel(0, 0), r);
    } else if pc.FetchOther? {
      ChecksAreSilent(s, w, row, pc.h, false, pc.room, r);
    } else {
      ChecksAreSilent(s, w, row, pc.h, false, Channel(0, 0), r);
    }
  }

  lemma SilentCommits(s: State, s': State)
    requires s'.t == s.t
    ensures Commits(s, None, s')
  {
  }

  lemma CheckingCommits(s: State, w: nat, row: Join, pc: JoinPc, r: Reply)
    requires JoinNext(s, w, row, pc, r).Some? && Checking(pc)
    ensures Commits(s, JoinTx(s, row, pc, r), JoinNext(s, w, row, pc, r).value)
  {
    CheckIs(s, w, row, pc, r);
    CheckIsSilent(s, w, row, pc, r);
    SilentPcHasNoTx(s, row, pc, r);
    hide JoinNext, CheckOf, JoinTx, Commits, Checking;
    SilentCommits(s, JoinNext(s, w, row, pc, r).value);
  }

  ghost function CallOf(s: State, w: nat, row: Join, pc: JoinPc, r: Reply): Option<State>
    requires Calling(pc)
  {
    if pc.Create? then CreateStep(s, w, row, pc.h, r)
    else if pc.Await? then AwaitStep(s, w, row, pc.h, r)
    else if pc.Arrive? then ArriveStep(s, w, row, pc.h, r)
    else if pc.Moving? then MovingStep(s, w, row, pc.h, r)
    else if pc.Panel? then PanelStep(s, w, row, pc.h, r)
    else SendPanelStep(s, w, row, pc.h, r)
  }

  lemma CallIs(s: State, w: nat, row: Join, pc: JoinPc, r: Reply)
    requires Calling(pc)
    ensures JoinNext(s, w, row, pc, r) == if r == Fail then Some(Goto(s, w, row, End(Some(60.0)))) else CallOf(s, w, row, pc, r)
  {
    hide CreateStep, AwaitStep, ArriveStep, MovingStep, PanelStep, SendPanelStep, Goto;
  }

  lemma CallIsSilent(s: State, w: nat, row: Join, pc: JoinPc, r: Reply)
    requires Calling(pc)
    ensures Silent(s, CallOf(s, w, row, pc, r))
  {
    hide CreateStep, AwaitStep, ArriveStep, MovingStep, PanelStep, SendPanelStep, Silent;
    CallsAreSilent(s, w, row, pc.h, r);
  }

  lemma CallingCommits(s: State, w: nat, row: Join, pc: JoinPc, r: Reply)
    requires JoinNext(s, w, row, pc, r).Some? && Calling(pc)
    ensures Commits(s, JoinTx(s, row, pc, r), JoinNext(s, w, row, pc, r).value)
  {
    CallIs(s, w, row, pc, r);
    CallIsSilent(s, w, row, pc, r);
    SilentPcHasNoTx(s, row, pc, r);
    hide JoinNext, CallOf, JoinTx, Commits, Calling;
    SilentCommits(s, JoinNext(s, w, row, pc, r).value);
  }

  lemma PresenceCommits(s: State, w: nat, row: Join, h: Held, r: Reply)
    requires JoinNext(s, w, row, Presence(h), r).Some?
    ensures Commits(s, JoinTx(s, row, Presence(h), r), JoinNext(s, w, row, Presence(h), r).value)
  {
    hide StillWaiting, InVoice, Commit;
  }

  predicate QueuePc(pc: JoinPc) {
    pc.RejectJoin? || pc.BlockPanelJoin? || pc.Count? || pc.Finish? || pc.AbandonJoin?
  }

  predicate RoomPc(pc: JoinPc) {
    pc.RetargetCleanup? || pc.OwnGone? || pc.OwnGoneIntent? || pc.OtherGone? || pc.OtherEmpty? || pc.SavePanel?
    || pc.AbandonRoom?
  }

  predicate MarkPc(pc: JoinPc) {
    pc.MarkUnresolved? || pc.Retarget? || pc.MarkSent? || pc.Withdraw? || pc.Reject? || pc.Doubt?
    || pc.MarkMoved? || pc.BlockPanel? || pc.AbandonIntent?
  }

  lemma WritersReturnOrFail(s: State, w: nat, row: Join, pc: JoinPc, r: Reply)
    requires JoinNext(s, w, row, pc, r).Some? && (QueuePc(pc) || RoomPc(pc) || MarkPc(pc)) && r != Done
    ensures r == Fail
  {
    hide Mark, Dequeue, Goto;
  }

  lemma FailCommits(s: State, w: nat, row: Join, pc: JoinPc)
    requires !pc.End? && !pc.AttachRoom?
    ensures JoinNext(s, w, row, pc, Fail).Some?
    ensures Commits(s, JoinTx(s, row, pc, Fail), JoinNext(s, w, row, pc, Fail).value)
  {
  }

  lemma JoinCommits(s: State, w: nat, row: Join, pc: JoinPc, r: Reply)
    requires JoinNext(s, w, row, pc, r).Some?
    ensures Commits(s, JoinTx(s, row, pc, r), JoinNext(s, w, row, pc, r).value)
  {
    hide Commits, JoinTx, JoinNext;
    if EdgePc(pc) {
      EdgeCommits(s, w, row, pc, r);
    } else if Checking(pc) {
      CheckingCommits(s, w, row, pc, r);
    } else if Calling(pc) {
      CallingCommits(s, w, row, pc, r);
    } else if pc.Presence? {
      PresenceCommits(s, w, row, pc.h, r);
    } else if r != Done {
      WritersReturnOrFail(s, w, row, pc, r);
      FailCommits(s, w, row, pc);
    } else if MarkPc(pc) {
      MarkingCommits(s, w, row, pc);
    } else if QueuePc(pc) {
      QueueWritingCommits(s, w, row, pc);
    } else {
      RoomWritingCommits(s, w, row, pc);
    }
  }

  lemma CleanCommits(s: State, w: nat, key: CleanupKey, at: CleanPc, r: Reply)
    requires CleanNext(s, w, key, at, r).Some?
    ensures Commits(s, CleanTx(key, at, r), CleanNext(s, w, key, at, r).value)
  {
    hide Deleted, DropRoom, SetPanel, CleanupResult, Protects;
    if at.Drop? || at.Forget? || at.Record? || at.Reconcile? {
      CleanWritesCommit(s, w, key, at, r);
    } else {
      hide ReconcileStep, RecordStep, Commit;
    }
  }

  lemma CleanWritesCommit(s: State, w: nat, key: CleanupKey, at: CleanPc, r: Reply)
    requires CleanNext(s, w, key, at, r).Some? && (at.Drop? || at.Forget? || at.Record? || at.Reconcile?)
    ensures Commits(s, CleanTx(key, at, r), CleanNext(s, w, key, at, r).value)
  {
    hide Deleted, DropRoom, SetPanel, CleanupResult, Protects, VisitStep, DeleteStep;
  }

  lemma StaffCommits(s: State, w: nat, r: Reply)
    requires w in s.runs && s.runs[w].StaffRun? && StaffNext(s, w, s.runs[w], r).Some?
    ensures Commits(s, StaffTx(s.runs[w], r), StaffNext(s, w, s.runs[w], r).value)
  {
    hide Attach, SetPhase;
  }

  /** The tables change only through the store, one transaction per action. */
  lemma ActionIsOneTransaction(s: State, a: Action)
    requires Next(s, a).Some?
    ensures Commits(s, TxOf(s, a), Next(s, a).value)
  {
    match a
    case JoinStep(w, r) => JoinCommits(s, w, s.runs[w].row, s.runs[w].pc, r);
    case CleanStep(w, r) => CleanCommits(s, w, s.runs[w].key, s.runs[w].at, r);
    case StaffStep(w, r) => StaffCommits(s, w, r);
    case _ => EnvironmentCommits(s, a);
  }

  lemma EnvironmentCommits(s: State, a: Action)
    requires Next(s, a).Some? && !a.JoinStep? && !a.CleanStep? && !a.StaffStep?
    ensures Commits(s, TxOf(s, a), Next(s, a).value)
  {
    hide Attach, Enqueue, CancelJoin, AddCleanup, Deleted, DropRoom, Transfer;
  }

  /** So the queue bounds and both unique indexes hold in every run. */
  lemma {:induction false} RunsStayWellFormed(s: State, acts: seq<Action>)
    requires WellFormed(s.t) && After(s, acts).Some?
    ensures WellFormed(After(s, acts).value.t)
    decreases |acts|
  {
    hide Next, WellFormed, TxOf, Commit;
    if acts != [] {
      var s' := Next(s, acts[0]).value;
      ActionIsOneTransaction(s, acts[0]);
      if TxOf(s, acts[0]).Some? {
        CommitKeepsWellFormed(s.t, TxOf(s, acts[0]).value, s.clock);
      }
      RunsStayWellFormed(s', acts[1..]);
    }
  }
}
