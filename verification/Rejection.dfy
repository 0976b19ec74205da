/** What a refusal of a create means for good: no continuation of any run sends
    a create of that intent again. Only a 429 lets the client send once more. */
module Rejection {
  import opened Common
  import opened Tables
  import opened Protocol
  import opened ProtocolInvariant
  import opened ProtocolSteps
  import opened ProtocolTheorems
  import opened Transactions
  import opened StoreRuns
  import opened Frames
  import opened Deletion

  predicate Holds(run: Run, i: IntentId) {
    run.JoinRun? && HasHeld(run.pc) && run.pc.h.id == i
  }

  /** Where a worker that holds a refused intent can stand. */
  predicate Closing(pc: JoinPc) {
    pc.Reject? || pc.MarkUnresolved? || pc.Audit?
  }

  /** Intent i was transmitted, made nothing and will make nothing. */
  ghost predicate Barren(s: State, i: IntentId) {
    && i in s.t.intents && s.t.intents[i].channel.None? && s.t.intents[i].phase != Prepared
    && Fresh(s.world, i)
    && forall w | w in s.runs && Holds(s.runs[w], i) :: Closing(s.runs[w].pc)
  }

  // ---- which intent a run holds --------------------------------------------------

  /** After a step of the run at pc: it keeps the intent it holds or lets go, from
      where a refused one is closed it goes nowhere else, it decides to send only
      after it looked for another room, and it sends at most the create it is at. */
  ghost predicate HoldsOn(s: State, pc: JoinPc, w: nat, after: Option<State>) {
    && (after.Some? && w in after.value.runs && after.value.runs[w].JoinRun? && HasHeld(after.value.runs[w].pc) ==>
          var next := after.value.runs[w].pc;
          && HasHeld(pc) && next.h.id == pc.h.id
          && !pc.Reject? && (pc.MarkUnresolved? ==> next.Audit?) && (pc.Audit? ==> next.AuditAttach?)
          && (next.MarkSent? ==> pc.FindOther?))
    && (after.Some? ==>
          after.value.world.inflight <= s.world.inflight + (if pc.Create? then {pc.h.id} else {}))
  }

  /** Where a worker goes on after it wrote a phase. */
  function AfterMark(pc: JoinPc): JoinPc
    requires MarkPc(pc)
  {
    if pc.MarkUnresolved? then Audit(pc.h)
    else if pc.Retarget? then (if pc.h.channel.Some? then RetargetCleanup(pc.h) else Reread)
    else if pc.MarkSent? then Create(pc.h)
    else if pc.Withdraw? then End(Some(pc.delay))
    else if pc.Reject? then RejectJoin
    else if pc.Doubt? then End(Some(60.0))
    else if pc.MarkMoved? then Panel(pc.h)
    else if pc.BlockPanel? then BlockPanelJoin
    else if pc.h.channel.Some? then AbandonRoom(pc.h, pc.again) else End(pc.again)
  }

  function MarkedPhase(pc: JoinPc): Phase
    requires MarkPc(pc)
  {
    if pc.MarkUnresolved? || pc.Doubt? then Unresolved
    else if pc.MarkSent? then Sent
    else if pc.Withdraw? then Prepared
    else if pc.MarkMoved? then Moved
    else if pc.BlockPanel? then PanelBlocked
    else Cancelled
  }

  lemma MarkIs(s: State, w: nat, row: Join, pc: JoinPc)
    requires MarkPc(pc)
    ensures JoinNext(s, w, row, pc, Done) == Some(Mark(s, w, row, pc.h, MarkedPhase(pc), AfterMark(pc)))
  {
    hide Mark, ReadIntent, AuditStep, AuditAttachStep, RecheckStep, PreflightStep, FetchOwnStep, FindOtherStep,
         FetchOtherStep, CreateStep, AwaitStep, AttachStep, ArriveStep, MovingStep, PanelStep, SendPanelStep, EndStep;
  }

  lemma MarkHoldsOn(s: State, w: nat, row: Join, pc: JoinPc)
    requires MarkPc(pc)
    ensures HoldsOn(s, pc, w, JoinNext(s, w, row, pc, Done))
  {
    MarkIs(s, w, row, pc);
    hide JoinNext, MarkedPhase, HoldsOn;
    MarkGoesOn(s, w, row, pc, MarkedPhase(pc));
  }

  lemma MarkGoesOn(s: State, w: nat, row: Join, pc: JoinPc, p: Phase)
    requires MarkPc(pc)
    ensures HoldsOn(s, pc, w, Some(Mark(s, w, row, pc.h, p, AfterMark(pc))))
  {
    hide SetPhase;
  }

  lemma QueueHoldsOn(s: State, w: nat, row: Join, pc: JoinPc, r: Reply)
    requires QueuePc(pc)
    ensures HoldsOn(s, pc, w, JoinNext(s, w, row, pc, r))
  {
    hide CancelJoin, Complete, Mark,
         ReadIntent, AuditStep, AuditAttachStep, RecheckStep, PreflightStep, FetchOwnStep, FindOtherStep,
         FetchOtherStep, CreateStep, AwaitStep, AttachStep, ArriveStep, MovingStep, PanelStep, SendPanelStep, EndStep;
  }

  lemma RoomHoldsOn(s: State, w: nat, row: Join, pc: JoinPc, r: Reply)
    requires RoomPc(pc)
    ensures HoldsOn(s, pc, w, JoinNext(s, w, row, pc, r))
  {
    hide DropRoom, Deleted, AddCleanup, SetPanel, Dequeue, Mark,
         ReadIntent, AuditStep, AuditAttachStep, RecheckStep, PreflightStep, FetchOwnStep, FindOtherStep,
         FetchOtherStep, CreateStep, AwaitStep, AttachStep, ArriveStep, MovingStep, PanelStep, SendPanelStep, EndStep;
  }

  lemma RechecksHoldOn(s: State, w: nat, row: Join, h: Held, present: bool, r: Reply)
    ensures HoldsOn(s, Recheck(h, present), w, RecheckStep(s, w, row, h, present, r))
    ensures HoldsOn(s, Preflight(h), w, PreflightStep(s, w, row, h, r))
  {
    hide Current;
  }

  lemma FetchesHoldOn(s: State, w: nat, row: Join, h: Held, c: Channel, r: Reply)
    ensures HoldsOn(s, FetchOwn(h), w, FetchOwnStep(s, w, row, h, r))
    ensures HoldsOn(s, FindOther(h), w, FindOtherStep(s, w, row, h, r))
    ensures HoldsOn(s, FetchOther(h, c), w, FetchOtherStep(s, w, row, h, c, r))
  {
    hide Vacated;
  }

  lemma AuditHoldsOn(s: State, w: nat, row: Join, h: Held, r: Reply)
    ensures HoldsOn(s, Audit(h), w, AuditStep(s, w, row, h, r))
  {
  }

  lemma ChecksHoldOn(s: State, w: nat, row: Join, pc: JoinPc, r: Reply)
    requires Checking(pc)
    ensures HoldsOn(s, pc, w, JoinNext(s, w, row, pc, r))
  {
    CheckIs(s, w, row, pc, r);
    FailHolds(s, w, row, pc);
    hide HoldsOn, JoinNext, RecheckStep, PreflightStep, FetchOwnStep, FindOtherStep, FetchOtherStep, AuditStep, Goto;
    if pc.Recheck? || pc.Preflight? {
      RechecksHoldOn(s, w, row, pc.h, pc.Recheck? && pc.present, r);
    } else if pc.Audit? {
      AuditHoldsOn(s, w, row, pc.h, r);
    } else {
      FetchesHoldOn(s, w, row, pc.h, if pc.FetchOther? then pc.room else Channel(0, 0), r);
    }
  }

  lemma FailHolds(s: State, w: nat, row: Join, pc: JoinPc)
    ensures HoldsOn(s, pc, w, Some(Goto(s, w, row, End(Some(60.0)))))
  {
  }

  lemma PresenceHoldsOn(s: State, w: nat, row: Join, pc: JoinPc, r: Reply)
    requires pc.Presence?
    ensures HoldsOn(s, pc, w, JoinNext(s, w, row, pc, r))
  {
    hide StillWaiting, InVoice;
  }

  lemma CreateHoldsOn(s: State, w: nat, row: Join, h: Held, r: Reply)
    ensures HoldsOn(s, Create(h), w, CreateStep(s, w, row, h, r)) && HoldsOn(s, Await(h), w, AwaitStep(s, w, row, h, r))
    ensures HoldsOn(s, Arrive(h), w, ArriveStep(s, w, row, h, r))
  {
    hide StillWaiting, InVoice, Current;
  }

  lemma MoveHoldsOn(s: State, w: nat, row: Join, h: Held, r: Reply)
    requires w in s.runs && s.runs[w] == JoinRun(row, Moving(h))
    ensures HoldsOn(s, Moving(h), w, MovingStep(s, w, row, h, r))
  {
    hide StillWaiting;
  }

  lemma PanelHoldsOn(s: State, w: nat, row: Join, h: Held, r: Reply)
    ensures HoldsOn(s, Panel(h), w, PanelStep(s, w, row, h, r)) && HoldsOn(s, SendPanel(h), w, SendPanelStep(s, w, row, h, r))
  {
  }

  lemma CallsHoldOn(s: State, w: nat, row: Join, pc: JoinPc, r: Reply)
    requires Calling(pc) && w in s.runs && s.runs[w] == JoinRun(row, pc)
    ensures HoldsOn(s, pc, w, JoinNext(s, w, row, pc, r))
  {
    CallIs(s, w, row, pc, r);
    FailHolds(s, w, row, pc);
    hide HoldsOn, JoinNext, CreateStep, AwaitStep, ArriveStep, MovingStep, PanelStep, SendPanelStep, Goto;
    if pc.Moving? {
      MoveHoldsOn(s, w, row, pc.h, r);
    } else if pc.Panel? || pc.SendPanel? {
      PanelHoldsOn(s, w, row, pc.h, r);
    } else {
      CreateHoldsOn(s, w, row, pc.h, r);
    }
  }

  lemma AttachHoldsOn(s: State, w: nat, row: Join, pc: JoinPc, r: Reply)
    requires pc.AttachRoom? || pc.AuditAttach? || pc.End?
    ensures HoldsOn(s, pc, w, JoinNext(s, w, row, pc, r))
  {
    hide Attach, Defer;
  }

  lemma StepHoldsOn(s: State, w: nat, row: Join, pc: JoinPc, r: Reply)
    requires JoinNext(s, w, row, pc, r).Some? && !pc.Start? && !pc.Reread?
    requires w in s.runs && s.runs[w] == JoinRun(row, pc)
    ensures HoldsOn(s, pc, w, JoinNext(s, w, row, pc, r))
  {
    hide HoldsOn, JoinNext;
    if QueuePc(pc) {
      QueueHoldsOn(s, w, row, pc, r);
    } else if RoomPc(pc) {
      RoomHoldsOn(s, w, row, pc, r);
    } else if MarkPc(pc) {
      if r == Done {
        MarkHoldsOn(s, w, row, pc);
      } else {
        WritersReturnOrFail(s, w, row, pc, r);
        FailHoldsOn(s, w, row, pc);
      }
    } else if pc.Presence? {
      PresenceHoldsOn(s, w, row, pc, r);
    } else if Checking(pc) {
      ChecksHoldOn(s, w, row, pc, r);
    } else if Calling(pc) {
      CallsHoldOn(s, w, row, pc, r);
    } else {
      AttachHoldsOn(s, w, row, pc, r);
    }
  }

  lemma FailHoldsOn(s: State, w: nat, row: Join, pc: JoinPc)
    requires MarkPc(pc)
    ensures HoldsOn(s, pc, w, JoinNext(s, w, row, pc, Fail))
  {
  }

  // ---- a refused intent stays barren --------------------------------------------

  lemma CommitKeepsBarren(t: Tables, op: Op, now: real, i: IntentId)
    requires IdsMinted(t) && i in t.intents && t.intents[i].channel.None? && t.intents[i].phase != Prepared
    requires !(op.OpPhase? && op.i == i && op.p == Prepared) && !(op.OpAttach? && op.i == i)
    ensures var n := Commit(t, op, now).intents; i in n && n[i].channel.None? && n[i].phase != Prepared
  {
    hide OthersClosed, OwnerFree, Full;
  }

  /** No transaction of a step prepares or attaches it again. */
  lemma BarrenIsNotRewritten(s: State, a: Action, i: IntentId)
    requires Core(s) && Barren(s, i) && Next(s, a).Some? && TxOf(s, a).Some?
    ensures var op := TxOf(s, a).value;
            !(op.OpPhase? && op.i == i && op.p == Prepared) && !(op.OpAttach? && op.i == i)
  {
    hide JoinNext, CleanNext, StaffNext, Core;
    if a.JoinStep? {
      var run := s.runs[a.w];
      assert Holds(run, i) ==> Closing(run.pc);
    } else if a.StaffStep? {
      StaffOkAt(s, a.w);
    }
  }

  lemma StaffOkAt(s: State, w: nat)
    requires Core(s) && w in s.runs && s.runs[w].StaffRun?
    ensures StaffOk(s.world, s.t.intents, s.runs[w])
  {
    assert RunOk(s.world, s.t.intents, s.runs[w]);
  }

  /** A barren intent that is read is closed, never sent. */
  lemma ReadClosesBarren(s: State, w: nat, row: Join, pc: JoinPc, r: Reply, i: IntentId)
    requires AtJoin(s, w, row, pc) && (pc.Start? || pc.Reread?) && Barren(s, i)
    requires JoinNext(s, w, row, pc, r).Some?
    ensures var s' := JoinNext(s, w, row, pc, r).value;
            && s'.world.inflight == s.world.inflight
            && (w in s'.runs && Holds(s'.runs[w], i) ==> s'.runs[w].pc.MarkUnresolved? || s'.runs[w].pc.Audit?)
  {
    AtJoinOk(s, w, row, pc);
    CoreTables(s);
    IntentOkAt(s, i);
    hide Core, Fresh, OneRoomEach, RoomsOk;
  }

  lemma JoinKeepsBarren(s: State, w: nat, r: Reply, i: IntentId)
    requires Core(s) && Barren(s, i) && w in s.runs && s.runs[w].JoinRun? && Next(s, JoinStep(w, r)).Some?
    ensures var s' := Next(s, JoinStep(w, r)).value;
            && Fresh(s'.world, i) && forall x | x in s'.runs && Holds(s'.runs[x], i) :: Closing(s'.runs[x].pc)
  {
    var row, pc := s.runs[w].row, s.runs[w].pc;
    var s' := Next(s, JoinStep(w, r)).value;
    JoinIsFramed(s, w, row, pc, r);
    assert Holds(s.runs[w], i) ==> Closing(pc);
    if pc.Start? || pc.Reread? {
      assert AtJoin(s, w, row, pc);
      hide JoinNext, Core;
      ReadClosesBarren(s, w, row, pc, r, i);
    } else {
      if pc.Audit? && pc.h.id == i {
        BarrenAudit(s, w, row, pc, r, i);
      }
      hide JoinNext, Core;
      StepHoldsOn(s, w, row, pc, r);
    }
  }

  /** Its audit finds nothing, as it made nothing. */
  lemma BarrenAudit(s: State, w: nat, row: Join, pc: JoinPc, r: Reply, i: IntentId)
    requires Fresh(s.world, i) && JoinNext(s, w, row, pc, r).Some? && pc.Audit? && pc.h.id == i
    ensures var s' := JoinNext(s, w, row, pc, r).value;
            w in s'.runs ==> !(s'.runs[w].JoinRun? && s'.runs[w].pc.AuditAttach?)
  {
  }

  lemma CleanMakesNothing(s: State, w: nat, key: CleanupKey, at: CleanPc, r: Reply)
    requires CleanNext(s, w, key, at, r).Some?
    ensures var s' := CleanNext(s, w, key, at, r).value;
            s'.world.made == s.world.made && s'.world.inflight == s.world.inflight
  {
    hide Protects, Deleted, DropRoom, SetPanel, CleanupResult, Vacated, InVoice;
  }

  /** A run that is no join, or starts, holds nothing. */
  lemma CleanKeepsHolders(s: State, w: nat, r: Reply)
    requires w in s.runs && s.runs[w].CleanRun? && Next(s, CleanStep(w, r)).Some?
    ensures var s' := Next(s, CleanStep(w, r)).value;
            && s'.world.made == s.world.made && s'.world.inflight == s.world.inflight
            && forall x | x in s'.runs && s'.runs[x].JoinRun? :: x in s.runs && s'.runs[x] == s.runs[x]
  {
    CleanMakesNothing(s, w, s.runs[w].key, s.runs[w].at, r);
    CleanGoesOnOrReleases(s, w, s.runs[w].key, s.runs[w].at, r);
    hide CleanNext;
  }

  lemma OthersKeepHolders(s: State, a: Action, i: IntentId)
    requires Next(s, a).Some? && !a.JoinStep? && !a.CleanStep? && Fresh(s.world, i)
    ensures var s' := Next(s, a).value;
            && Fresh(s'.world, i)
            && forall x | x in s'.runs && Holds(s'.runs[x], i) :: x in s.runs && s'.runs[x] == s.runs[x]
  {
    hide Enqueue, CancelJoin, AddCleanup, Deleted, DropRoom, Transfer, Attach, SetPhase;
  }

  lemma StepKeepsBarren(s: State, a: Action, i: IntentId)
    requires Core(s) && Barren(s, i) && Next(s, a).Some?
    ensures Barren(Next(s, a).value, i)
  {
    ActionIsOneTransaction(s, a);
    CoreTables(s);
    if TxOf(s, a).Some? {
      BarrenIsNotRewritten(s, a, i);
      CommitKeepsBarren(s.t, TxOf(s, a).value, s.clock, i);
    }
    hide Core, Commit, TxOf;
    if a.JoinStep? {
      hide Next;
      JoinKeepsBarren(s, a.w, a.r, i);
    } else if a.CleanStep? {
      CleanKeepsHolders(s, a.w, a.r);
      hide Next;
    } else {
      OthersKeepHolders(s, a, i);
      hide Next;
    }
  }

  lemma {:induction false} BarrenAlways(s: State, acts: seq<Action>, i: IntentId)
    requires Core(s) && Barren(s, i) && After(s, acts).Some?
    ensures Barren(Final(s, acts), i)
    decreases |acts|
  {
    hide Core, Barren, Next;
    if acts != [] {
      StepKeepsBarren(s, acts[0], i);
      StepKeepsCore(s, acts[0]);
      BarrenAlways(Next(s, acts[0]).value, acts[1..], i);
    }
  }

  // ---- a refusal -----------------------------------------------------------------

  /** Discord answers the create of intent i with a 4xx that is no 429. */
  ghost predicate RefusesCreate(s: State, w: nat, i: IntentId) {
    && w in s.runs && s.runs[w].JoinRun? && s.runs[w].pc.Await? && s.runs[w].pc.h.id == i
    && Next(s, JoinStep(w, Refused)).Some?
  }

  lemma RefusalIsBarren(s: State, w: nat, i: IntentId)
    requires Core(s) && RefusesCreate(s, w, i)
    ensures Barren(Next(s, JoinStep(w, Refused)).value, i)
  {
    var row, h := s.runs[w].row, s.runs[w].pc.h;
    var s' := Next(s, JoinStep(w, Refused)).value;
    AtJoinOk(s, w, row, Await(h));
    FlightAt(s, i);
    RefusalStep(s, w, i);
    hide Next;
    forall x | x in s'.runs && Holds(s'.runs[x], i) ensures Closing(s'.runs[x].pc) {
      if x != w {
        OneHolder(s, w, x, i);
      }
    }
  }

  lemma RefusalStep(s: State, w: nat, i: IntentId)
    requires RefusesCreate(s, w, i)
    ensures var s' := Next(s, JoinStep(w, Refused)).value;
            && i in s.world.inflight && s'.t == s.t
            && s'.world == s.world.(inflight := s.world.inflight - {i})
            && s'.runs == s.runs[w := JoinRun(s.runs[w].row, Reject(s.runs[w].pc.h))]
  {
  }

  /** Two runs never hold one intent. */
  lemma OneHolder(s: State, w: nat, x: nat, i: IntentId)
    requires Core(s) && w in s.runs && x in s.runs && Holds(s.runs[w], i) && Holds(s.runs[x], i)
    ensures w == x
  {
    HolderGuild(s, w, i);
    HolderGuild(s, x, i);
  }

  lemma HolderGuild(s: State, w: nat, i: IntentId)
    requires Core(s) && w in s.runs && Holds(s.runs[w], i)
    ensures i in s.t.intents && s.t.intents[i].guild == GuildOf(s.runs[w])
  {
    AtJoinOk(s, w, s.runs[w].row, s.runs[w].pc);
  }

  /** Once Discord has refused the create of an intent, no continuation of the
      run, through crashes, restarts, handlers and staff, sends it again, and no
      channel ever comes from it. */
  lemma RefusedIsNeverSentAgain(s: State, acts: seq<Action>, w: nat, i: IntentId, more: seq<Action>, x: nat)
    requires Init(s) && After(s, acts).Some? && RefusesCreate(Final(s, acts), w, i)
    requires After(Next(Final(s, acts), JoinStep(w, Refused)).value, more).Some?
    ensures var e := Final(Next(Final(s, acts), JoinStep(w, Refused)).value, more);
            && !Transmits(e, x, i) && i !in e.world.inflight
            && (forall c | c in e.world.made :: e.world.made[c] != i)
  {
    CoreFromBoot(s, acts);
    var e0 := Final(s, acts);
    StepKeepsCore(e0, JoinStep(w, Refused));
    RefusalIsBarren(e0, w, i);
    hide Core, Next, RefusesCreate, Barren;
    BarrenAlways(Next(e0, JoinStep(w, Refused)).value, more, i);
    BarrenMeans(Final(Next(e0, JoinStep(w, Refused)).value, more), x, i);
  }

  lemma BarrenMeans(s: State, x: nat, i: IntentId)
    requires Barren(s, i)
    ensures !Transmits(s, x, i) && i !in s.world.inflight && forall c | c in s.world.made :: s.world.made[c] != i
  {
    hide Next;
  }

  // ---- so only a 429 lets a create go out again ------------------------------------

  /** The action is a 429 for the create of intent i. */
  predicate Throttles(s: State, a: Action, i: IntentId) {
    a.JoinStep? && a.r == Throttled && a.w in s.runs && s.runs[a.w].JoinRun? && s.runs[a.w].pc.Await?
    && s.runs[a.w].pc.h.id == i
  }

  ghost predicate NeverThrottled(s: State, acts: seq<Action>, i: IntentId)
    decreases |acts|
  {
    acts == [] || (!Throttles(s, acts[0], i)
                   && (Next(s, acts[0]).Some? ==> NeverThrottled(Next(s, acts[0]).value, acts[1..], i)))
  }

  lemma {:induction false} SpentAlways(s: State, acts: seq<Action>, i: IntentId)
    requires Core(s) && After(s, acts).Some? && NeverThrottled(s, acts, i) && (!Fresh(s.world, i) || Barren(s, i))
    ensures !Fresh(Final(s, acts).world, i) || Barren(Final(s, acts), i)
    decreases |acts|
  {
    hide Core, Next, Fresh, Barren;
    if acts != [] {
      var a := acts[0];
      StepKeepsCore(s, a);
      if Barren(s, i) {
        StepKeepsBarren(s, a, i);
      } else if Rejects(s, a, i) {
        RefusalIsBarren(s, a.w, i);
      } else {
        UsedStaysUsed(s, a, i);
      }
      SpentAlways(Next(s, a).value, acts[1..], i);
    }
  }

  /** Between two transmissions of one intent, across any crashes, restarts, lost
      replies and refusals, lies a 429 to the first. */
  lemma RetransmittedOnlyAfterThrottling(s: State, acts: seq<Action>, w: nat, i: IntentId, more: seq<Action>, x: nat)
    requires Init(s) && After(s, acts).Some? && Transmits(Final(s, acts), w, i)
    requires var sent := Next(Final(s, acts), JoinStep(w, Transmit)).value;
             After(sent, more).Some? && Transmits(Final(sent, more), x, i)
    ensures !NeverThrottled(Next(Final(s, acts), JoinStep(w, Transmit)).value, more, i)
  {
    hide Core, Next, Fresh, NeverThrottled;
    CoreFromBoot(s, acts);
    var e := Final(s, acts);
    TransmitIsFresh(e, w, i);
    TransmitSteps(e, w, i);
    StepKeepsCore(e, JoinStep(w, Transmit));
    var sent := Next(e, JoinStep(w, Transmit)).value;
    CoreAlways(sent, more);
    TransmitIsFresh(Final(sent, more), x, i);
    if NeverThrottled(sent, more, i) {
      SpentAlways(sent, more, i);
    }
  }
}
