/** What a step of run_join can touch besides the tables. */
module Frames {
  import opened Common
  import opened Tables
  import opened Protocol
  import opened Transactions

  /** The create whose reply says that it made nothing. */
  function Rejected(pc: JoinPc, r: Reply): set<IntentId> {
    if pc.Await? && (r == Throttled || r == Refused) then {pc.h.id} else {}
  }

  /** A step of run w makes and deletes nothing, ends no request but those in
      `over`, and either keeps the guild claimed or releases the claim together
      with the run. */
  ghost predicate Framed(s: State, w: nat, row: Join, over: set<IntentId>, after: Option<State>) {
    after.Some? ==>
      var s' := after.value;
      && s'.world.made == s.world.made && s'.world.live == s.world.live
      && s.world.inflight - over <= s'.world.inflight
      && s'.voice == s.voice && s'.clock == s.clock && s'.up == s.up
      && ((w in s'.runs && s'.runs[w].JoinRun? && s'.runs[w].row == row
           && s'.runs == s.runs[w := s'.runs[w]] && s'.busy == s.busy)
          || (s'.runs == s.runs - {w} && s'.busy == s.busy - {row.guild}))
  }

  lemma ReadsAreFramed(s: State, w: nat, row: Join, h: Held, present: bool, first: bool, r: Reply)
    ensures Framed(s, w, row, {}, ReadIntent(s, w, row, r, first))
    ensures Framed(s, w, row, {}, AuditStep(s, w, row, h, r))
    ensures Framed(s, w, row, {}, RecheckStep(s, w, row, h, present, r))
  {
    hide OpenFor, InsertIntent, Copy, Current;
  }

  lemma FetchesAreFramed(s: State, w: nat, row: Join, h: Held, c: Channel, r: Reply)
    ensures Framed(s, w, row, {}, PreflightStep(s, w, row, h, r))
    ensures Framed(s, w, row, {}, FetchOwnStep(s, w, row, h, r)) && Framed(s, w, row, {}, FindOtherStep(s, w, row, h, r))
    ensures Framed(s, w, row, {}, FetchOtherStep(s, w, row, h, c, r))
  {
  }

  lemma AttachesAreFramed(s: State, w: nat, row: Join, h: Held, c: Channel, r: Reply)
    ensures Framed(s, w, row, {}, AuditAttachStep(s, w, row, h, c, r))
    ensures Framed(s, w, row, {}, AttachStep(s, w, row, h, c, r))
  {
    hide Attach;
  }

  lemma CallsAreFramed(s: State, w: nat, row: Join, h: Held, r: Reply)
    ensures Framed(s, w, row, {}, CreateStep(s, w, row, h, r))
    ensures Framed(s, w, row, Rejected(Await(h), r), AwaitStep(s, w, row, h, r))
  {
    hide StillWaiting;
  }

  lemma LaterCallsAreFramed(s: State, w: nat, row: Join, h: Held, r: Reply)
    requires w in s.runs && s.runs[w].JoinRun? && s.runs[w].row == row
    ensures Framed(s, w, row, {}, ArriveStep(s, w, row, h, r)) && Framed(s, w, row, {}, MovingStep(s, w, row, h, r))
    ensures Framed(s, w, row, {}, PanelStep(s, w, row, h, r)) && Framed(s, w, row, {}, SendPanelStep(s, w, row, h, r))
  {
    hide StillWaiting, InVoice, Current;
    MoveIsFramed(s, w, row, h, r);
  }

  lemma MoveIsFramed(s: State, w: nat, row: Join, h: Held, r: Reply)
    requires w in s.runs && s.runs[w].JoinRun? && s.runs[w].row == row
    ensures Framed(s, w, row, {}, ArriveStep(s, w, row, h, r)) && Framed(s, w, row, {}, MovingStep(s, w, row, h, r))
  {
    hide StillWaiting, InVoice, Current;
  }

  lemma MarkIsFramed(s: State, w: nat, row: Join, h: Held, p: Phase, next: JoinPc)
    ensures Framed(s, w, row, {}, Some(Mark(s, w, row, h, p, next)))
  {
    hide SetPhase;
  }

  lemma MarkingIsFramed(s: State, w: nat, row: Join, pc: JoinPc)
    requires MarkPc(pc)
    ensures Framed(s, w, row, {}, JoinNext(s, w, row, pc, Done))
  {
    hide Mark, Framed;
    var next := if pc.MarkUnresolved? then Audit(pc.h)
                else if pc.Retarget? then (if pc.h.channel.Some? then RetargetCleanup(pc.h) else Reread)
                else if pc.MarkSent? then Create(pc.h)
                else if pc.Withdraw? then End(Some(pc.delay))
                else if pc.Reject? then RejectJoin
                else if pc.Doubt? then End(Some(60.0))
                else if pc.MarkMoved? then Panel(pc.h)
                else if pc.BlockPanel? then BlockPanelJoin
                else if pc.h.channel.Some? then AbandonRoom(pc.h, pc.again) else End(pc.again);
    var p := if pc.MarkUnresolved? || pc.Doubt? then Unresolved
             else if pc.MarkSent? then Sent
             else if pc.Withdraw? then Prepared
             else if pc.MarkMoved? then Moved
             else if pc.BlockPanel? then PanelBlocked
             else Cancelled;
    MarkIsFramed(s, w, row, pc.h, p, next);
  }

  lemma EndIsFramed(s: State, w: nat, row: Join, again: Option<real>, r: Reply)
    ensures Framed(s, w, row, {}, EndStep(s, w, row, again, r))
  {
    hide Defer;
  }

  lemma QueueWritingIsFramed(s: State, w: nat, row: Join, pc: JoinPc, r: Reply)
    requires QueuePc(pc) || pc.Presence?
    ensures Framed(s, w, row, {}, JoinNext(s, w, row, pc, r))
  {
    hide Complete, CancelJoin, StillWaiting, InVoice;
  }

  lemma RoomWritingIsFramed(s: State, w: nat, row: Join, pc: JoinPc, r: Reply)
    requires RoomPc(pc)
    ensures Framed(s, w, row, Rejected(pc, r), JoinNext(s, w, row, pc, r))
  {
    hide AddCleanup, Deleted, SetPanel, DropRoom;
  }

  lemma FailIsFramed(s: State, w: nat, row: Join, pc: JoinPc)
    requires !pc.End? && !pc.AttachRoom?
    ensures Framed(s, w, row, {}, JoinNext(s, w, row, pc, Fail))
  {
  }

  lemma ReadingIsFramed(s: State, w: nat, row: Join, pc: JoinPc, r: Reply)
    requires (Checking(pc) && !pc.FetchOther?) || pc.Start? || pc.Reread?
    requires r != Fail
    ensures Framed(s, w, row, Rejected(pc, r), JoinNext(s, w, row, pc, r))
  {
    hide Framed, ReadIntent, AuditStep, RecheckStep, PreflightStep, FetchOwnStep, FindOtherStep;
    if pc.Start? || pc.Reread? {
      ReadsAreFramed(s, w, row, Held(0, Channel(0, 0), 0, Prepared, None), false, pc.Start?, r);
    } else if pc.Recheck? {
      ReadsAreFramed(s, w, row, pc.h, pc.present, false, r);
    } else if pc.Audit? {
      ReadsAreFramed(s, w, row, pc.h, false, false, r);
    } else {
      FetchesAreFramed(s, w, row, pc.h, Channel(0, 0), r);
    }
  }

  lemma CallingIsFramed(s: State, w: nat, row: Join, pc: JoinPc, r: Reply)
    requires pc.FetchOther? || pc.AuditAttach? || pc.AttachRoom? || Calling(pc)
    requires r != Fail || pc.AttachRoom?
    requires w in s.runs && s.runs[w].JoinRun? && s.runs[w].row == row
    ensures Framed(s, w, row, Rejected(pc, r), JoinNext(s, w, row, pc, r))
  {
    hide Framed, FetchOtherStep, AuditAttachStep, AttachStep;
    hide CreateStep, AwaitStep, ArriveStep, MovingStep, PanelStep, SendPanelStep;
    if pc.Create? || pc.Await? {
      CallsAreFramed(s, w, row, pc.h, r);
    } else if Calling(pc) {
      LaterCallsAreFramed(s, w, row, pc.h, r);
    } else if pc.FetchOther? {
      FetchesAreFramed(s, w, row, pc.h, pc.room, r);
    } else {
      AttachesAreFramed(s, w, row, pc.h, pc.room, r);
    }
  }

  lemma EndNext(s: State, w: nat, row: Join, pc: JoinPc, r: Reply)
    requires pc.End?
    ensures JoinNext(s, w, row, pc, r) == EndStep(s, w, row, pc.again, r)
  {
    hide EndStep;
  }

  lemma JoinIsFramed(s: State, w: nat, row: Join, pc: JoinPc, r: Reply)
    requires JoinNext(s, w, row, pc, r).Some?
    requires w in s.runs && s.runs[w].JoinRun? && s.runs[w].row == row
    ensures Framed(s, w, row, Rejected(pc, r), JoinNext(s, w, row, pc, r))
  {
    hide Framed, JoinNext;
    if pc.End? {
      EndNext(s, w, row, pc, r);
      EndIsFramed(s, w, row, pc.again, r);
    } else if QueuePc(pc) || pc.Presence? {
      QueueWritingIsFramed(s, w, row, pc, r);
    } else if RoomPc(pc) {
      RoomWritingIsFramed(s, w, row, pc, r);
    } else if r == Fail && !pc.AttachRoom? {
      FailIsFramed(s, w, row, pc);
    } else if MarkPc(pc) {
      if r != Done {
        WritersReturnOrFail(s, w, row, pc, r);
      } else {
        MarkingIsFramed(s, w, row, pc);
      }
    } else if pc.FetchOther? || pc.AuditAttach? || pc.AttachRoom? || Calling(pc) {
      CallingIsFramed(s, w, row, pc, r);
    } else {
      ReadingIsFramed(s, w, row, pc, r);
    }
  }
}
