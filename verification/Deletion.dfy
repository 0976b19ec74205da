/** Which rooms go away, and which records: nothing protected is deleted,
    nothing that still exists is dropped, and no claim on a guild is lost. */
module Deletion {
  import opened Common
  import opened Tables
  import opened Protocol
  import opened ProtocolInvariant
  import opened ProtocolSteps
  import opened ProtocolTheorems
  import opened Transactions
  import opened StoreRuns
  import opened Frames

  /** Where run_cleanup stands once its check of protects has passed. */
  predicate PastCheck(at: CleanPc) {
    at.Visit? || at.Second? || at.Reconcile? || at.Delete? || at.Drop?
  }

  /** The check is many awaits old when the delete goes out, and still holds. */
  lemma CheckStaysTrue(s: State, acts: seq<Action>, w: nat)
    requires Init(s) && After(s, acts).Some?
    requires w in Final(s, acts).runs && Final(s, acts).runs[w].CleanRun? && PastCheck(Final(s, acts).runs[w].at)
    ensures !Protects(Final(s, acts).t, Final(s, acts).runs[w].key.channel)
  {
    CoreFromBoot(s, acts);
    var e := Final(s, acts);
    CleanOkAt(e, w, e.runs[w].key, e.runs[w].at);
  }

  lemma CleanDeletesOnlyAtDelete(s: State, w: nat, key: CleanupKey, at: CleanPc, r: Reply, c: Channel)
    requires CleanNext(s, w, key, at, r).Some?
    requires c in s.world.live && c !in CleanNext(s, w, key, at, r).value.world.live
    ensures at.Delete? && r == Done && c == key.channel
  {
    hide Protects, Deleted, DropRoom, SetPanel, CleanupResult;
  }

  /** A room disappears either on Discord's side or by the delete of a cleanup
      of that room, and then no created, moved or unresolved intent has it. */
  lemma OnlyUnprotectedRoomsAreDeleted(s: State, acts: seq<Action>, a: Action, c: Channel)
    requires Init(s) && After(s, acts).Some? && Next(Final(s, acts), a).Some?
    requires c in Final(s, acts).world.live && c !in Next(Final(s, acts), a).value.world.live
    ensures a != Vanish(c) ==>
              var e := Final(s, acts);
              && a.CleanStep? && a.w in e.runs && e.runs[a.w].CleanRun?
              && e.runs[a.w].at.Delete? && e.runs[a.w].key.channel == c
              && forall i | i in e.t.intents && e.t.intents[i].channel == Some(c) ::
                   e.t.intents[i].phase !in {Created, Moved, Unresolved}
  {
    hide JoinNext, CleanNext, Core;
    var e := Final(s, acts);
    CoreFromBoot(s, acts);
    if a.JoinStep? {
      JoinIsFramed(e, a.w, e.runs[a.w].row, e.runs[a.w].pc, a.r);
    } else if a.CleanStep? {
      var run := e.runs[a.w];
      CleanDeletesOnlyAtDelete(e, a.w, run.key, run.at, a.r, c);
      CleanOkAt(e, a.w, run.key, run.at);
    }
  }

  // ---- rows ------------------------------------------------------------------

  lemma RoomsShrinkOnlyByDrop(t: Tables, op: Op, now: real, c: Channel)
    requires c in t.rooms && c !in Commit(t, op, now).rooms
    ensures op == OpDropRoom(c)
  {
    hide OthersClosed, OwnerFree;
  }

  lemma DroppingWorker(s: State, w: nat, r: Reply, c: Channel)
    requires w in s.runs && s.runs[w].JoinRun?
    requires JoinTx(s, s.runs[w].row, s.runs[w].pc, r) == Some(OpDropRoom(c))
    ensures var pc := s.runs[w].pc;
            (pc.OwnGone? && pc.h.channel == Some(c)) || (pc.OtherGone? && pc.room == c)
  {
  }

  /** A row leaves active_temp_channels only once its channel is gone. */
  lemma RowsLeaveOnlyWhenAbsent(s: State, acts: seq<Action>, a: Action, c: Channel)
    requires Init(s) && After(s, acts).Some? && Next(Final(s, acts), a).Some?
    requires c in Final(s, acts).t.rooms && c !in Next(Final(s, acts), a).value.t.rooms
    ensures c in Final(s, acts).world.made && c !in Final(s, acts).world.live
  {
    hide Core, Commit, JoinTx, JoinNext, CleanNext, StaffNext;
    var e := Final(s, acts);
    CoreFromBoot(s, acts);
    RoomAt(e, c);
    ActionIsOneTransaction(e, a);
    var tx := TxOf(e, a);
    assert tx.Some?;
    RoomsShrinkOnlyByDrop(e.t, tx.value, e.clock, c);
    if a.JoinStep? {
      DroppingWorker(e, a.w, a.r, c);
      AtJoinOk(e, a.w, e.runs[a.w].row, e.runs[a.w].pc);
    } else if a.CleanStep? {
      CleanOkAt(e, a.w, e.runs[a.w].key, e.runs[a.w].at);
    }
  }

  // ---- claims ----------------------------------------------------------------

  /** Every claimed guild has a run that will release it. */
  ghost predicate Claimed(s: State) {
    forall g | g in s.busy :: exists w :: w in s.runs && GuildOf(s.runs[w]) == g
  }

  lemma ReleaseKeepsClaimed(s: State, s': State, w: nat)
    requires Claimed(s) && w in s.runs
    requires s'.runs == s.runs - {w} && s'.busy == s.busy - {GuildOf(s.runs[w])}
    ensures Claimed(s')
  {
    forall g | g in s'.busy ensures exists x :: x in s'.runs && GuildOf(s'.runs[x]) == g {
      var x :| x in s.runs && GuildOf(s.runs[x]) == g;
      assert x in s'.runs;
    }
  }

  lemma GoOnKeepsClaimed(s: State, s': State, w: nat, run: Run)
    requires Claimed(s) && (w in s.runs ==> GuildOf(s.runs[w]) == GuildOf(run))
    requires s'.runs == s.runs[w := run] && (s'.busy == s.busy || s'.busy == s.busy + {GuildOf(run)})
    ensures Claimed(s')
  {
    forall g | g in s'.busy ensures exists x :: x in s'.runs && GuildOf(s'.runs[x]) == g {
      if g in s.busy {
        var x :| x in s.runs && GuildOf(s.runs[x]) == g;
        assert x in s'.runs && GuildOf(s'.runs[x]) == g;
      } else {
        assert w in s'.runs;
      }
    }
  }

  lemma CleanGoesOnOrReleases(s: State, w: nat, key: CleanupKey, at: CleanPc, r: Reply)
    requires CleanNext(s, w, key, at, r).Some?
    ensures var s' := CleanNext(s, w, key, at, r).value;
            || (w in s'.runs && s'.runs[w].CleanRun? && s'.runs[w].key == key
                && s'.runs == s.runs[w := s'.runs[w]] && s'.busy == s.busy)
            || (s'.runs == s.runs - {w} && s'.busy == s.busy - {key.channel.guild})
  {
    hide Protects, Deleted, DropRoom, SetPanel, CleanupResult;
  }

  lemma StepKeepsClaimed(s: State, a: Action)
    requires Claimed(s) && Next(s, a).Some?
    ensures Claimed(Next(s, a).value)
  {
    hide Claimed, JoinNext, CleanNext;
    var s' := Next(s, a).value;
    if a.JoinStep? || a.CleanStep? {
      if a.JoinStep? {
        JoinIsFramed(s, a.w, s.runs[a.w].row, s.runs[a.w].pc, a.r);
      } else {
        CleanGoesOnOrReleases(s, a.w, s.runs[a.w].key, s.runs[a.w].at, a.r);
      }
      if a.w in s'.runs {
        GoOnKeepsClaimed(s, s', a.w, s'.runs[a.w]);
      } else {
        ReleaseKeepsClaimed(s, s', a.w);
      }
    } else if a.StaffStep? {
      ReleaseKeepsClaimed(s, s', a.w);
    } else if a.StartJoin? || a.StartClean? || a.StartStaff? {
      GoOnKeepsClaimed(s, s', a.w, s'.runs[a.w]);
    } else {
      SideKeepsClaimed(s, a);
    }
  }

  lemma SideKeepsClaimed(s: State, a: Action)
    requires Claimed(s) && Next(s, a).Some?
    requires !a.JoinStep? && !a.CleanStep? && !a.StaffStep? && !a.StartJoin? && !a.StartClean? && !a.StartStaff?
    ensures Claimed(Next(s, a).value)
  {
    hide Enqueue, CancelJoin, AddCleanup, Deleted, DropRoom, Transfer;
  }

  lemma {:induction false} ClaimedAlways(s: State, acts: seq<Action>)
    requires Claimed(s) && After(s, acts).Some?
    ensures Claimed(Final(s, acts))
    decreases |acts|
  {
    hide Claimed, Next;
    if acts != [] {
      StepKeepsClaimed(s, acts[0]);
      ClaimedAlways(Next(s, acts[0]).value, acts[1..]);
    }
  }

  /** No guild stays claimed after its worker is gone, so none is shut out for
      good: not after errors, cancelled runs or crashes. */
  lemma NoClaimIsLost(s: State, acts: seq<Action>, g: Guild)
    requires Init(s) && After(s, acts).Some?
    ensures g in Final(s, acts).busy <==> exists w :: w in Final(s, acts).runs && GuildOf(Final(s, acts).runs[w]) == g
  {
    ClaimedAlways(s, acts);
    CoreFromBoot(s, acts);
  }
}
