/** Nobody loses the room they are in: a cleanup decides to delete a room only at
    a moment when the gateway shows nobody inside, and one that finds somebody
    leaves everything as it was. */
module Occupancy {
  import opened Common
  import opened Tables
  import opened Protocol
  import opened ProtocolTheorems
  import opened StaleWrite
  import opened Completion
  import opened Frames
  import opened Deletion
  import opened Transactions
  import opened Rejection

  /** No member of any guild is in channel c. */
  ghost predicate NobodyIn(s: State, c: Channel) {
    forall g, u | (g, u) in s.voice :: s.voice[(g, u)] != c
  }

  /** Run w is about to delete channel c. */
  predicate Deleting(s: State, w: nat, c: Channel) {
    w in s.runs && s.runs[w].CleanRun? && s.runs[w].at.Delete? && s.runs[w].key.channel == c
  }

  lemma VacatedMeans(s: State, c: Channel)
    ensures Vacated(s, c) <==> NobodyIn(s, c)
  {
    if NobodyIn(s, c) {
      forall k | k in s.voice.Keys ensures s.voice[k] != c {
        assert (k.0, k.1) in s.voice;
      }
    }
  }

  lemma CleanEntersDelete(s: State, w: nat, key: CleanupKey, at: CleanPc, r: Reply)
    requires CleanNext(s, w, key, at, r).Some?
    ensures var s' := CleanNext(s, w, key, at, r).value;
            w in s'.runs && w in s.runs && s.runs[w] == CleanRun(key, at) && s'.runs[w].CleanRun? && s'.runs[w].at.Delete?
            ==> r == Vacant && Vacated(s, key.channel)
  {
    hide Protects, Deleted, DropRoom, SetPanel, CleanupResult, Vacated, InVoice;
  }

  /** Whatever happens, a run comes to its delete only in an empty room. */
  lemma DeleteIsDecidedEmpty(s: State, a: Action, w: nat, c: Channel)
    requires Next(s, a).Some? && Deleting(Next(s, a).value, w, c) && !Deleting(s, w, c)
    ensures a == CleanStep(w, Vacant) && NobodyIn(s, c)
  {
    VacatedMeans(s, c);
    hide JoinNext, CleanNext, Vacated, NobodyIn;
    if a.JoinStep? {
      JoinIsFramed(s, a.w, s.runs[a.w].row, s.runs[a.w].pc, a.r);
    } else if a.CleanStep? {
      CleanGoesOnOrReleases(s, a.w, s.runs[a.w].key, s.runs[a.w].at, a.r);
      CleanEntersDelete(s, a.w, s.runs[a.w].key, s.runs[a.w].at, a.r);
    }
  }

  lemma {:induction false} LastStep(s: State, acts: seq<Action>)
    requires acts != [] && After(s, acts).Some?
    ensures var n := |acts| - 1;
            After(s, acts[..n]).Some? && Next(Final(s, acts[..n]), acts[n]) == After(s, acts)
    decreases |acts|
  {
    hide Next;
    var n := |acts| - 1;
    if n == 0 {
      assert acts[..0] == [] && acts[1..] == [];
    } else {
      LastStep(Next(s, acts[0]).value, acts[1..]);
      assert acts[1..][..n - 1] == acts[..n][1..] && acts[1..][n - 1] == acts[n];
    }
  }

  /** After n actions run w looked into channel c, found nobody, and has been at
      the delete ever since. */
  ghost predicate DecidedAt(s: State, acts: seq<Action>, w: nat, c: Channel, n: nat) {
    && n < |acts| && acts[n] == CleanStep(w, Vacant)
    && After(s, acts[..n]).Some? && NobodyIn(Final(s, acts[..n]), c)
    && forall m | n < m <= |acts| :: After(s, acts[..m]).Some? && Deleting(Final(s, acts[..m]), w, c)
  }

  lemma {:induction false} DeleteWasDecidedEmpty(s: State, acts: seq<Action>, w: nat, c: Channel)
    requires Init(s) && After(s, acts).Some? && Deleting(Final(s, acts), w, c)
    ensures exists n :: DecidedAt(s, acts, w, c, n)
    decreases |acts|
  {
    hide Next, NobodyIn;
    assert acts != [];
    var k := |acts| - 1;
    var before := acts[..k];
    LastStep(s, acts);
    assert acts[..|acts|] == acts;
    if Deleting(Final(s, before), w, c) {
      DeleteWasDecidedEmpty(s, before, w, c);
      var n :| DecidedAt(s, before, w, c, n);
      assert forall m | 0 <= m <= k :: before[..m] == acts[..m];
      assert DecidedAt(s, acts, w, c, n);
    } else {
      DeleteIsDecidedEmpty(Final(s, before), acts[k], w, c);
      assert DecidedAt(s, acts, w, c, k);
    }
  }

  /** In every run from a first boot: a room that disappears, other than on
      Discord's side, was found empty by the very cleanup that deletes it, the
      last thing that cleanup did before. */
  lemma DeletedRoomsWereEmpty(s: State, acts: seq<Action>, a: Action, c: Channel)
    requires Init(s) && After(s, acts).Some? && Next(Final(s, acts), a).Some? && a != Vanish(c)
    requires c in Final(s, acts).world.live && c !in Next(Final(s, acts), a).value.world.live
    ensures a.CleanStep? && Deleting(Final(s, acts), a.w, c) && exists n :: DecidedAt(s, acts, a.w, c, n)
  {
    OnlyUnprotectedRoomsAreDeleted(s, acts, a, c);
    DeleteWasDecidedEmpty(s, acts, a.w, c);
  }

  // ---- nor gets a second one ------------------------------------------------------------

  /** Owner (g, u) has no recorded room. */
  ghost predicate OwnsNone(s: State, g: Guild, u: User) {
    forall c | c in s.t.rooms :: !(s.t.rooms[c].guild == g && s.t.rooms[c].owner == u)
  }

  /** Run w has decided to create a room. */
  predicate Sending(s: State, w: nat) {
    w in s.runs && s.runs[w].JoinRun? && s.runs[w].pc.MarkSent?
  }

  lemma ReadDecidesNothing(s: State, w: nat, row: Join, pc: JoinPc, r: Reply)
    requires pc.Start? || pc.Reread?
    ensures JoinNext(s, w, row, pc, r).Some? ==> !Sending(JoinNext(s, w, row, pc, r).value, w)
  {
    hide InsertIntent, OpenFor;
  }

  lemma FindOtherIs(s: State, w: nat, row: Join, h: Held, r: Reply)
    requires JoinNext(s, w, row, FindOther(h), r).Some? && Sending(JoinNext(s, w, row, FindOther(h), r).value, w)
    ensures r == Unowned && OwnsNone(s, row.guild, row.user)
  {
    CheckIs(s, w, row, FindOther(h), r);
    hide JoinNext;
  }

  lemma OnlyFromLooking(s: State, pc: JoinPc, w: nat, after: Option<State>)
    requires HoldsOn(s, pc, w, after) && after.Some? && Sending(after.value, w)
    ensures pc.FindOther?
  {
  }

  lemma JoinDecides(s: State, w: nat, row: Join, pc: JoinPc, r: Reply)
    requires w in s.runs && s.runs[w] == JoinRun(row, pc) && !pc.MarkSent?
    requires JoinNext(s, w, row, pc, r).Some? && Sending(JoinNext(s, w, row, pc, r).value, w)
    ensures r == Unowned && OwnsNone(s, row.guild, row.user)
  {
    if pc.Start? || pc.Reread? {
      hide JoinNext;
      ReadDecidesNothing(s, w, row, pc, r);
    } else {
      StepHoldsOn(s, w, row, pc, r);
      hide JoinNext, OwnsNone, HoldsOn, Sending;
      OnlyFromLooking(s, pc, w, JoinNext(s, w, row, pc, r));
      FindOtherIs(s, w, row, pc.h, r);
    }
  }

  /** Whatever happens, a run decides to create a room only when it has just found
      that its owner has none. */
  lemma SentOnlyWithoutARoom(s: State, a: Action, w: nat)
    requires Next(s, a).Some? && Sending(Next(s, a).value, w) && !Sending(s, w)
    ensures a == JoinStep(w, Unowned) && w in s.runs && s.runs[w].JoinRun?
            && OwnsNone(s, s.runs[w].row.guild, s.runs[w].row.user)
  {
    if a.JoinStep? {
      JoinIsFramed(s, a.w, s.runs[a.w].row, s.runs[a.w].pc, a.r);
      hide JoinNext, OwnsNone;
      if a.w == w {
        JoinDecides(s, w, s.runs[w].row, s.runs[w].pc, a.r);
      }
    } else if a.CleanStep? {
      CleanGoesOnOrReleases(s, a.w, s.runs[a.w].key, s.runs[a.w].at, a.r);
      hide CleanNext;
    }
  }
}
