/** A join that was interrupted goes on where its intent stands: a prepared one
    is sent, a sent one is audited and never sent again, one with a room is
    finished in that room. */
module Resumption {
  import opened Common
  import opened Tables
  import opened Protocol
  import opened ProtocolInvariant
  import opened ProtocolTheorems
  import opened StaleWrite
  import opened JoinAnswers

  /** The request is current, its guild is free, and its owner's only open intent
      is i, aimed at the same lobby and profile. */
  ghost predicate Waiting(s: State, w: nat, row: Join, i: IntentId) {
    && s.up && w !in s.runs && row.guild !in s.busy
    && (row.guild, row.user) in s.t.joins && s.t.joins[(row.guild, row.user)] == row
    && OpenFor(s.t, i, row.guild, row.user) && OthersClosed(s.t.intents, i) && s.t.intents[i].completed.None?
    && s.t.intents[i].lobby == row.lobby && s.t.intents[i].profile == row.profile
  }

  /** The worker has claimed the guild. */
  function Claimed(s: State, row: Join): State {
    s.(busy := s.busy + {row.guild})
  }

  lemma Starts(s: State, w: nat, row: Join, rest: seq<Action>)
    requires s.up && w !in s.runs && row.guild !in s.busy
    ensures After(s, [StartJoin(w, row)] + rest) == After(Standing(Claimed(s, row), w, row, s.t, Start), rest)
  {
    assert Next(s, StartJoin(w, row)) == Some(Standing(Claimed(s, row), w, row, s.t, Start));
    hide Next, Standing;
    Runs(s, StartJoin(w, row), Standing(Claimed(s, row), w, row, s.t, Start), rest);
  }

  // ---- reading the intent ------------------------------------------------------------

  /** Where a worker goes with the intent it reads. */
  lemma ReadLeads(s: State, w: nat, row: Join, i: IntentId)
    requires OpenFor(s.t, i, row.guild, row.user)
    ensures var h := Copy(s.t, i);
            JoinNext(Standing(s, w, row, s.t, Start), w, row, Start, Read(i))
            == Some(Goto(Standing(s, w, row, s.t, Start), w, row,
                         if h.phase == Sent then MarkUnresolved(h) else if h.phase == Unresolved then Audit(h) else Presence(h)))
  {
  }

  lemma UnresolvedMarks(s: State, w: nat, row: Join, h: Held)
    requires HeldOk(s.t.intents, row, h)
    ensures JoinNext(Standing(s, w, row, s.t, MarkUnresolved(h)), w, row, MarkUnresolved(h), Done)
            == Some(Goto(Standing(s, w, row, Marked(s.t, h.id, Unresolved), MarkUnresolved(h)), w, row, Audit(h)))
  {
    HeldMarks(s.t, row, h, Unresolved);
    hide SetPhase, WithPhase;
  }

  /** A create whose reply was never recorded is never sent again: the worker
      marks the doubt and looks for evidence. */
  lemma SentJoinIsAudited(s: State, w: nat, row: Join, i: IntentId)
    requires Waiting(s, w, row, i) && s.t.intents[i].phase == Sent
    ensures var t := s.t.(intents := s.t.intents[i := s.t.intents[i].(phase := Unresolved)]);
            After(s, [StartJoin(w, row)] + ([JoinStep(w, Read(i))] + ([JoinStep(w, Done)] + [])))
            == Some(Standing(Claimed(s, row), w, row, t, Audit(Copy(s.t, i))))
  {
    var b, h := Claimed(s, row), Copy(s.t, i);
    var e := Standing(b, w, row, Marked(s.t, i, Unresolved), Audit(h));
    ReadLeads(b, w, row, i);
    UnresolvedMarks(b, w, row, h);
    assert After(e, []) == Some(e);
    hide JoinNext, After, Standing, Goto, OthersClosed;
    Starts(s, w, row, [JoinStep(w, Read(i))] + ([JoinStep(w, Done)] + []));
    StepAndRest(b, w, row, s.t, Start, Read(i), s.t, MarkUnresolved(h), [JoinStep(w, Done)] + []);
    StepAndRest(b, w, row, s.t, MarkUnresolved(h), Done, Marked(s.t, i, Unresolved), Audit(h), []);
  }

  // ---- a prepared intent ----------------------------------------------------------------

  function ToSend(w: nat, row: Join, i: IntentId): seq<Action> {
    [StartJoin(w, row)] + ([JoinStep(w, Read(i))] + ([JoinStep(w, Done)] + ([JoinStep(w, Config(true))]
    + ([JoinStep(w, Config(true))] + ([JoinStep(w, Unowned)] + ([JoinStep(w, Done)] + []))))))
  }

  lemma ChecksPass(s: State, w: nat, row: Join, h: Held)
    requires Current(s.t, row) && h.lobby == row.lobby && h.profile == row.profile
    requires InVoice(s, row.guild, row.user, row.lobby)
             || (h.channel.Some? && InVoice(s, row.guild, row.user, h.channel.value))
    ensures JoinNext(Standing(s, w, row, s.t, Presence(h)), w, row, Presence(h), Done)
            == Some(Goto(Standing(s, w, row, s.t, Presence(h)), w, row, Recheck(h, true)))
    ensures JoinNext(Standing(s, w, row, s.t, Recheck(h, true)), w, row, Recheck(h, true), Config(true))
            == Some(Goto(Standing(s, w, row, s.t, Recheck(h, true)), w, row, Preflight(h)))
    ensures JoinNext(Standing(s, w, row, s.t, Preflight(h)), w, row, Preflight(h), Config(true))
            == Some(Goto(Standing(s, w, row, s.t, Preflight(h)), w, row, if h.channel.Some? then FetchOwn(h) else FindOther(h)))
  {
  }

  lemma OtherChecks(s: State, w: nat, row: Join, h: Held)
    requires forall c | c in s.t.rooms :: !(s.t.rooms[c].guild == row.guild && s.t.rooms[c].owner == row.user)
    requires HeldOk(s.t.intents, row, h)
    ensures JoinNext(Standing(s, w, row, s.t, FindOther(h)), w, row, FindOther(h), Unowned)
            == Some(Goto(Standing(s, w, row, s.t, FindOther(h)), w, row, MarkSent(h)))
    ensures JoinNext(Standing(s, w, row, s.t, MarkSent(h)), w, row, MarkSent(h), Done)
            == Some(Goto(Standing(s, w, row, Marked(s.t, h.id, Sent), MarkSent(h)), w, row, Create(h)))
  {
    HeldMarks(s.t, row, h, Sent);
    hide SetPhase, WithPhase;
  }

  /** After a deferral, or a crash before the create, the same intent is written
      as sent, and the worker is about to send it. */
  lemma PreparedJoinIsSent(s: State, w: nat, row: Join, i: IntentId)
    requires Waiting(s, w, row, i) && s.t.intents[i].phase == Prepared && s.t.intents[i].channel.None?
    requires InVoice(s, row.guild, row.user, row.lobby)
    requires forall c | c in s.t.rooms :: !(s.t.rooms[c].guild == row.guild && s.t.rooms[c].owner == row.user)
    ensures var t := s.t.(intents := s.t.intents[i := s.t.intents[i].(phase := Sent)]);
            After(s, ToSend(w, row, i)) == Some(Standing(Claimed(s, row), w, row, t, Create(Copy(s.t, i))))
  {
    var b, h, t := Claimed(s, row), Copy(s.t, i), Marked(s.t, i, Sent);
    var e := Standing(b, w, row, t, Create(h));
    ReadLeads(b, w, row, i);
    ChecksPass(b, w, row, h);
    OtherChecks(b, w, row, h);
    assert After(e, []) == Some(e);
    hide JoinNext, After, Standing, Goto, OthersClosed, InVoice, WithPhase;
    var a6 := [JoinStep(w, Done)] + [];
    var a5 := [JoinStep(w, Unowned)] + a6;
    var a4 := [JoinStep(w, Config(true))] + a5;
    var a3 := [JoinStep(w, Config(true))] + a4;
    var a2 := [JoinStep(w, Done)] + a3;
    Starts(s, w, row, [JoinStep(w, Read(i))] + a2);
    StepAndRest(b, w, row, s.t, Start, Read(i), s.t, Presence(h), a2);
    StepAndRest(b, w, row, s.t, Presence(h), Done, s.t, Recheck(h, true), a3);
    StepAndRest(b, w, row, s.t, Recheck(h, true), Config(true), s.t, Preflight(h), a4);
    StepAndRest(b, w, row, s.t, Preflight(h), Config(true), s.t, FindOther(h), a5);
    StepAndRest(b, w, row, s.t, FindOther(h), Unowned, s.t, MarkSent(h), a6);
    StepAndRest(b, w, row, s.t, MarkSent(h), Done, t, Create(h), []);
  }

  // ---- an intent with a room ---------------------------------------------------------------

  function ToArrive(w: nat, row: Join, i: IntentId, rest: seq<Action>): seq<Action> {
    [StartJoin(w, row)] + ([JoinStep(w, Read(i))] + ([JoinStep(w, Done)] + ([JoinStep(w, Config(true))]
    + ([JoinStep(w, Config(true))] + ([JoinStep(w, Occupied)] + rest)))))
  }

  lemma OwnRoomFound(s: State, w: nat, row: Join, h: Held)
    requires h.channel.Some?
    ensures JoinNext(Standing(s, w, row, s.t, FetchOwn(h)), w, row, FetchOwn(h), Occupied)
            == Some(Goto(Standing(s, w, row, s.t, FetchOwn(h)), w, row, Arrive(h)))
  {
  }

  lemma ReachesArrive(s: State, w: nat, row: Join, i: IntentId, rest: seq<Action>)
    requires Waiting(s, w, row, i) && s.t.intents[i].phase in {Created, Moved, PanelBlocked} && s.t.intents[i].channel.Some?
    requires InVoice(s, row.guild, row.user, row.lobby) || InVoice(s, row.guild, row.user, s.t.intents[i].channel.value)
    ensures After(s, ToArrive(w, row, i, rest)) == After(Standing(Claimed(s, row), w, row, s.t, Arrive(Copy(s.t, i))), rest)
  {
    var b, h := Claimed(s, row), Copy(s.t, i);
    ReadLeads(b, w, row, i);
    ChecksPass(b, w, row, h);
    OwnRoomFound(b, w, row, h);
    hide JoinNext, After, Standing, Goto, OthersClosed, InVoice;
    var a5 := [JoinStep(w, Occupied)] + rest;
    var a4 := [JoinStep(w, Config(true))] + a5;
    var a3 := [JoinStep(w, Config(true))] + a4;
    var a2 := [JoinStep(w, Done)] + a3;
    Starts(s, w, row, [JoinStep(w, Read(i))] + a2);
    StepAndRest(b, w, row, s.t, Start, Read(i), s.t, Presence(h), a2);
    StepAndRest(b, w, row, s.t, Presence(h), Done, s.t, Recheck(h, true), a3);
    StepAndRest(b, w, row, s.t, Recheck(h, true), Config(true), s.t, Preflight(h), a4);
    StepAndRest(b, w, row, s.t, Preflight(h), Config(true), s.t, FetchOwn(h), a5);
    StepAndRest(b, w, row, s.t, FetchOwn(h), Occupied, s.t, Arrive(h), rest);
  }

  /** From the member's arrival: the phase, the panel if none is recorded, the
      count, the end of the request. */
  function ToEnd(w: nat, panel: Option<nat>, message: nat): seq<Action> {
    [JoinStep(w, Done)] + ([JoinStep(w, Done)]
    + ((if panel.Some? then [] else [JoinStep(w, Posted(message))] + ([JoinStep(w, Done)] + []))
    + ([JoinStep(w, Done)] + ([JoinStep(w, Done)] + ([JoinStep(w, Done)] + [])))))
  }

  function WithPanel(t: Tables, c: Channel, message: nat): Tables
    requires c in t.rooms
  {
    if t.rooms[c].panel.Some? then t else t.(rooms := t.rooms[c := t.rooms[c].(panel := Some(message))])
  }

  /** Counted once and stamped, with the request gone. */
  function Served(t: Tables, row: Join, i: IntentId, now: real): Tables
    requires i in t.intents
  {
    t.(intents := t.intents[i := t.intents[i].(phase := Completed, completed := Some(now))], created := t.created + 1,
       joins := t.joins - {(row.guild, row.user)})
  }

  lemma MovedMarks(s: State, w: nat, row: Join, t: Tables, h: Held)
    requires HeldOk(t.intents, row, h)
    ensures JoinNext(Standing(s, w, row, t, MarkMoved(h)), w, row, MarkMoved(h), Done)
            == Some(Goto(Standing(s, w, row, Marked(t, h.id, Moved), MarkMoved(h)), w, row, Panel(h)))
  {
    HeldMarks(t, row, h, Moved);
    hide SetPhase, WithPhase;
  }

  lemma PanelSteps(s: State, w: nat, row: Join, t: Tables, h: Held, c: Channel)
    requires h.channel == Some(c) && c in t.rooms
    ensures JoinNext(Standing(s, w, row, t, Panel(h)), w, row, Panel(h), Done)
            == Some(Goto(Standing(s, w, row, t, Panel(h)), w, row, if t.rooms[c].panel.Some? then Count(h) else SendPanel(h)))
  {
  }

  lemma PostSteps(s: State, w: nat, row: Join, t: Tables, h: Held, c: Channel, message: nat)
    requires h.channel == Some(c) && c in t.rooms && t.rooms[c].panel.None?
    ensures JoinNext(Standing(s, w, row, t, SendPanel(h)), w, row, SendPanel(h), Posted(message))
            == Some(Goto(Standing(s, w, row, t, SendPanel(h)), w, row, SavePanel(h, message)))
    ensures JoinNext(Standing(s, w, row, t, SavePanel(h, message)), w, row, SavePanel(h, message), Done)
            == Some(Goto(Standing(s, w, row, WithPanel(t, c, message), SavePanel(h, message)), w, row, Count(h)))
  {
  }

  lemma CountSteps(s: State, w: nat, row: Join, t: Tables, h: Held)
    requires h.id in t.intents && t.intents[h.id].phase == Moved && Current(t, row)
    ensures var t1 := Complete(t, h.id, s.clock);
            && JoinNext(Standing(s, w, row, t, Count(h)), w, row, Count(h), Done)
               == Some(Goto(Standing(s, w, row, t1, Count(h)), w, row, Finish))
            && JoinNext(Standing(s, w, row, t1, Finish), w, row, Finish, Done)
               == Some(Goto(Standing(s, w, row, Served(t, row, h.id, s.clock), Finish), w, row, End(None)))
  {
  }

  lemma ReachesCount(s: State, w: nat, row: Join, t: Tables, h: Held, c: Channel, message: nat, rest: seq<Action>)
    requires h.channel == Some(c) && c in t.rooms
    ensures After(Standing(s, w, row, t, Panel(h)), [JoinStep(w, Done)]
                  + ((if t.rooms[c].panel.Some? then [] else [JoinStep(w, Posted(message))] + ([JoinStep(w, Done)] + [])) + rest))
            == After(Standing(s, w, row, WithPanel(t, c, message), Count(h)), rest)
  {
    PanelSteps(s, w, row, t, h, c);
    if t.rooms[c].panel.None? {
      PostSteps(s, w, row, t, h, c, message);
    }
    hide JoinNext, After, Standing, Goto;
    if t.rooms[c].panel.Some? {
      assert [] + rest == rest;
      StepAndRest(s, w, row, t, Panel(h), Done, t, Count(h), rest);
    } else {
      var a2 := [JoinStep(w, Done)] + rest;
      assert ([JoinStep(w, Posted(message))] + ([JoinStep(w, Done)] + [])) + rest == [JoinStep(w, Posted(message))] + a2;
      StepAndRest(s, w, row, t, Panel(h), Done, t, SendPanel(h), [JoinStep(w, Posted(message))] + a2);
      StepAndRest(s, w, row, t, SendPanel(h), Posted(message), t, SavePanel(h, message), a2);
      StepAndRest(s, w, row, t, SavePanel(h, message), Done, WithPanel(t, c, message), Count(h), rest);
    }
  }

  lemma ReachesEnd(s: State, w: nat, row: Join, t: Tables, h: Held)
    requires h.id in t.intents && t.intents[h.id].phase == Moved && Current(t, row)
    ensures After(Standing(s, w, row, t, Count(h)), [JoinStep(w, Done)] + ([JoinStep(w, Done)] + ([JoinStep(w, Done)] + [])))
            == Some(Ended(s, w, row, Served(t, row, h.id, s.clock), None))
  {
    var t1, t2 := Complete(t, h.id, s.clock), Served(t, row, h.id, s.clock);
    CountSteps(s, w, row, t, h);
    hide JoinNext, After, Standing, Goto, Ended, Complete, Served;
    assert Dones(w, 1) == [JoinStep(w, Done)] + [];
    Ends(s, w, row, t2, None);
    StepAndRest(s, w, row, t1, Finish, Done, t2, End(None), [JoinStep(w, Done)] + []);
    StepAndRest(s, w, row, t, Count(h), Done, t1, Finish, [JoinStep(w, Done)] + ([JoinStep(w, Done)] + []));
  }

  lemma FinishesFromArrival(s: State, w: nat, row: Join, h: Held, c: Channel, message: nat)
    requires HeldOk(s.t.intents, row, h) && h.channel == Some(c) && c in s.t.rooms && Current(s.t, row)
    ensures var t := WithPanel(s.t, c, message);
            After(Standing(s, w, row, s.t, MarkMoved(h)), ToEnd(w, s.t.rooms[c].panel, message))
            == Some(Ended(s, w, row, Served(t, row, h.id, s.clock), None))
  {
    var t1 := Marked(s.t, h.id, Moved);
    var t2 := WithPanel(t1, c, message);
    var tail := [JoinStep(w, Done)] + ([JoinStep(w, Done)] + ([JoinStep(w, Done)] + []));
    var posts := if s.t.rooms[c].panel.Some? then [] else [JoinStep(w, Posted(message))] + ([JoinStep(w, Done)] + []);
    MovedMarks(s, w, row, s.t, h);
    assert Served(t2, row, h.id, s.clock) == Served(WithPanel(s.t, c, message), row, h.id, s.clock);
    hide JoinNext, After, Standing, Goto, Ended, HeldOk, Served;
    ReachesEnd(s, w, row, t2, h);
    ReachesCount(s, w, row, t1, h, c, message, tail);
    StepAndRest(s, w, row, s.t, MarkMoved(h), Done, t1, Panel(h), [JoinStep(w, Done)] + (posts + tail));
  }

  lemma ArrivedInside(s: State, w: nat, row: Join, h: Held, c: Channel)
    requires h.channel == Some(c) && InVoice(s, row.guild, row.user, c)
    ensures JoinNext(Standing(s, w, row, s.t, Arrive(h)), w, row, Arrive(h), Done)
            == Some(Goto(Standing(s, w, row, s.t, Arrive(h)), w, row, MarkMoved(h)))
  {
  }

  /** The member is in their room already, whatever was interrupted: a restart, a
      move whose reply was lost, a blocked panel. The run posts what is missing,
      counts the room once and ends; nothing is made and nobody is moved. */
  lemma JoinInOwnRoomIsFinished(s: State, w: nat, row: Join, i: IntentId, c: Channel, message: nat)
    requires Waiting(s, w, row, i) && s.t.intents[i].phase in {Created, Moved, PanelBlocked} && s.t.intents[i].channel == Some(c)
    requires c in s.t.rooms && InVoice(s, row.guild, row.user, c)
    ensures After(s, ToArrive(w, row, i, [JoinStep(w, Done)] + ToEnd(w, s.t.rooms[c].panel, message)))
            == Some(s.(t := Served(WithPanel(s.t, c, message), row, i, s.clock)))
  {
    var b, h := Claimed(s, row), Copy(s.t, i);
    ArrivedInside(b, w, row, h, c);
    EndedAgain(s, w, row, Served(WithPanel(s.t, c, message), row, i, s.clock));
    hide JoinNext, After, Standing, Goto, Ended, InVoice, OthersClosed, Served, WithPanel;
    ReachesArrive(s, w, row, i, [JoinStep(w, Done)] + ToEnd(w, s.t.rooms[c].panel, message));
    StepAndRest(b, w, row, s.t, Arrive(h), Done, s.t, MarkMoved(h), ToEnd(w, s.t.rooms[c].panel, message));
    FinishesFromArrival(b, w, row, h, c, message);
  }

  lemma EndedAgain(s: State, w: nat, row: Join, t: Tables)
    requires w !in s.runs && row.guild !in s.busy
    ensures Ended(Claimed(s, row), w, row, t, None) == s.(t := t)
  {
    assert s.runs - {w} == s.runs && (s.busy + {row.guild}) - {row.guild} == s.busy;
  }

  // ---- staff and restarts ------------------------------------------------------------------

  /** Staff resolve an intent only while it is in doubt and nothing runs in its
      guild, and claim the guild. */
  lemma StaffResolveOnlyDoubts(s: State, w: nat, i: IntentId, evidence: Option<Channel>)
    requires Next(s, StartStaff(w, i, evidence)).Some?
    ensures i in s.t.intents && s.t.intents[i].phase == Unresolved && s.t.intents[i].guild !in s.busy
    ensures var n, e := s.t.intents[i], Next(s, StartStaff(w, i, evidence)).value;
            e == s.(busy := s.busy + {n.guild}, runs := s.runs[w := StaffRun(i, n.guild, n.user, n.profile, evidence)])
  {
  }

  /** Staff name the room of an intent in doubt: it is tracked for the intent's
      owner and the intent has it. */
  lemma StaffRecoverTheRoom(s: State, w: nat, i: IntentId, g: Guild, u: User, profile: Profile, c: Channel)
    requires w in s.runs && s.runs[w] == StaffRun(i, g, u, profile, Some(c)) && i in s.t.intents
    requires Attach(s.t, i, g, u, profile, c).Some?
    ensures Next(s, StaffStep(w, Done))
            == Some(s.(runs := s.runs - {w}, busy := s.busy - {g}, tracked := s.tracked + {c},
                       t := s.t.(rooms := if c in s.t.rooms then s.t.rooms else s.t.rooms[c := Room(g, profile, u, None)],
                                 intents := s.t.intents[i := s.t.intents[i].(channel := Some(c), phase := Created)])))
  {
    hide OthersClosed, OwnerFree;
  }

  /** Staff find that nothing was made: the intent is closed, nothing else moves. */
  lemma StaffCloseTheIntent(s: State, w: nat, i: IntentId, g: Guild, u: User, profile: Profile)
    requires w in s.runs && s.runs[w] == StaffRun(i, g, u, profile, None) && i in s.t.intents
    ensures Next(s, StaffStep(w, Done))
            == Some(s.(runs := s.runs - {w}, busy := s.busy - {g},
                       t := s.t.(intents := s.t.intents[i := s.t.intents[i].(phase := Cancelled)])))
  {
    hide OthersClosed;
  }

  /** A restart keeps every row, but marks each sent intent as in doubt, and the
      process remembers exactly the tracked rooms. */
  lemma RestartMeans(s: State)
    requires !s.up
    ensures var e := Next(s, Restart);
            && e.Some? && e.value.up && e.value.busy == {} && e.value.runs == map[] && e.value.tracked == s.t.rooms.Keys
            && e.value.world == s.world && e.value.voice == s.voice && e.value.clock == s.clock
            && e.value.t == s.t.(intents := e.value.t.intents) && e.value.t.intents.Keys == s.t.intents.Keys
            && forall i | i in s.t.intents ::
                 e.value.t.intents[i] == if s.t.intents[i].phase == Sent then s.t.intents[i].(phase := Unresolved) else s.t.intents[i]
  {
  }
}
