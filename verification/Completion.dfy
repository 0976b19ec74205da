/** The protocol does what it is for: an undisturbed join ends with one tracked
    room, its owner inside, and one count; an undisturbed cleanup with none. */
module Completion {
  import opened Common
  import opened Tables
  import opened Protocol
  import opened ProtocolTheorems
  import opened StaleWrite

  /** Run w of this row at pc, over tables t; the rest is as in s. */
  function At(s: State, w: nat, row: Join, t: Tables, pc: JoinPc): State {
    s.(t := t, busy := s.busy + {row.guild}, runs := s.runs[w := JoinRun(row, pc)])
  }

  /** Nothing stands in the way of a first room for the row's owner. */
  ghost predicate Ready(s: State, w: nat, row: Join) {
    && s.up && w !in s.runs && row.guild !in s.busy
    && (row.guild, row.user) in s.t.joins && s.t.joins[(row.guild, row.user)] == row
    && InVoice(s, row.guild, row.user, row.lobby)
    && IdsMinted(s.t) && s.t.minted !in s.world.inflight
    && (forall i | i in s.t.intents && s.t.intents[i].guild == row.guild && s.t.intents[i].user == row.user ::
          !Open(s.t.intents[i].phase))
    && (forall c | c in s.t.rooms :: !(s.t.rooms[c].guild == row.guild && s.t.rooms[c].owner == row.user))
  }

  lemma StepsTo(s: State, w: nat, row: Join, t: Tables, pc: JoinPc, r: Reply, t': Tables, pc': JoinPc, rest: seq<Action>)
    requires JoinNext(At(s, w, row, t, pc), w, row, pc, r) == Some(Goto(At(s, w, row, t', pc), w, row, pc'))
    ensures After(At(s, w, row, t, pc), [JoinStep(w, r)] + rest) == After(At(s, w, row, t', pc'), rest)
  {
    hide JoinNext, After;
    assert s.runs[w := JoinRun(row, pc)][w := JoinRun(row, pc')] == s.runs[w := JoinRun(row, pc')];
    Runs(At(s, w, row, t, pc), JoinStep(w, r), At(s, w, row, t', pc'), rest);
  }

  /** The intent of the run, in its phases. */
  function IntentOf(s: State, row: Join, p: Phase, c: Option<Channel>): Intent {
    Intent(row.guild, row.user, row.lobby, row.profile, p, c, s.clock, None)
  }

  function WithIntent(s: State, row: Join, p: Phase, c: Option<Channel>): Tables {
    s.t.(intents := s.t.intents[s.t.minted := IntentOf(s, row, p, c)], minted := s.t.minted + 1,
         rooms := if c.Some? then s.t.rooms[c.value := Room(row.guild, row.profile, row.user, None)] else s.t.rooms)
  }

  function HeldOf(s: State, row: Join, p: Phase, c: Option<Channel>): Held {
    Held(s.t.minted, row.lobby, row.profile, p, c)
  }

  // ---- up to the transmission --------------------------------------------------

  lemma IntentRead(s: State, w: nat, row: Join)
    requires Ready(s, w, row)
    ensures var h := HeldOf(s, row, Prepared, None);
            var b := At(s, w, row, s.t, Start);
            JoinNext(b, w, row, Start, Inserted)
            == Some(Goto(At(s, w, row, WithIntent(s, row, Prepared, None), Start), w, row, Presence(h)))
  {
    assert !exists i :: OpenFor(s.t, i, row.guild, row.user);
    assert InsertIntent(s.t, row, s.clock) == WithIntent(s, row, Prepared, None);
  }

  lemma PresenceSeen(s: State, w: nat, row: Join)
    requires Ready(s, w, row)
    ensures var t, h := WithIntent(s, row, Prepared, None), HeldOf(s, row, Prepared, None);
            JoinNext(At(s, w, row, t, Presence(h)), w, row, Presence(h), Done)
            == Some(Goto(At(s, w, row, t, Presence(h)), w, row, Recheck(h, true)))
  {
    hide IdsMinted, WithIntent;
  }

  lemma StillCurrent(s: State, w: nat, row: Join)
    requires Ready(s, w, row)
    ensures var t, h := WithIntent(s, row, Prepared, None), HeldOf(s, row, Prepared, None);
            JoinNext(At(s, w, row, t, Recheck(h, true)), w, row, Recheck(h, true), Config(true))
            == Some(Goto(At(s, w, row, t, Recheck(h, true)), w, row, Preflight(h)))
  {
    hide IdsMinted, InVoice;
  }

  lemma PreflightPassed(s: State, w: nat, row: Join, t: Tables)
    ensures var h := HeldOf(s, row, Prepared, None);
            JoinNext(At(s, w, row, t, Preflight(h)), w, row, Preflight(h), Config(true))
            == Some(Goto(At(s, w, row, t, Preflight(h)), w, row, FindOther(h)))
  {
  }

  lemma NothingOwned(s: State, w: nat, row: Join)
    requires Ready(s, w, row)
    ensures var t, h := WithIntent(s, row, Prepared, None), HeldOf(s, row, Prepared, None);
            JoinNext(At(s, w, row, t, FindOther(h)), w, row, FindOther(h), Unowned)
            == Some(Goto(At(s, w, row, t, FindOther(h)), w, row, JoinPc.MarkSent(h)))
  {
    hide IdsMinted, InVoice;
  }

  lemma MarkIs(s: State, w: nat, row: Join, t: Tables, pc: JoinPc, h: Held, p: Phase, t': Tables, next: JoinPc)
    requires SetPhase(t, h.id, p) == Some(t')
    ensures Mark(At(s, w, row, t, pc), w, row, h, p, next) == Goto(At(s, w, row, t', pc), w, row, next)
  {
    hide SetPhase;
  }

  /** The owner's only open intent may take any phase. */
  lemma PhaseChanges(s: State, w: nat, row: Join, p: Phase, q: Phase, c: Option<Channel>)
    requires Ready(s, w, row)
    ensures SetPhase(WithIntent(s, row, p, c), s.t.minted, q) == Some(WithIntent(s, row, q, c))
  {
    var t := WithIntent(s, row, p, c);
    assert WithPhase(t.intents, s.t.minted, q) == WithIntent(s, row, q, c).intents;
    assert OthersClosed(t.intents, s.t.minted);
  }

  lemma MarksSent(s: State, w: nat, row: Join)
    requires Ready(s, w, row)
    ensures var t, h := WithIntent(s, row, Prepared, None), HeldOf(s, row, Prepared, None);
            JoinNext(At(s, w, row, t, JoinPc.MarkSent(h)), w, row, JoinPc.MarkSent(h), Done)
            == Some(Goto(At(s, w, row, WithIntent(s, row, Sent, None), JoinPc.MarkSent(h)), w, row, JoinPc.Create(h)))
  {
    hide SetPhase, WithIntent, Ready, Mark, Goto;
    var t, t', h := WithIntent(s, row, Prepared, None), WithIntent(s, row, Sent, None), HeldOf(s, row, Prepared, None);
    PhaseChanges(s, w, row, Prepared, Sent, None);
    MarkIs(s, w, row, t, JoinPc.MarkSent(h), h, Sent, t', JoinPc.Create(h));
  }

  function ToCreate(w: nat, row: Join, rest: seq<Action>): seq<Action> {
    [StartJoin(w, row)] + ([JoinStep(w, Inserted)] + ([JoinStep(w, Done)] + ([JoinStep(w, Config(true))]
    + ([JoinStep(w, Config(true))] + ([JoinStep(w, Unowned)] + ([JoinStep(w, Done)] + rest))))))
  }

  lemma JoinStarts(s: State, w: nat, row: Join)
    requires Ready(s, w, row)
    ensures Next(s, StartJoin(w, row)) == Some(At(s, w, row, s.t, Start))
  {
  }

  lemma ReachesCreate(s: State, w: nat, row: Join, rest: seq<Action>)
    requires Ready(s, w, row)
    ensures After(s, ToCreate(w, row, rest))
         == After(At(s, w, row, WithIntent(s, row, Sent, None), JoinPc.Create(HeldOf(s, row, Prepared, None))), rest)
  {
    IntentRead(s, w, row);
    PresenceSeen(s, w, row);
    StillCurrent(s, w, row);
    PreflightPassed(s, w, row, WithIntent(s, row, Prepared, None));
    NothingOwned(s, w, row);
    MarksSent(s, w, row);
    JoinStarts(s, w, row);
    hide JoinNext, After, Next, At, WithIntent, Ready;
    var t, h := WithIntent(s, row, Prepared, None), HeldOf(s, row, Prepared, None);
    var a7 := [JoinStep(w, Done)] + rest;
    var a6 := [JoinStep(w, Unowned)] + a7;
    var a5 := [JoinStep(w, Config(true))] + a6;
    var a4 := [JoinStep(w, Config(true))] + a5;
    var a3 := [JoinStep(w, Done)] + a4;
    StepsTo(s, w, row, t, JoinPc.MarkSent(h), Done, WithIntent(s, row, Sent, None), JoinPc.Create(h), rest);
    StepsTo(s, w, row, t, FindOther(h), Unowned, t, JoinPc.MarkSent(h), a7);
    StepsTo(s, w, row, t, Preflight(h), Config(true), t, FindOther(h), a6);
    StepsTo(s, w, row, t, Recheck(h, true), Config(true), t, Preflight(h), a5);
    StepsTo(s, w, row, t, Presence(h), Done, t, Recheck(h, true), a4);
    StepsTo(s, w, row, s.t, Start, Inserted, t, Presence(h), a3);
    Runs(s, StartJoin(w, row), At(s, w, row, s.t, Start), [JoinStep(w, Inserted)] + a3);
  }

  // ---- the create and the attach -------------------------------------------------

  /** Discord after the create: channel c exists, made by the row's intent. */
  function Created1(s: State, c: Channel): State {
    s.(world := World(s.world.made[c := s.t.minted], s.world.live + {c}, s.world.inflight))
  }

  /** And the bot after the attach. */
  function Attached1(s: State, c: Channel): State {
    Created1(s, c).(tracked := s.tracked + {c})
  }

  ghost predicate Possible(s: State, row: Join, c: Channel) {
    c !in s.world.made && c.guild == row.guild && c !in s.t.rooms && c != row.lobby
  }

  function ToArrive(s: State, w: nat, c: Channel, rest: seq<Action>): seq<Action> {
    [JoinStep(w, Transmit)] + ([Land(s.t.minted, c)] + ([JoinStep(w, Success(c))] + ([JoinStep(w, Done)] + rest)))
  }

  /** The create is on its way. */
  function Flying(s: State): State {
    s.(world := s.world.(inflight := s.world.inflight + {s.t.minted}))
  }

  lemma Transmits(s: State, w: nat, row: Join, h: Held)
    requires w in s.runs && s.runs[w] == JoinRun(row, JoinPc.Create(h)) && StillWaiting(s, row)
    ensures Next(s, JoinStep(w, Transmit))
            == Some(Goto(s.(world := s.world.(inflight := s.world.inflight + {h.id})), w, row, Await(h)))
  {
    hide StillWaiting;
  }

  lemma Transmitted(s: State, w: nat, row: Join)
    requires Ready(s, w, row)
    ensures var t, h := WithIntent(s, row, Sent, None), HeldOf(s, row, Prepared, None);
            Next(At(s, w, row, t, JoinPc.Create(h)), JoinStep(w, Transmit)) == Some(At(Flying(s), w, row, t, Await(h)))
  {
    var t, h := WithIntent(s, row, Sent, None), HeldOf(s, row, Prepared, None);
    var pc := JoinPc.Create(h);
    assert StillWaiting(At(s, w, row, t, pc), row);
    hide Ready, WithIntent, Next, StillWaiting;
    assert s.runs[w := JoinRun(row, pc)][w := JoinRun(row, Await(h))] == s.runs[w := JoinRun(row, Await(h))];
    Transmits(At(s, w, row, t, pc), w, row, h);
  }

  lemma Landed1(s: State, w: nat, row: Join, c: Channel)
    requires Ready(s, w, row) && Possible(s, row, c)
    ensures var t, h := WithIntent(s, row, Sent, None), HeldOf(s, row, Prepared, None);
            Next(At(Flying(s), w, row, t, Await(h)), Land(s.t.minted, c)) == Some(At(Created1(s, c), w, row, t, Await(h)))
  {
    hide IdsMinted;
    assert (s.world.inflight + {s.t.minted}) - {s.t.minted} == s.world.inflight;
  }

  lemma Answered(s: State, w: nat, row: Join, c: Channel)
    requires Ready(s, w, row) && Possible(s, row, c)
    ensures var t, h, s1 := WithIntent(s, row, Sent, None), HeldOf(s, row, Prepared, None), Created1(s, c);
            JoinNext(At(s1, w, row, t, Await(h)), w, row, Await(h), Success(c))
            == Some(Goto(At(s1, w, row, t, Await(h)), w, row, AttachRoom(h, c)))
  {
    hide Ready;
  }

  lemma AttachCommits(s: State, w: nat, row: Join, c: Channel)
    requires Ready(s, w, row) && Possible(s, row, c)
    ensures Attach(WithIntent(s, row, Sent, None), s.t.minted, row.guild, row.user, row.profile, c)
            == Some(WithIntent(s, row, Created, Some(c)))
  {
    var t := WithIntent(s, row, Sent, None);
    var t' := WithIntent(s, row, Created, Some(c));
    assert OthersClosed(t.intents, s.t.minted) && OwnerFree(t.rooms, c, row.guild, row.user);
    assert t'.intents == t.intents[s.t.minted := IntentOf(s, row, Created, Some(c))];
  }

  lemma AttachStepCommits(s: State, w: nat, row: Join, h: Held, c: Channel, t: Tables)
    requires Attach(s.t, h.id, row.guild, row.user, h.profile, c) == Some(t)
    requires w in s.runs && s.runs[w] == JoinRun(row, AttachRoom(h, c))
    ensures Next(s, JoinStep(w, Done)) == Some(Goto(s.(t := t, tracked := s.tracked + {c}), w, row,
                                                    Arrive(h.(channel := Some(c), phase := Created))))
  {
    hide Attach;
  }

  lemma AttachesRoom(s: State, w: nat, row: Join, c: Channel)
    requires Ready(s, w, row) && Possible(s, row, c)
    ensures var t, h := WithIntent(s, row, Sent, None), HeldOf(s, row, Prepared, None);
            Next(At(Created1(s, c), w, row, t, AttachRoom(h, c)), JoinStep(w, Done))
            == Some(At(Attached1(s, c), w, row, WithIntent(s, row, Created, Some(c)), Arrive(HeldOf(s, row, Created, Some(c)))))
  {
    AttachCommits(s, w, row, c);
    hide Ready, Attach, WithIntent, Next;
    var t, h := WithIntent(s, row, Sent, None), HeldOf(s, row, Prepared, None);
    var pc, pc' := AttachRoom(h, c), Arrive(HeldOf(s, row, Created, Some(c)));
    assert s.runs[w := JoinRun(row, pc)][w := JoinRun(row, pc')] == s.runs[w := JoinRun(row, pc')];
    AttachStepCommits(At(Created1(s, c), w, row, t, pc), w, row, h, c, WithIntent(s, row, Created, Some(c)));
  }

  lemma ReachesArrive(s: State, w: nat, row: Join, c: Channel, rest: seq<Action>)
    requires Ready(s, w, row) && Possible(s, row, c)
    ensures var creating := At(s, w, row, WithIntent(s, row, Sent, None), JoinPc.Create(HeldOf(s, row, Prepared, None)));
            var arrived := At(Attached1(s, c), w, row, WithIntent(s, row, Created, Some(c)),
                              Arrive(HeldOf(s, row, Created, Some(c))));
            After(creating, ToArrive(s, w, c, rest)) == After(arrived, rest)
  {
    Transmitted(s, w, row);
    Landed1(s, w, row, c);
    Answered(s, w, row, c);
    AttachesRoom(s, w, row, c);
    hide JoinNext, After, Next, At, WithIntent, Ready;
    var t, h, flying := WithIntent(s, row, Sent, None), HeldOf(s, row, Prepared, None), Flying(s);
    var end := At(Attached1(s, c), w, row, WithIntent(s, row, Created, Some(c)), Arrive(HeldOf(s, row, Created, Some(c))));
    Runs(At(Created1(s, c), w, row, t, AttachRoom(h, c)), JoinStep(w, Done), end, rest);
    StepsTo(Created1(s, c), w, row, t, Await(h), Success(c), t, AttachRoom(h, c), [JoinStep(w, Done)] + rest);
    Runs(At(flying, w, row, t, Await(h)), Land(s.t.minted, c), At(Created1(s, c), w, row, t, Await(h)),
         [JoinStep(w, Success(c))] + ([JoinStep(w, Done)] + rest));
    Runs(At(s, w, row, t, JoinPc.Create(h)), JoinStep(w, Transmit), At(flying, w, row, t, Await(h)),
         [Land(s.t.minted, c)] + ([JoinStep(w, Success(c))] + ([JoinStep(w, Done)] + rest)));
  }

  // ---- the move, the panel and the count -----------------------------------------

  /** The member in the room. */
  function Moved1(s: State, row: Join, c: Channel): State {
    Attached1(s, c).(voice := s.voice[(row.guild, row.user) := c])
  }

  function ToPanel(w: nat, row: Join, c: Channel, rest: seq<Action>): seq<Action> {
    [JoinStep(w, Done)] + ([JoinStep(w, Transmit)] + ([VoiceMove(row.guild, row.user, Some(c))]
    + ([JoinStep(w, Done)] + ([JoinStep(w, Done)] + rest))))
  }

  lemma Arrives(s: State, w: nat, row: Join, c: Channel)
    requires Ready(s, w, row) && Possible(s, row, c)
    ensures var t, h, s2 := WithIntent(s, row, Created, Some(c)), HeldOf(s, row, Created, Some(c)), Attached1(s, c);
            JoinNext(At(s2, w, row, t, Arrive(h)), w, row, Arrive(h), Done)
            == Some(Goto(At(s2, w, row, t, Arrive(h)), w, row, Moving(h)))
  {
    hide IdsMinted;
  }

  lemma MoveTransmits(s: State, w: nat, row: Join, t: Tables, h: Held)
    requires InVoice(s, row.guild, row.user, row.lobby)
    ensures Next(At(s, w, row, t, Moving(h)), JoinStep(w, Transmit)) == Some(At(s, w, row, t, Moving(h)))
  {
  }

  lemma MoveLands(s: State, w: nat, row: Join, c: Channel, t: Tables, h: Held)
    ensures Next(At(Attached1(s, c), w, row, t, Moving(h)), VoiceMove(row.guild, row.user, Some(c)))
            == Some(At(Moved1(s, row, c), w, row, t, Moving(h)))
  {
  }

  lemma MoveAnswered(s: State, w: nat, row: Join, c: Channel)
    ensures var t, h, s3 := WithIntent(s, row, Created, Some(c)), HeldOf(s, row, Created, Some(c)), Moved1(s, row, c);
            JoinNext(At(s3, w, row, t, Moving(h)), w, row, Moving(h), Done)
            == Some(Goto(At(s3, w, row, t, Moving(h)), w, row, MarkMoved(h)))
  {
    hide WithIntent;
  }

  lemma MarksMoved(s: State, w: nat, row: Join, c: Channel)
    requires Ready(s, w, row)
    ensures var t, t', h := WithIntent(s, row, Created, Some(c)), WithIntent(s, row, Moved, Some(c)), HeldOf(s, row, Created, Some(c));
            var s3 := Moved1(s, row, c);
            JoinNext(At(s3, w, row, t, MarkMoved(h)), w, row, MarkMoved(h), Done)
            == Some(Goto(At(s3, w, row, t', MarkMoved(h)), w, row, Panel(h)))
  {
    hide SetPhase, WithIntent, Ready, Mark, Goto;
    var t, t', h := WithIntent(s, row, Created, Some(c)), WithIntent(s, row, Moved, Some(c)), HeldOf(s, row, Created, Some(c));
    PhaseChanges(s, w, row, Created, Moved, Some(c));
    MarkIs(Moved1(s, row, c), w, row, t, MarkMoved(h), h, Moved, t', Panel(h));
  }

  lemma ReachesPanel(s: State, w: nat, row: Join, c: Channel, rest: seq<Action>)
    requires Ready(s, w, row) && Possible(s, row, c)
    ensures var h := HeldOf(s, row, Created, Some(c));
            var arrived := At(Attached1(s, c), w, row, WithIntent(s, row, Created, Some(c)), Arrive(h));
            var moved := At(Moved1(s, row, c), w, row, WithIntent(s, row, Moved, Some(c)), Panel(h));
            After(arrived, ToPanel(w, row, c, rest)) == After(moved, rest)
  {
    Arrives(s, w, row, c);
    var t0, h0 := WithIntent(s, row, Created, Some(c)), HeldOf(s, row, Created, Some(c));
    MoveTransmits(Attached1(s, c), w, row, t0, h0);
    MoveLands(s, w, row, c, t0, h0);
    MoveAnswered(s, w, row, c);
    MarksMoved(s, w, row, c);
    hide JoinNext, After, Next, At, WithIntent, Ready;
    var t, t', h := WithIntent(s, row, Created, Some(c)), WithIntent(s, row, Moved, Some(c)), HeldOf(s, row, Created, Some(c));
    var s2, s3 := Attached1(s, c), Moved1(s, row, c);
    var a5 := [JoinStep(w, Done)] + rest;
    var a4 := [JoinStep(w, Done)] + a5;
    StepsTo(s3, w, row, t, MarkMoved(h), Done, t', Panel(h), rest);
    StepsTo(s3, w, row, t, Moving(h), Done, t, MarkMoved(h), a5);
    Runs(At(s2, w, row, t, Moving(h)), VoiceMove(row.guild, row.user, Some(c)), At(s3, w, row, t, Moving(h)), a4);
    Runs(At(s2, w, row, t, Moving(h)), JoinStep(w, Transmit), At(s2, w, row, t, Moving(h)),
         [VoiceMove(row.guild, row.user, Some(c))] + a4);
    StepsTo(s2, w, row, t, Arrive(h), Done, t, Moving(h), [JoinStep(w, Transmit)] + ([VoiceMove(row.guild, row.user, Some(c))] + a4));
  }

  /** With the panel recorded, and then counted. */
  function Paneled(s: State, row: Join, c: Channel, message: nat): Tables {
    SetPanel(WithIntent(s, row, Moved, Some(c)), c, message)
  }

  function Counted(s: State, row: Join, c: Channel, message: nat): Tables {
    Complete(Paneled(s, row, c, message), s.t.minted, s.clock)
  }

  function Served(s: State, row: Join, c: Channel, message: nat): Tables {
    CancelJoin(Counted(s, row, c, message), row.guild, row.user, Some(row.revision))
  }

  function ToEnd(w: nat, message: nat): seq<Action> {
    [JoinStep(w, Done)] + ([JoinStep(w, Posted(message))] + ([JoinStep(w, Done)] + ([JoinStep(w, Done)]
    + ([JoinStep(w, Done)] + ([JoinStep(w, Done)] + [])))))
  }

  lemma PanelMissing(s: State, w: nat, row: Join, c: Channel)
    ensures var t, h, s3 := WithIntent(s, row, Moved, Some(c)), HeldOf(s, row, Created, Some(c)), Moved1(s, row, c);
            JoinNext(At(s3, w, row, t, Panel(h)), w, row, Panel(h), Done)
            == Some(Goto(At(s3, w, row, t, Panel(h)), w, row, SendPanel(h)))
  {
  }

  lemma PanelSent(s: State, w: nat, row: Join, t: Tables, h: Held, message: nat)
    ensures JoinNext(At(s, w, row, t, SendPanel(h)), w, row, SendPanel(h), Posted(message))
            == Some(Goto(At(s, w, row, t, SendPanel(h)), w, row, SavePanel(h, message)))
  {
  }

  lemma PanelSaved(s: State, w: nat, row: Join, t: Tables, h: Held, message: nat)
    requires h.channel.Some?
    ensures JoinNext(At(s, w, row, t, SavePanel(h, message)), w, row, SavePanel(h, message), Done)
            == Some(Goto(At(s, w, row, SetPanel(t, h.channel.value, message), SavePanel(h, message)), w, row, Count(h)))
  {
    hide SetPanel;
  }

  lemma CountSaved(s: State, w: nat, row: Join, t: Tables, h: Held)
    ensures JoinNext(At(s, w, row, t, Count(h)), w, row, Count(h), Done)
            == Some(Goto(At(s, w, row, Complete(t, h.id, s.clock), Count(h)), w, row, Finish))
  {
    hide Complete;
  }

  lemma RequestServed(s: State, w: nat, row: Join, t: Tables)
    ensures JoinNext(At(s, w, row, t, Finish), w, row, Finish, Done)
            == Some(Goto(At(s, w, row, CancelJoin(t, row.guild, row.user, Some(row.revision)), Finish), w, row, JoinPc.End(None)))
  {
    hide CancelJoin;
  }

  /** The guild is released; nothing of the run remains. */
  lemma RunEnds(s: State, w: nat, row: Join, t: Tables)
    requires w !in s.runs && row.guild !in s.busy
    ensures Next(At(s, w, row, t, JoinPc.End(None)), JoinStep(w, Done)) == Some(s.(t := t))
  {
    assert s.runs[w := JoinRun(row, JoinPc.End(None))] - {w} == s.runs;
    assert (s.busy + {row.guild}) - {row.guild} == s.busy;
  }

  lemma ReachesEnd(s: State, w: nat, row: Join, c: Channel, message: nat)
    requires Ready(s, w, row)
    ensures var h := HeldOf(s, row, Created, Some(c));
            After(At(Moved1(s, row, c), w, row, WithIntent(s, row, Moved, Some(c)), Panel(h)), ToEnd(w, message))
            == Some(Moved1(s, row, c).(t := Served(s, row, c, message)))
  {
    var t, h, s3 := WithIntent(s, row, Moved, Some(c)), HeldOf(s, row, Created, Some(c)), Moved1(s, row, c);
    var t1, t2, t3 := Paneled(s, row, c, message), Counted(s, row, c, message), Served(s, row, c, message);
    PanelMissing(s, w, row, c);
    PanelSent(s3, w, row, t, h, message);
    PanelSaved(s3, w, row, t, h, message);
    CountSaved(s3, w, row, t1, h);
    RequestServed(s3, w, row, t2);
    RunEnds(Moved1(s, row, c), w, row, Served(s, row, c, message));
    var end := Moved1(s, row, c).(t := Served(s, row, c, message));
    assert After(end, []) == Some(end);
    hide JoinNext, After, Next, At, WithIntent, Ready, SetPanel, Complete, CancelJoin;
    var a6 := [JoinStep(w, Done)] + [];
    var a5 := [JoinStep(w, Done)] + a6;
    var a4 := [JoinStep(w, Done)] + a5;
    var a3 := [JoinStep(w, Done)] + a4;
    Runs(At(s3, w, row, t3, JoinPc.End(None)), JoinStep(w, Done), end, []);
    StepsTo(s3, w, row, t2, Finish, Done, t3, JoinPc.End(None), a6);
    StepsTo(s3, w, row, t1, Count(h), Done, t2, Finish, a5);
    StepsTo(s3, w, row, t, SavePanel(h, message), Done, t1, Count(h), a4);
    StepsTo(s3, w, row, t, SendPanel(h), Posted(message), t, SavePanel(h, message), a3);
    StepsTo(s3, w, row, t, Panel(h), Done, t, SendPanel(h), [JoinStep(w, Posted(message))] + a3);
  }

  /** What an undisturbed join leaves in the tables. */
  lemma ServedMeans(s: State, w: nat, row: Join, c: Channel, message: nat)
    requires Ready(s, w, row) && Possible(s, row, c)
    ensures var t := Served(s, row, c, message);
            && t.joins == s.t.joins - {(row.guild, row.user)}
            && t.intents == s.t.intents[s.t.minted := Intent(row.guild, row.user, row.lobby, row.profile, Completed,
                                                             Some(c), s.clock, Some(s.clock))]
            && t.rooms == s.t.rooms[c := Room(row.guild, row.profile, row.user, Some(message))]
            && t.cleanups == s.t.cleanups && t.created == s.t.created + 1
  {
  }

  /** From any state in which nothing stands in the way, the worker's steps lead
      to: the request served, one more completed intent, its room tracked with
      its panel, the member inside, the counter up by one, the guild free. */
  lemma UndisturbedJoinCompletes(s: State, w: nat, row: Join, c: Channel, message: nat)
    requires Ready(s, w, row) && Possible(s, row, c)
    ensures var acts := ToCreate(w, row, ToArrive(s, w, c, ToPanel(w, row, c, ToEnd(w, message))));
            var e := After(s, acts);
            && e.Some?
            && e.value.t.joins == s.t.joins - {(row.guild, row.user)}
            && e.value.t.intents == s.t.intents[s.t.minted := Intent(row.guild, row.user, row.lobby, row.profile, Completed,
                                                                     Some(c), s.clock, Some(s.clock))]
            && e.value.t.rooms == s.t.rooms[c := Room(row.guild, row.profile, row.user, Some(message))]
            && e.value.t.created == s.t.created + 1
            && e.value.world.live == s.world.live + {c} && e.value.world.inflight == s.world.inflight
            && e.value.tracked == s.tracked + {c}
            && e.value.voice == s.voice[(row.guild, row.user) := c]
            && e.value.busy == s.busy && e.value.runs == s.runs
  {
    var acts := ToCreate(w, row, ToArrive(s, w, c, ToPanel(w, row, c, ToEnd(w, message))));
    assert After(s, acts) == Some(Moved1(s, row, c).(t := Served(s, row, c, message))) by {
      hide ToCreate, ToArrive, ToPanel, ToEnd, After, At, WithIntent, Ready, Served, Moved1, Attached1;
      ReachesCreate(s, w, row, ToArrive(s, w, c, ToPanel(w, row, c, ToEnd(w, message))));
      ReachesArrive(s, w, row, c, ToPanel(w, row, c, ToEnd(w, message)));
      ReachesPanel(s, w, row, c, ToEnd(w, message));
      ReachesEnd(s, w, row, c, message);
    }
    hide After, ToCreate;
    ServedMeans(s, w, row, c, message);
  }

  // ---- a cleanup -----------------------------------------------------------------

  function Cleaning(s: State, w: nat, key: CleanupKey, at: CleanPc): State {
    s.(busy := s.busy + {key.channel.guild}, runs := s.runs[w := CleanRun(key, at)])
  }

  lemma CleansTo(s: State, w: nat, key: CleanupKey, at: CleanPc, r: Reply, s': State, at': CleanPc, rest: seq<Action>)
    requires CleanNext(Cleaning(s, w, key, at), w, key, at, r) == Some(CleanTo(Cleaning(s', w, key, at), w, key, at'))
    requires s'.runs == s.runs && s'.busy == s.busy
    ensures After(Cleaning(s, w, key, at), [CleanStep(w, r)] + rest) == After(Cleaning(s', w, key, at'), rest)
  {
    hide CleanNext, After;
    assert s.runs[w := CleanRun(key, at)][w := CleanRun(key, at')] == s.runs[w := CleanRun(key, at')];
    Runs(Cleaning(s, w, key, at), CleanStep(w, r), Cleaning(s', w, key, at'), rest);
  }

  function Emptied(s: State, c: Channel): State {
    s.(world := s.world.(live := s.world.live - {c}))
  }

  function Untracked(s: State, c: Channel): State {
    Emptied(s, c).(t := DropRoom(s.t, c))
  }

  function Dropped(s: State, c: Channel): State {
    Untracked(s, c).(tracked := s.tracked - {c})
  }

  function Closed(s: State, c: Channel): State {
    Untracked(s, c).(t := Deleted(DropRoom(s.t, c), c), tracked := s.tracked - {c})
  }

  /** From the second lookup to the end: the reconcile pass removes the room. */
  function Sweeping(w: nat): seq<Action> {
    [CleanStep(w, Done)] + ([CleanStep(w, Vacant)] + ([CleanStep(w, Done)] + ([CleanStep(w, Done)]
    + ([CleanStep(w, Done)] + ([CleanStep(w, Done)] + [])))))
  }

  /** From the visit to the end: the departure's own pass removes the room. */
  function Visiting(w: nat): seq<Action> {
    [CleanStep(w, Vacant)] + ([CleanStep(w, Done)] + ([CleanStep(w, Done)] + ([CleanStep(w, Done)]
    + ([CleanStep(w, Done)] + ([CleanStep(w, Done)] + [])))))
  }

  function CleanupRun(s: State, w: nat, key: CleanupKey): seq<Action> {
    [StartClean(w, key)] + ([CleanStep(w, Done)] + ([CleanStep(w, Done)] +
    (if key.leaver.None? then Sweeping(w)
     else if key.channel in s.tracked then Visiting(w)
     else [CleanStep(w, Vacant)] + Sweeping(w))))
  }

  lemma CleanupSteps(s: State, w: nat, key: CleanupKey)
    requires key.channel in s.t.rooms && !Protects(s.t, key.channel) && Vacated(s, key.channel)
    ensures var c := key.channel;
            && CleanNext(Cleaning(s, w, key, Lookup), w, key, Lookup, Done)
               == Some(CleanTo(Cleaning(s, w, key, Lookup), w, key, Guard))
            && CleanNext(Cleaning(s, w, key, Guard), w, key, Guard, Done)
               == Some(CleanTo(Cleaning(s, w, key, Guard), w, key, if key.leaver.Some? then Visit else Second))
            && CleanNext(Cleaning(s, w, key, Visit), w, key, Visit, Vacant)
               == Some(CleanTo(Cleaning(s, w, key, Visit), w, key, if c in s.tracked then Delete(true) else Second))
            && CleanNext(Cleaning(s, w, key, Second), w, key, Second, Done)
               == Some(CleanTo(Cleaning(s, w, key, Second), w, key, Reconcile))
            && CleanNext(Cleaning(s, w, key, Reconcile), w, key, Reconcile, Vacant)
               == Some(CleanTo(Cleaning(s, w, key, Reconcile), w, key, Delete(false)))
  {
  }

  /** The departure's pass deletes and forgets the room before the second lookup. */
  lemma VisitSteps(s: State, w: nat, key: CleanupKey)
    ensures var c := key.channel;
            && CleanNext(Cleaning(s, w, key, Delete(true)), w, key, Delete(true), Done)
               == Some(CleanTo(Cleaning(Emptied(s, c), w, key, Delete(true)), w, key, Drop(true)))
            && CleanNext(Cleaning(Emptied(s, c), w, key, Drop(true)), w, key, Drop(true), Done)
               == Some(CleanTo(Cleaning(Dropped(s, c), w, key, Drop(true)), w, key, Second))
            && CleanNext(Cleaning(Dropped(s, c), w, key, Second), w, key, Second, Done)
               == Some(CleanTo(Cleaning(Dropped(s, c), w, key, Second), w, key, Forget(false)))
            && CleanNext(Cleaning(Dropped(s, c), w, key, Forget(false)), w, key, Forget(false), Done)
               == Some(CleanTo(Cleaning(Closed(s, c), w, key, Forget(false)), w, key, Record(None)))
  {
  }

  lemma DeletionSteps(s: State, w: nat, key: CleanupKey)
    ensures var c := key.channel;
            && CleanNext(Cleaning(s, w, key, Delete(false)), w, key, Delete(false), Done)
               == Some(CleanTo(Cleaning(Emptied(s, c), w, key, Delete(false)), w, key, Drop(false)))
            && CleanNext(Cleaning(Emptied(s, c), w, key, Drop(false)), w, key, Drop(false), Done)
               == Some(CleanTo(Cleaning(Untracked(s, c), w, key, Drop(false)), w, key, Forget(true)))
            && CleanNext(Cleaning(Untracked(s, c), w, key, Forget(true)), w, key, Forget(true), Done)
               == Some(CleanTo(Cleaning(Closed(s, c), w, key, Forget(true)), w, key, Record(None)))
  {
  }

  /** The guild is released and the request is gone. */
  lemma CleanupEnds(s: State, w: nat, key: CleanupKey)
    requires w !in s.runs && key.channel.guild !in s.busy
    ensures Next(Cleaning(s, w, key, Record(None)), CleanStep(w, Done)) == Some(s.(t := CleanupResult(s.t, key, None, s.clock)))
  {
    assert s.runs[w := CleanRun(key, Record(None))] - {w} == s.runs;
    assert (s.busy + {key.channel.guild}) - {key.channel.guild} == s.busy;
  }

  function Finished(s: State, key: CleanupKey): State {
    var closed := Closed(s, key.channel);
    closed.(t := CleanupResult(closed.t, key, None, s.clock))
  }

  lemma CleanStarts(s: State, w: nat, key: CleanupKey)
    requires s.up && w !in s.runs && key.channel.guild !in s.busy
    ensures Next(s, StartClean(w, key)) == Some(Cleaning(s, w, key, Lookup))
  {
  }

  /** The request is done with; only its record and its claim remain. */
  lemma CleanupCloses(s: State, w: nat, key: CleanupKey)
    requires w !in s.runs && key.channel.guild !in s.busy
    ensures After(Cleaning(Closed(s, key.channel), w, key, Record(None)), [CleanStep(w, Done)] + []) == Some(Finished(s, key))
  {
    var c := key.channel;
    SameRuns(s, c);
    CleanupEnds(Closed(s, c), w, key);
    assert After(Finished(s, key), []) == Some(Finished(s, key));
    hide CleanNext, After, Next, Cleaning, Closed, CleanupResult;
    Runs(Cleaning(Closed(s, c), w, key, Record(None)), CleanStep(w, Done), Finished(s, key), []);
  }

  lemma SweepReaches(s: State, w: nat, key: CleanupKey)
    requires w !in s.runs && key.channel.guild !in s.busy
    requires key.channel in s.t.rooms && !Protects(s.t, key.channel) && Vacated(s, key.channel)
    ensures After(Cleaning(s, w, key, Second), Sweeping(w)) == Some(Finished(s, key))
  {
    var c := key.channel;
    CleanupSteps(s, w, key);
    DeletionSteps(s, w, key);
    SameRuns(s, c);
    CleanupCloses(s, w, key);
    hide CleanNext, After, Cleaning, Emptied, Untracked, Closed, Protects, Vacated;
    var a8 := [CleanStep(w, Done)] + [];
    var a7 := [CleanStep(w, Done)] + a8;
    var a6 := [CleanStep(w, Done)] + a7;
    var a5 := [CleanStep(w, Done)] + a6;
    CleansTo(Untracked(s, c), w, key, Forget(true), Done, Closed(s, c), Record(None), a8);
    CleansTo(Emptied(s, c), w, key, Drop(false), Done, Untracked(s, c), Forget(true), a7);
    CleansTo(s, w, key, Delete(false), Done, Emptied(s, c), Drop(false), a6);
    CleansTo(s, w, key, Reconcile, Vacant, s, Delete(false), a5);
    CleansTo(s, w, key, Second, Done, s, Reconcile, [CleanStep(w, Vacant)] + a5);
  }

  lemma VisitReaches(s: State, w: nat, key: CleanupKey)
    requires w !in s.runs && key.channel.guild !in s.busy && key.channel in s.tracked
    requires key.channel in s.t.rooms && !Protects(s.t, key.channel) && Vacated(s, key.channel)
    ensures After(Cleaning(s, w, key, Visit), Visiting(w)) == Some(Finished(s, key))
  {
    var c := key.channel;
    CleanupSteps(s, w, key);
    VisitSteps(s, w, key);
    SameRuns(s, c);
    CleanupCloses(s, w, key);
    hide CleanNext, After, Cleaning, Emptied, Dropped, Closed, Protects, Vacated;
    var a8 := [CleanStep(w, Done)] + [];
    var a7 := [CleanStep(w, Done)] + a8;
    var a6 := [CleanStep(w, Done)] + a7;
    var a5 := [CleanStep(w, Done)] + a6;
    CleansTo(Dropped(s, c), w, key, Forget(false), Done, Closed(s, c), Record(None), a8);
    CleansTo(Dropped(s, c), w, key, Second, Done, Dropped(s, c), Forget(false), a7);
    CleansTo(Emptied(s, c), w, key, Drop(true), Done, Dropped(s, c), Second, a6);
    CleansTo(s, w, key, Delete(true), Done, Emptied(s, c), Drop(true), a5);
    CleansTo(s, w, key, Visit, Vacant, s, Delete(true), [CleanStep(w, Done)] + a5);
  }

  /** Whatever queued the cleanup, and whether or not the room is remembered. */
  lemma CleanupReaches(s: State, w: nat, key: CleanupKey)
    requires s.up && w !in s.runs && key.channel.guild !in s.busy
    requires key.channel in s.t.rooms && !Protects(s.t, key.channel) && Vacated(s, key.channel)
    ensures After(s, CleanupRun(s, w, key)) == Some(Finished(s, key))
  {
    var at := if key.leaver.Some? then Visit else Second;
    var rest := if key.leaver.None? then Sweeping(w)
                else if key.channel in s.tracked then Visiting(w)
                else [CleanStep(w, Vacant)] + Sweeping(w);
    CleanupSteps(s, w, key);
    CleanStarts(s, w, key);
    hide CleanNext, After, Next, Cleaning, Protects, Vacated, Finished, Sweeping, Visiting;
    if key.leaver.Some? && key.channel in s.tracked {
      VisitReaches(s, w, key);
    } else {
      SweepReaches(s, w, key);
    }
    if key.leaver.Some? && key.channel !in s.tracked {
      CleansTo(s, w, key, Visit, Vacant, s, Second, Sweeping(w));
    }
    CleansTo(s, w, key, Guard, Done, s, at, rest);
    CleansTo(s, w, key, Lookup, Done, s, Guard, [CleanStep(w, Done)] + rest);
    Runs(s, StartClean(w, key), Cleaning(s, w, key, Lookup), [CleanStep(w, Done)] + ([CleanStep(w, Done)] + rest));
  }

  /** A cleanup, queued by a departure or by a sweep, that finds the room empty
      and is refused nothing, removes the room, its record and the request,
      closes the room's intents and frees the guild. */
  lemma UndisturbedCleanupRemoves(s: State, w: nat, key: CleanupKey)
    requires s.up && w !in s.runs && key.channel.guild !in s.busy
    requires key.channel in s.t.rooms && key in s.t.cleanups && !Protects(s.t, key.channel) && Vacated(s, key.channel)
    ensures var e := After(s, CleanupRun(s, w, key));
            var c := key.channel;
            && e.Some?
            && e.value.world.live == s.world.live - {c} && e.value.tracked == s.tracked - {c}
            && e.value.t.rooms == s.t.rooms - {c} && e.value.t.cleanups == s.t.cleanups - {key}
            && (forall i | i in s.t.intents && s.t.intents[i].channel == Some(c) ::
                  i in e.value.t.intents && !Open(e.value.t.intents[i].phase))
            && e.value.t.joins == s.t.joins && e.value.t.created == s.t.created
            && e.value.runs == s.runs && e.value.busy == s.busy
  {
    hide After, CleanupRun, Protects, Vacated;
    CleanupReaches(s, w, key);
  }

  lemma SameRuns(s: State, c: Channel)
    ensures Emptied(s, c).runs == s.runs && Emptied(s, c).busy == s.busy
    ensures Dropped(s, c).runs == s.runs && Dropped(s, c).busy == s.busy
    ensures Untracked(s, c).runs == s.runs && Untracked(s, c).busy == s.busy
    ensures Closed(s, c).runs == s.runs && Closed(s, c).busy == s.busy && Closed(s, c).clock == s.clock
  {
  }
}
