/** A run in which a departure handler reads an intent while it is prepared and
    writes its cancellation after the worker has marked it sent. */
module StaleWrite {
  import opened Common
  import opened Tables
  import opened Protocol
  import opened Tracking
  import opened ProtocolTheorems

  const LOBBY := Channel(0, 7)
  const ROOM := Channel(0, 8)
  const BOOT := State(EMPTY, World(map[], {}, {}), map[], 0.0, false, {}, {}, {}, map[])
  const ROW := Join(0, 5, LOBBY, 1, 0, 0.0, 0.0)

  function SentState(): State {
    var n := Intent(0, 5, LOBBY, 1, Sent, None, 0.0, None);
    State(Tables(map[(0, 5) := ROW], map[1 := n], map[], map[], 0, 2), World(map[], {}, {}),
          map[(0, 5) := LOBBY], 0.0, true, {0}, {}, {},
          map[0 := JoinRun(ROW, Create(Held(1, LOBBY, 1, Prepared, None)))])
  }

  lemma {:induction false} Runs(s: State, a: Action, s': State, rest: seq<Action>)
    requires Next(s, a) == Some(s')
    ensures After(s, [a] + rest) == After(s', rest)
  {
    assert ([a] + rest)[1..] == rest;
  }

  function Working(pc: JoinPc): State {
    SentState().(t := SentState().t.(intents := map[1 := SentState().t.intents[1].(phase := Prepared)]),
                 runs := map[0 := JoinRun(ROW, pc)])
  }

  function Queued(): State {
    BOOT.(up := true, t := EMPTY.(joins := map[(0, 5) := ROW], minted := 1), voice := map[(0, 5) := LOBBY])
  }

  const HELD := Held(1, LOBBY, 1, Prepared, None)

  function Boots(rest: seq<Action>): seq<Action> {
    [Restart] + ([JoinLobby(0, 5, LOBBY, 1)] + ([VoiceMove(0, 5, Some(LOBBY))] + rest))
  }

  function Inserts(rest: seq<Action>): seq<Action> {
    [StartJoin(0, ROW)] + ([JoinStep(0, Inserted)] + ([JoinStep(0, Done)] + rest))
  }

  function Checks(rest: seq<Action>): seq<Action> {
    [JoinStep(0, Config(true))] + ([JoinStep(0, Config(true))] + ([JoinStep(0, Unowned)] + ([JoinStep(0, Done)] + rest)))
  }

  function Races(rest: seq<Action>): seq<Action> {
    [CancelIntent(1, Prepared)] + ([JoinStep(0, Transmit)] + ([Land(1, ROOM)] + rest))
  }

  function Reboots(): seq<Action> {
    [Crash] + ([Restart] + [])
  }

  lemma QueuedReached(rest: seq<Action>)
    ensures After(BOOT, Boots(rest)) == After(Queued(), rest)
  {
    var s1 := BOOT.(up := true);
    assert Restore(EMPTY).intents == map[] && EMPTY.rooms.Keys == {};
    assert Next(BOOT, Restart) == Some(s1);
    assert GuildQueue(EMPTY.joins, 0) == {};
    var s2 := s1.(t := EMPTY.(joins := map[(0, 5) := ROW], minted := 1));
    assert Next(s1, JoinLobby(0, 5, LOBBY, 1)) == Some(s2);
    Runs(s2, VoiceMove(0, 5, Some(LOBBY)), Queued(), rest);
    Runs(s1, JoinLobby(0, 5, LOBBY, 1), s2, [VoiceMove(0, 5, Some(LOBBY))] + rest);
    Runs(BOOT, Restart, s1, [JoinLobby(0, 5, LOBBY, 1)] + ([VoiceMove(0, 5, Some(LOBBY))] + rest));
  }

  lemma GoesOn(pc: JoinPc, r: Reply, next: JoinPc, rest: seq<Action>)
    requires JoinNext(Working(pc), 0, ROW, pc, r) == Some(Goto(Working(pc), 0, ROW, next))
    ensures After(Working(pc), [JoinStep(0, r)] + rest) == After(Working(next), rest)
  {
    hide JoinNext, After;
    assert Working(pc).runs[0 := JoinRun(ROW, next)] == Working(next).runs;
    Runs(Working(pc), JoinStep(0, r), Working(next), rest);
  }

  lemma IntentInserted()
    ensures JoinNext(Queued().(busy := {0}, runs := map[0 := JoinRun(ROW, Start)]), 0, ROW, Start, Inserted)
            == Some(Working(Presence(HELD)))
  {
    var s1 := Queued().(busy := {0}, runs := map[0 := JoinRun(ROW, Start)]);
    assert !exists i :: OpenFor(s1.t, i, 0, 5);
    var t := InsertIntent(s1.t, ROW, 0.0);
    assert t.intents == Working(Start).t.intents;
    assert s1.runs[0 := JoinRun(ROW, Presence(HELD))] == Working(Presence(HELD)).runs;
  }

  lemma CheckedReached(rest: seq<Action>)
    ensures After(Queued(), Inserts(rest)) == After(Working(Recheck(HELD, true)), rest)
  {
    hide JoinNext, After;
    var s1 := Queued().(busy := {0}, runs := map[0 := JoinRun(ROW, Start)]);
    IntentInserted();
    PresenceSeen();
    GoesOn(Presence(HELD), Done, Recheck(HELD, true), rest);
    Runs(s1, JoinStep(0, Inserted), Working(Presence(HELD)), [JoinStep(0, Done)] + rest);
    assert Queued().busy + {0} == {0} && Queued().runs[0 := JoinRun(ROW, Start)] == s1.runs;
    Runs(Queued(), StartJoin(0, ROW), s1, [JoinStep(0, Inserted)] + ([JoinStep(0, Done)] + rest));
  }

  lemma PresenceSeen()
    ensures JoinNext(Working(Presence(HELD)), 0, ROW, Presence(HELD), Done)
            == Some(Goto(Working(Presence(HELD)), 0, ROW, Recheck(HELD, true)))
  {
  }

  lemma RecheckPasses()
    ensures var s := Working(Recheck(HELD, true));
            JoinNext(s, 0, ROW, Recheck(HELD, true), Config(true)) == Some(Goto(s, 0, ROW, Preflight(HELD)))
  {
  }

  lemma PreflightPasses()
    ensures var s := Working(Preflight(HELD));
            JoinNext(s, 0, ROW, Preflight(HELD), Config(true)) == Some(Goto(s, 0, ROW, FindOther(HELD)))
  {
  }

  lemma NothingOwned()
    ensures var s := Working(FindOther(HELD));
            JoinNext(s, 0, ROW, FindOther(HELD), Unowned) == Some(Goto(s, 0, ROW, MarkSent(HELD)))
  {
  }

  lemma SentMarked()
    ensures Next(Working(MarkSent(HELD)), JoinStep(0, Done)) == Some(SentState())
  {
    hide Next;
    var s := Working(MarkSent(HELD));
    assert WithPhase(s.t.intents, 1, Sent) == SentState().t.intents;
    assert s.runs[0 := JoinRun(ROW, Create(HELD))] == SentState().runs;
    MarkSteps(s);
  }

  lemma MarkSteps(s: State)
    requires 0 in s.runs && s.runs[0] == JoinRun(ROW, MarkSent(HELD))
    ensures Next(s, JoinStep(0, Done)) == Some(Mark(s, 0, ROW, HELD, Sent, Create(HELD)))
  {
    hide Mark;
  }

  lemma SentReached(rest: seq<Action>)
    ensures After(Working(Recheck(HELD, true)), Checks(rest)) == After(SentState(), rest)
  {
    hide JoinNext, After, Next, Goto, Working, SentState;
    RecheckPasses();
    PreflightPasses();
    NothingOwned();
    SentMarked();
    Runs(Working(MarkSent(HELD)), JoinStep(0, Done), SentState(), rest);
    GoesOn(FindOther(HELD), Unowned, MarkSent(HELD), [JoinStep(0, Done)] + rest);
    GoesOn(Preflight(HELD), Config(true), FindOther(HELD), [JoinStep(0, Unowned)] + ([JoinStep(0, Done)] + rest));
    GoesOn(Recheck(HELD, true), Config(true), Preflight(HELD),
           [JoinStep(0, Config(true))] + ([JoinStep(0, Unowned)] + ([JoinStep(0, Done)] + rest)));
  }

  function Landed(): State {
    var s := SentState();
    s.(t := s.t.(intents := map[1 := s.t.intents[1].(phase := Cancelled)]),
       world := World(map[ROOM := 1], {ROOM}, {}), runs := map[0 := JoinRun(ROW, Await(HELD))])
  }

  function Overwritten(): State {
    SentState().(t := Landed().t)
  }

  function Flying(): State {
    Landed().(world := World(map[], {}, {1}))
  }

  lemma HandlerWrites()
    ensures Next(SentState(), CancelIntent(1, Prepared)) == Some(Overwritten())
  {
    assert WithPhase(SentState().t.intents, 1, Cancelled) == Overwritten().t.intents;
  }

  lemma WorkerTransmits()
    ensures Next(Overwritten(), JoinStep(0, Transmit)) == Some(Flying())
  {
    var s := Overwritten();
    assert s.world.inflight + {1} == {1} && s.runs[0 := JoinRun(ROW, Await(HELD))] == Flying().runs;
    assert JoinNext(s, 0, ROW, Create(HELD), Transmit) == Some(Flying());
  }

  lemma ChannelLands()
    ensures Next(Flying(), Land(1, ROOM)) == Some(Landed())
  {
    var s := Flying();
    assert s.world.made[ROOM := 1] == map[ROOM := 1] && s.world.live + {ROOM} == {ROOM} && s.world.inflight - {1} == {};
  }

  lemma LandedReached(rest: seq<Action>)
    ensures After(SentState(), Races(rest)) == After(Landed(), rest)
  {
    hide After, Next, Overwritten, Flying, SentState, Landed;
    HandlerWrites();
    WorkerTransmits();
    ChannelLands();
    Runs(Flying(), Land(1, ROOM), Landed(), rest);
    Runs(Overwritten(), JoinStep(0, Transmit), Flying(), [Land(1, ROOM)] + rest);
    Runs(SentState(), CancelIntent(1, Prepared), Overwritten(), [JoinStep(0, Transmit)] + ([Land(1, ROOM)] + rest));
  }

  /** The room is forgotten, and stays forgotten over the restart. */
  lemma RebootForgets()
    ensures After(Landed(), Reboots()).Some? && Forgotten(Final(Landed(), Reboots()), ROOM)
  {
    var s4 := Stopped(Landed());
    var s5 := Booted(s4);
    Runs(s4, Restart, s5, []);
    Runs(Landed(), Crash, s4, [Restart] + []);
  }

  /** Without the guard on stale writes the promise fails: a departure handler
      reads the intent while it is prepared and cancels it once it is sent. */
  lemma StaleWriteForgetsARoom()
    ensures Init(BOOT) && After(BOOT, Boots(Inserts(Checks(Races(Reboots()))))).Some?
    ensures Forgotten(Final(BOOT, Boots(Inserts(Checks(Races(Reboots()))))), ROOM)
  {
    hide Boots, Inserts, Checks, Races, Reboots, Forgotten;
    QueuedReached(Inserts(Checks(Races(Reboots()))));
    CheckedReached(Checks(Races(Reboots())));
    SentReached(Races(Reboots()));
    LandedReached(Reboots());
    RebootForgets();
  }
}
