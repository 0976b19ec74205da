/** How a create, a cleanup and a reconcile row of the older path end when
    nothing comes in between, and that nobody loses the room they are in. */
module LegacyOutcomes {
  import opened Common
  import opened LegacyRooms
  import opened LegacyPromises
  import opened LegacyLosses

  ghost predicate NobodyIn(s: State, c: Channel) {
    forall g, u | (g, u) in s.voice :: s.voice[(g, u)] != c
  }

  lemma VacatedMeans(s: State, c: Channel)
    ensures Vacated(s, c) <==> NobodyIn(s, c)
  {
    if NobodyIn(s, c) {
      forall o | o in s.voice.Keys ensures s.voice[o] != c {
        assert (o.0, o.1) in s.voice;
      }
    }
  }

  /** A create is about to delete its owner's old room c, or a sweep is about to
      delete room c. */
  predicate CreateDeletes(s: State, o: Owner, c: Channel) {
    o in s.creates && s.creates[o] == DeleteOld(c)
  }

  predicate SweepDeletes(s: State, w: nat, c: Channel) {
    w in s.sweeps && s.sweeps[w] == Deleting(c)
  }

  lemma LookDecidesEmpty(s: State, o: Owner, pc: Pc, r: Reply, c: Channel)
    requires Looks(pc) && LookNext(s, o, pc, r).Some? && o in s.creates && s.creates[o] == pc
    requires CreateDeletes(LookNext(s, o, pc, r).value, o, c) && pc != DeleteOld(c)
    ensures pc == Fetch(c) && NobodyIn(s, c)
  {
    VacatedMeans(s, c);
    hide Vacated, NobodyIn;
  }

  lemma MakeDeletesNothingOld(s: State, o: Owner, pc: Pc, r: Reply, c: Channel)
    requires !Looks(pc) && MakeNext(s, o, pc, r).Some?
    ensures !CreateDeletes(MakeNext(s, o, pc, r).value, o, c)
  {
    hide Insert;
  }

  /** Both come there only by looking into the room and finding nobody. */
  lemma OldRoomsAreDeletedEmpty(s: State, a: Action, o: Owner, w: nat, c: Channel)
    requires Next(s, a).Some?
    ensures CreateDeletes(Next(s, a).value, o, c) && !CreateDeletes(s, o, c) ==> a.Create? && a.o == o && NobodyIn(s, c)
    ensures SweepDeletes(Next(s, a).value, w, c) && !SweepDeletes(s, w, c) ==> a == SweepStep(w, Empty) && NobodyIn(s, c)
  {
    VacatedMeans(s, c);
    if a.Create? {
      CreateIsOwn(s, a.o, a.r);
      CreateKeepsSweeps(s, a.o, a.r);
      hide LookNext, MakeNext, Vacated, NobodyIn, OwnStep;
      if Looks(s.creates[a.o]) {
        if CreateDeletes(Next(s, a).value, a.o, c) && !CreateDeletes(s, a.o, c) {
          LookDecidesEmpty(s, a.o, s.creates[a.o], a.r, c);
        }
      } else {
        MakeDeletesNothingOld(s, a.o, s.creates[a.o], a.r, c);
      }
      if a.o != o {
        OtherCreatesStay(s, a.o, o, a.r);
      }
    } else {
      hide LookNext, MakeNext, Vacated, NobodyIn;
    }
  }

  lemma OtherCreatesStay(s: State, o: Owner, p: Owner, r: Reply)
    requires o in s.creates && o != p && Next(s, Create(o, r)).Some?
    ensures var s' := Next(s, Create(o, r)).value;
            (p in s'.creates <==> p in s.creates) && (p in s.creates ==> s'.creates[p] == s.creates[p])
  {
    CreateIsOwn(s, o, r);
    hide Next;
  }

  lemma CreateKeepsSweeps(s: State, o: Owner, r: Reply)
    requires o in s.creates && Next(s, Create(o, r)).Some?
    ensures Next(s, Create(o, r)).value.sweeps == s.sweeps && Next(s, Create(o, r)).value.voice == s.voice
  {
    hide Insert, Vacated, HasRow;
  }

  /** What may end a room: Discord itself, a create that deletes its owner's old
      room or takes back its own new one, or a sweep. */
  lemma RoomsEndOnlyBy(s: State, a: Action, c: Channel)
    requires Next(s, a).Some? && c in s.live && c !in Next(s, a).value.live
    ensures || a == Vanish(c)
            || (a.Create? && a.r == Ok && a.o in s.creates
                && (s.creates[a.o] == DeleteOld(c) || s.creates[a.o] == Rollback(c) || s.creates[a.o] == RollbackMove(c)))
            || (a.SweepStep? && a.r == Ok && SweepDeletes(s, a.w, c))
  {
    hide Insert, Vacated, HasRow;
  }

  // ---- endings --------------------------------------------------------------------

  /** The owner has a room with somebody inside: nothing is made, deleted or
      recorded. */
  lemma OccupiedRoomBlocksTheCreate(s: State, o: Owner, c: Channel)
    requires Unique(s) && o !in s.creates && c in s.rows && s.rows[c] == o && !NobodyIn(s, c)
    ensures After(s, [Lobby(o)] + ([Create(o, Ok)] + ([Create(o, Full)] + []))) == Some(s)
  {
    VacatedMeans(s, c);
    var s1, s2 := GoTo(s, o, Resolve), GoTo(s, o, Fetch(c));
    assert HasRow(s1.rows, o) && GoTo(s1, o, Fetch(c)) == s2 && Leave(s2, o) == s;
    assert Vacated(s2, c) == Vacated(s, c);
    assert Next(s1, Create(o, Ok)) == Some(s2) && Next(s2, Create(o, Full)) == Some(s);
    assert After(s, []) == Some(s);
    hide CreateNext, Vacated, NobodyIn, Unique;
    Steps(s2, Create(o, Full), s, []);
    Steps(s1, Create(o, Ok), s2, [Create(o, Full)] + []);
    Steps(s, Lobby(o), s1, [Create(o, Ok)] + ([Create(o, Full)] + []));
  }

  /** A sweep or a reconcile row that finds somebody inside leaves the room. */
  lemma OccupiedRoomSurvivesTheSweep(s: State, w: nat, c: Channel)
    requires w !in s.sweeps && c in s.rows
    ensures After(s, [StartSweep(w, c)] + ([SweepStep(w, Full)] + [])) == Some(s)
  {
    var s1 := s.(sweeps := s.sweeps[w := Looking(c)]);
    assert s1.sweeps - {w} == s.sweeps;
    assert After(s, []) == Some(s);
    Steps(s1, SweepStep(w, Full), s, []);
    Steps(s, StartSweep(w, c), s1, [SweepStep(w, Full)] + []);
  }

  /** One that finds nobody, and is refused nothing, removes room and record. */
  lemma EmptyRoomIsSwept(s: State, w: nat, c: Channel)
    requires w !in s.sweeps && c in s.rows && NobodyIn(s, c)
    ensures After(s, [StartSweep(w, c)] + ([SweepStep(w, Empty)] + ([SweepStep(w, Ok)] + ([SweepStep(w, Ok)] + []))))
            == Some(s.(live := s.live - {c}, rows := s.rows - {c}, active := s.active - {c}))
  {
    var s1 := s.(sweeps := s.sweeps[w := Looking(c)]);
    var s2 := s.(sweeps := s.sweeps[w := Deleting(c)]);
    var s3 := s.(live := s.live - {c}, sweeps := s.sweeps[w := Dropping(c)]);
    var e := s.(live := s.live - {c}, rows := s.rows - {c}, active := s.active - {c});
    VacatedMeans(s, c);
    assert Vacated(s1, c) == Vacated(s, c);
    assert s1.sweeps[w := Deleting(c)] == s2.sweeps && s2.sweeps[w := Dropping(c)] == s3.sweeps && s3.sweeps - {w} == s.sweeps;
    assert Next(s1, SweepStep(w, Empty)) == Some(s2) && Next(s2, SweepStep(w, Ok)) == Some(s3)
        && Next(s3, SweepStep(w, Ok)) == Some(e) && Next(s, StartSweep(w, c)) == Some(s1);
    assert After(e, []) == Some(e);
    hide Next;
    Steps(s3, SweepStep(w, Ok), e, []);
    Steps(s2, SweepStep(w, Ok), s3, [SweepStep(w, Ok)] + []);
    Steps(s1, SweepStep(w, Empty), s2, [SweepStep(w, Ok)] + ([SweepStep(w, Ok)] + []));
    Steps(s, StartSweep(w, c), s1, [SweepStep(w, Empty)] + ([SweepStep(w, Ok)] + ([SweepStep(w, Ok)] + [])));
  }

  /** Nothing of the owner is in the way, and Discord can hand out channel c. */
  ghost predicate Free(s: State, o: Owner, c: Channel) {
    o !in s.creates && !HasRow(s.rows, o) && c !in s.made && c !in s.live && c !in s.rows && c !in s.active && c.guild == o.0
  }

  /** An undisturbed create: the room exists, is recorded for its owner and is
      remembered. */
  lemma NewRoomIsServed(s: State, o: Owner, c: Channel)
    requires Free(s, o, c)
    ensures After(s, Serving(o, c, []))
            == Some(s.(made := s.made + {c}, live := s.live + {c}, rows := s.rows[c := o], active := s.active + {c}))
  {
    Serves(s, o, c, []);
    assert After(Served(s, o, c), []) == Some(Served(s, o, c));
  }

  /** A record that fails is undone: the new room goes. */
  lemma FailedRecordIsUndone(s: State, o: Owner, c: Channel)
    requires Free(s, o, c)
    ensures After(s, Making(o, c, [Create(o, Refused)] + ([Create(o, Ok)] + []))) == Some(s.(made := s.made + {c}))
  {
    var s1, e := Make(s, c), s.(made := s.made + {c});
    Makes(s, o, c, [Create(o, Refused)] + ([Create(o, Ok)] + []));
    GoesTo(s1, o, Persist(c), Refused, s1, Rollback(c), [Create(o, Ok)] + []);
    assert s1.live - {c} == s.live && Leave(Delete(GoTo(s1, o, Rollback(c)), c, Ok).value, o) == e;
    assert After(e, []) == Some(e);
    Steps(GoTo(s1, o, Rollback(c)), Create(o, Ok), e, []);
  }

  /** Up to the move. */
  lemma ReachesMove(s: State, o: Owner, c: Channel, rest: seq<Action>)
    requires Free(s, o, c)
    ensures After(s, Making(o, c, [Create(o, Ok)] + ([Create(o, Ok)] + rest))) == After(GoTo(Served(s, o, c), o, Move(c)), rest)
  {
    var s1, s3 := Make(s, c), Served(s, o, c);
    var s2 := s1.(rows := s.rows[c := o]);
    ServesNext(s, o, c);
    hide Next, After, Making;
    Makes(s, o, c, [Create(o, Ok)] + ([Create(o, Ok)] + rest));
    GoesTo(s1, o, Persist(c), Ok, s2, Recorded(c), [Create(o, Ok)] + rest);
    GoesTo(s2, o, Recorded(c), Ok, s3, Move(c), rest);
  }

  /** A move that Discord refuses is undone as well: room, record and memory go.
      If the delete is refused too, all three stay. */
  lemma FailedMoveIsUndoneOrKept(s: State, o: Owner, c: Channel)
    requires Free(s, o, c)
    ensures After(s, Making(o, c, [Create(o, Ok)] + ([Create(o, Ok)]
                  + ([Create(o, Refused)] + ([Create(o, Ok)] + ([Create(o, Ok)] + []))))))
            == Some(s.(made := s.made + {c}))
    ensures After(s, Making(o, c, [Create(o, Ok)] + ([Create(o, Ok)] + ([Create(o, Refused)] + ([Create(o, Refused)] + [])))))
            == Some(s.(made := s.made + {c}, live := s.live + {c}, rows := s.rows[c := o], active := s.active + {c}))
  {
    var undo := [Create(o, Refused)] + ([Create(o, Ok)] + ([Create(o, Ok)] + []));
    ReachesMove(s, o, c, undo);
    ReachesMove(s, o, c, [Create(o, Refused)] + ([Create(o, Refused)] + []));
    UndoneAfterMove(s, o, c);
    KeptAfterMove(s, o, c);
  }

  lemma UndoneAfterMove(s: State, o: Owner, c: Channel)
    requires Free(s, o, c)
    ensures After(GoTo(Served(s, o, c), o, Move(c)), [Create(o, Refused)] + ([Create(o, Ok)] + ([Create(o, Ok)] + [])))
            == Some(s.(made := s.made + {c}))
  {
    var s3, e := Served(s, o, c), s.(made := s.made + {c});
    var s4 := s3.(live := s.live);
    DeletedAfterMove(s, o, c);
    Unrecorded(s, o, c);
    assert After(e, []) == Some(e);
    hide Next, Free;
    GoesTo(s3, o, Move(c), Refused, s3, RollbackMove(c), [Create(o, Ok)] + ([Create(o, Ok)] + []));
    GoesTo(s3, o, RollbackMove(c), Ok, s4, Unrecord(c), [Create(o, Ok)] + []);
    Steps(GoTo(s4, o, Unrecord(c)), Create(o, Ok), e, []);
  }

  lemma DeletedAfterMove(s: State, o: Owner, c: Channel)
    requires Free(s, o, c)
    ensures var s3 := Served(s, o, c);
            var s4 := s3.(live := s.live);
            && Next(GoTo(s3, o, Move(c)), Create(o, Refused)) == Some(GoTo(GoTo(s3, o, Move(c)), o, RollbackMove(c)))
            && Next(GoTo(s3, o, RollbackMove(c)), Create(o, Ok)) == Some(GoTo(GoTo(s4, o, RollbackMove(c)), o, Unrecord(c)))
  {
    assert Served(s, o, c).live - {c} == s.live;
  }

  lemma Unrecorded(s: State, o: Owner, c: Channel)
    requires Free(s, o, c)
    ensures var s4 := Served(s, o, c).(live := s.live);
            Next(GoTo(s4, o, Unrecord(c)), Create(o, Ok)) == Some(s.(made := s.made + {c}))
  {
    var s4 := Served(s, o, c).(live := s.live);
    assert s4.rows - {c} == s.rows && s4.active - {c} == s.active && GoTo(s4, o, Unrecord(c)).creates - {o} == s.creates;
  }

  lemma KeptAfterMove(s: State, o: Owner, c: Channel)
    requires Free(s, o, c)
    ensures After(GoTo(Served(s, o, c), o, Move(c)), [Create(o, Refused)] + ([Create(o, Refused)] + [])) == Some(Served(s, o, c))
  {
    var s3 := Served(s, o, c);
    GoesTo(s3, o, Move(c), Refused, s3, RollbackMove(c), [Create(o, Refused)] + []);
    assert Leave(GoTo(s3, o, RollbackMove(c)), o) == s3 && After(s3, []) == Some(s3);
    Steps(GoTo(s3, o, RollbackMove(c)), Create(o, Refused), s3, []);
  }

  // ---- a reconcile pass -------------------------------------------------------------

  /** The rows of a pass, each of them kept. */
  function Keeping(order: seq<Channel>, rest: seq<Action>): seq<Action> {
    if order == [] then rest else [PassStep(order[0], true)] + Keeping(order[1..], rest)
  }

  lemma {:induction false} RowsKept(s: State, before: set<Channel>, todo: set<Channel>, kept: set<Channel>, order: seq<Channel>,
                                    c: Channel)
    requires (forall d :: d in todo <==> d in order) && (forall i, j | 0 <= i < j < |order| :: order[i] != order[j])
    ensures After(s.(pass := Listed(before, todo, kept)), Keeping(order, [PassStep(c, true)] + []))
            == Some(s.(pass := Idle, active := (kept + todo) + (s.active - before)))
    decreases |order|
  {
    var s1 := s.(pass := Listed(before, todo, kept));
    if order == [] {
      assert todo == {} && kept + todo == kept;
      var e := s.(pass := Idle, active := (kept + todo) + (s.active - before));
      assert After(e, []) == Some(e) && Next(s1, PassStep(c, true)) == Some(e);
      hide Next;
      Steps(s1, PassStep(c, true), e, []);
    } else {
      var d := order[0];
      var s2 := s.(pass := Listed(before, todo - {d}, kept + {d}));
      assert d in order && Next(s1, PassStep(d, true)) == Some(s2);
      assert forall x :: x in order[1..] ==> x in order && x != d;
      assert forall x :: x in order ==> x == d || x in order[1..];
      assert (kept + {d}) + (todo - {d}) == kept + todo;
      hide Next;
      RowsKept(s, before, todo - {d}, kept + {d}, order[1..], c);
      Steps(s1, PassStep(d, true), s2, Keeping(order[1..], [PassStep(c, true)] + []));
    }
  }

  /** An undisturbed pass that finds every recorded room still there leaves exactly
      the recorded rooms remembered: ids of rooms that are gone are forgotten. */
  lemma PassRemembersTheRows(s: State, order: seq<Channel>, c: Channel)
    requires s.pass == Idle && (forall d :: d in s.rows <==> d in order) && (forall i, j | 0 <= i < j < |order| :: order[i] != order[j])
    ensures After(s, [PassStep(c, true)] + ([PassStep(c, true)] + Keeping(order, [PassStep(c, true)] + [])))
            == Some(s.(active := s.rows.Keys))
  {
    var s1, s2 := s.(pass := Begun(s.active)), s.(pass := Listed(s.active, s.rows.Keys, {}));
    assert Next(s, PassStep(c, true)) == Some(s1) && Next(s1, PassStep(c, true)) == Some(s2);
    assert forall d :: d in s.rows.Keys <==> d in order;
    RowsKept(s, s.active, s.rows.Keys, {}, order, c);
    assert {} + s.rows.Keys + (s.active - s.active) == s.rows.Keys;
    hide Next;
    Steps(s1, PassStep(c, true), s2, Keeping(order, [PassStep(c, true)] + []));
    Steps(s, PassStep(c, true), s1, [PassStep(c, true)] + Keeping(order, [PassStep(c, true)] + []));
  }
}
