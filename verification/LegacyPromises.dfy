/** What the older path promises of its runs, and exactly which steps break it. */
module LegacyPromises {
  import opened Common
  import opened LegacyRooms

  /** Channel c is owner o's: recorded for o, or just made by o's create. */
  predicate Belongs(s: State, c: Channel, o: Owner) {
    (c in s.rows && s.rows[c] == o) || (o in s.creates && Holds(s.creates[o], c))
  }

  // ---- no room is forgotten ------------------------------------------------------

  /** Every live room is recorded, or its create has it in hand. */
  ghost predicate Known(s: State) {
    forall c | c in s.live :: exists o :: Belongs(s, c, o)
  }

  /** The create made a channel that is live and is not recorded yet. */
  ghost predicate HoldsLive(s: State) {
    exists o, c :: o in s.creates && Holds(s.creates[o], c) && c in s.live
  }

  ghost predicate HasLiveRow(s: State, o: Owner) {
    exists d :: d in s.rows && s.rows[d] == o && d in s.live
  }

  /** What can go wrong outside the bot's own tables: a restart between a create
      and its record, a create whose reply is lost, a refused rollback of a room
      that exists. */
  ghost predicate Accident(s: State, a: Action) {
    match a
    case Restart => HoldsLive(s)
    case Create(o, r) =>
      o in s.creates &&
      (match s.creates[o]
       case Ready => r.Lost?
       case Rollback(c) => r == Refused && c in s.live
       case _ => false)
    case _ => false
  }

  /** A record for an owner who has been given a live room meanwhile. */
  ghost predicate Displaces(s: State, a: Action) {
    a.Create? && a.r == Ok && a.o in s.creates && s.creates[a.o].Persist? && HasLiveRow(s, a.o)
  }

  /** The steps that lose a room. */
  ghost predicate Loses(s: State, a: Action) {
    Accident(s, a) || Displaces(s, a)
  }

  ghost predicate LosesNone(s: State, acts: seq<Action>)
    decreases |acts|
  {
    acts == [] || (!Loses(s, acts[0]) && (Next(s, acts[0]).Some? ==> LosesNone(Next(s, acts[0]).value, acts[1..])))
  }

  /** No channel appears, and whatever knew a live one still does. */
  lemma KnownStays(s: State, s': State)
    requires Known(s) && s'.live <= s.live
    requires forall c, o | c in s'.live && Belongs(s, c, o) :: exists p :: Belongs(s', c, p)
    ensures Known(s')
  {
    forall c | c in s'.live ensures exists o :: Belongs(s', c, o) {
      var o :| Belongs(s, c, o);
    }
  }

  lemma MakeKeepsKnown(s: State, o: Owner, c: Channel)
    requires Inv(s) && Known(s) && o in s.creates && s.creates[o] == Ready && c !in s.made
    ensures Known(GoTo(s.(made := s.made + {c}, live := s.live + {c}), o, Persist(c)))
    ensures !Known(Leave(s.(made := s.made + {c}, live := s.live + {c}), o))
  {
    var s1 := GoTo(s.(made := s.made + {c}, live := s.live + {c}), o, Persist(c));
    forall d | d in s1.live ensures exists p :: Belongs(s1, d, p) {
      if d == c {
        assert Belongs(s1, c, o);
      } else {
        var p :| Belongs(s, d, p);
        assert Belongs(s1, d, p);
      }
    }
    var s2 := Leave(s.(made := s.made + {c}, live := s.live + {c}), o);
    forall p ensures !Belongs(s2, c, p) {
      if p in s.creates {
        assert CreateOk(s, s.creates[p]);
      }
    }
    assert c in s2.live;
  }

  /** The record loses exactly the owner's other live rooms. */
  lemma PersistKeepsKnown(s: State, o: Owner, c: Channel)
    requires Inv(s) && Known(s) && o in s.creates && s.creates[o] == Persist(c)
    ensures Known(GoTo(s.(rows := Insert(s.rows, c, o)), o, Recorded(c))) <==> !HasLiveRow(s, o)
  {
    var s' := GoTo(s.(rows := Insert(s.rows, c, o)), o, Recorded(c));
    assert CreateOk(s, s.creates[o]) && Belongs(s', c, o);
    if HasLiveRow(s, o) {
      var d :| d in s.rows && s.rows[d] == o && d in s.live;
      forall p ensures !Belongs(s', d, p) {
        if p in s.creates {
          assert CreateOk(s, s.creates[p]);
        }
      }
      assert d in s'.live;
    } else {
      forall d, p | d in s'.live && Belongs(s, d, p) ensures exists q :: Belongs(s', d, q) {
        assert Belongs(s', d, if d == c then o else p);
      }
      KnownStays(s, s');
    }
  }

  lemma RollbackKeepsKnown(s: State, o: Owner, c: Channel)
    requires Inv(s) && Known(s) && o in s.creates && s.creates[o] == Rollback(c)
    ensures Known(Leave(s, o)) <==> c !in s.live
  {
    var s' := Leave(s, o);
    assert CreateOk(s, s.creates[o]) && Mine(s.creates[o], c);
    if c in s.live {
      forall p ensures !Belongs(s', c, p) {
        assert p in s'.creates ==> !Mine(s'.creates[p], c);
      }
    } else {
      forall d, p | d in s'.live && Belongs(s, d, p) ensures exists q :: Belongs(s', d, q) {
        assert Belongs(s', d, p);
      }
      KnownStays(s, s');
    }
  }

  lemma RestartKeepsKnown(s: State)
    requires Inv(s) && Known(s)
    ensures Known(Next(s, Restart).value) <==> !HoldsLive(s)
  {
    var s' := Next(s, Restart).value;
    if HoldsLive(s) {
      var o, c :| o in s.creates && Holds(s.creates[o], c) && c in s.live;
      assert CreateOk(s, s.creates[o]);
      assert c in s'.live && forall p :: !Belongs(s', c, p);
    } else {
      forall d, p | d in s'.live && Belongs(s, d, p) ensures exists q :: Belongs(s', d, q) {
        assert Belongs(s', d, p);
      }
      KnownStays(s, s');
    }
  }

  /** Every other step of a create: it makes nothing, records nothing, and a
      channel it stops holding is gone. */
  lemma OtherCreateKeepsKnown(s: State, o: Owner, r: Reply)
    requires Inv(s) && Known(s) && Next(s, Create(o, r)).Some?
    requires var pc := s.creates[o];
             !(pc.Ready? && r != Refused) && !(pc.Persist? && r == Ok) && !(pc.Rollback? && r == Refused)
    ensures Known(Next(s, Create(o, r)).value)
  {
    var s' := Next(s, Create(o, r)).value;
    assert CreateOk(s, s.creates[o]);
    CreateIsOwn(s, o, r);
    KeptRows(s, o, r);
    hide Next, Inv, CreateOk;
    forall d, p | d in s'.live && Belongs(s, d, p) ensures exists q :: Belongs(s', d, q) {
      assert Belongs(s', d, p);
    }
    KnownStays(s, s');
  }

  lemma KeptRows(s: State, o: Owner, r: Reply)
    requires o in s.creates && CreateOk(s, s.creates[o]) && Next(s, Create(o, r)).Some?
    requires var pc := s.creates[o];
             !(pc.Ready? && r != Refused) && !(pc.Persist? && r == Ok) && !(pc.Rollback? && r == Refused)
    ensures var s' := Next(s, Create(o, r)).value;
            && s'.live <= s.live
            && (forall d | d in s.rows && d in s'.live :: d in s'.rows && s'.rows[d] == s.rows[d])
            && (forall d | Holds(s.creates[o], d) && d in s'.live :: o in s'.creates && Holds(s'.creates[o], d))
  {
    hide Insert, Vacated, HasRow, Unseen;
  }

  lemma CreateKeepsKnown(s: State, o: Owner, r: Reply)
    requires Inv(s) && Known(s) && Next(s, Create(o, r)).Some?
    ensures Known(Next(s, Create(o, r)).value) <==> !Loses(s, Create(o, r))
  {
    var pc := s.creates[o];
    hide Inv, Known, HasLiveRow;
    if pc.Ready? && r != Refused {
      MakeKeepsKnown(s, o, r.c);
    } else if pc.Persist? && r == Ok {
      PersistKeepsKnown(s, o, pc.room);
    } else if pc.Rollback? && r == Refused {
      RollbackKeepsKnown(s, o, pc.room);
    } else {
      OtherCreateKeepsKnown(s, o, r);
    }
  }

  /** A step of a sweep or a pass, a move, an arrival: no channel appears, no
      live one loses its row, no create moves. */
  lemma QuietStepKeepsRows(s: State, a: Action)
    requires SweepsOk(s) && Next(s, a).Some? && !a.Create? && !a.Restart? && !a.Transfer?
    ensures var s' := Next(s, a).value;
            && s'.live <= s.live
            && (forall d | d in s.rows && d in s'.live :: d in s'.rows && s'.rows[d] == s.rows[d])
            && (forall p | p in s.creates :: p in s'.creates && s'.creates[p] == s.creates[p])
  {
    hide Vacated, CreateNext;
  }

  lemma QuietStepKeepsKnown(s: State, a: Action)
    requires Inv(s) && Known(s) && Next(s, a).Some? && !a.Create? && !a.Restart?
    ensures Known(Next(s, a).value)
  {
    var s' := Next(s, a).value;
    if !a.Transfer? {
      QuietStepKeepsRows(s, a);
      hide Next, Inv;
      forall d, p | d in s'.live && Belongs(s, d, p) ensures exists q :: Belongs(s', d, q) {
        assert Belongs(s', d, p);
      }
    } else {
      forall d, p | d in s'.live && Belongs(s, d, p) ensures exists q :: Belongs(s', d, q) {
        assert Belongs(s', d, if d == a.c && d in s.rows then a.o else p);
      }
    }
    hide Inv, Next;
    KnownStays(s, s');
  }

  /** While every live room is known, a step keeps it so if and only if it is
      none of the four that lose one. */
  lemma StepKeepsKnownExactly(s: State, a: Action)
    requires Inv(s) && Known(s) && Next(s, a).Some?
    ensures Known(Next(s, a).value) <==> !Loses(s, a)
  {
    hide Inv, Known, HoldsLive, HasLiveRow;
    if a.Create? {
      CreateKeepsKnown(s, a.o, a.r);
    } else if a.Restart? {
      RestartKeepsKnown(s);
    } else {
      QuietStepKeepsKnown(s, a);
    }
  }

  lemma {:induction false} KnownAlways(s: State, acts: seq<Action>)
    requires Inv(s) && Known(s) && After(s, acts).Some? && LosesNone(s, acts)
    ensures Known(After(s, acts).value)
    decreases |acts|
  {
    hide Inv, Known, Next, Loses;
    if acts != [] {
      StepKeepsKnownExactly(s, acts[0]);
      StepKeepsInv(s, acts[0]);
      KnownAlways(Next(s, acts[0]).value, acts[1..]);
    }
  }

  /** In a run without a losing step each live bot-made room is someone's:
      recorded, or about to be recorded or rolled back by its create. */
  lemma EveryRoomBelongs(s: State, acts: seq<Action>, c: Channel)
    requires Init(s) && After(s, acts).Some? && LosesNone(s, acts) && c in After(s, acts).value.live
    ensures exists o :: Belongs(After(s, acts).value, c, o)
  {
    KnownAlways(s, acts);
  }

  // ---- one room per owner ----------------------------------------------------------

  /** The create goes on without looking at channel d again. */
  predicate PastLooking(pc: Pc, d: Channel) {
    pc.Ready? || pc.Persist? || pc.Rollback? || ((pc.Fetch? || pc.DeleteOld? || pc.Forget?) && pc.room != d)
  }

  /** A transfer to an owner whose create has found no room, or another one. */
  predicate Crosses(s: State, a: Action) {
    a.Transfer? && a.o in s.creates && PastLooking(s.creates[a.o], a.c)
  }

  ghost predicate CrossesNone(s: State, acts: seq<Action>)
    decreases |acts|
  {
    acts == [] || (!Crosses(s, acts[0]) && (Next(s, acts[0]).Some? ==> CrossesNone(Next(s, acts[0]).value, acts[1..])))
  }

  /** What a create has found out about its owner's rows. */
  predicate Clear(rows: map<Channel, Owner>, o: Owner, pc: Pc) {
    match pc
    case Fetch(c) => forall d | d in rows && rows[d] == o :: d == c
    case DeleteOld(c) => forall d | d in rows && rows[d] == o :: d == c
    case Forget(c) => forall d | d in rows && rows[d] == o :: d == c
    case Ready => !HasRow(rows, o)
    case Persist(c) => !HasRow(rows, o)
    case Rollback(c) => !HasRow(rows, o)
    case _ => true
  }

  ghost predicate Single(s: State) {
    forall o | o in s.creates :: Clear(s.rows, o, s.creates[o])
  }

  lemma ClearStays(rows: map<Channel, Owner>, rows': map<Channel, Owner>, o: Owner, pc: Pc)
    requires Clear(rows, o, pc)
    requires forall d | d in rows' && rows'[d] == o :: d in rows && rows[d] == o
    ensures Clear(rows', o, pc)
  {
  }

  /** No other create moves, and no other owner gets a row. */
  predicate OthersStay(s: State, s': State, o: Owner) {
    && (forall p | p in s'.creates && p != o :: p in s.creates && s'.creates[p] == s.creates[p])
    && (forall d | d in s'.rows && s'.rows[d] != o :: d in s.rows && s.rows[d] == s'.rows[d])
  }

  /** The create of owner o takes a step: no other create moves, no row is added
      but its own record, and no channel appears but a new one. */
  ghost predicate OwnStep(s: State, o: Owner, after: Option<State>) {
    after.Some? ==>
      var s' := after.value;
      && (forall p | p != o :: (p in s'.creates <==> p in s.creates) && (p in s.creates ==> s'.creates[p] == s.creates[p]))
      && (forall d | d in s'.rows && !(s'.rows[d] == o && o in s'.creates && s'.creates[o] == Recorded(d)) ::
            d in s.rows && s.rows[d] == s'.rows[d])
      && (forall d | d in s'.live && d !in s.live :: d !in s.made)
  }

  lemma LookIsOwn(s: State, o: Owner, pc: Pc, r: Reply)
    requires Looks(pc)
    ensures OwnStep(s, o, LookNext(s, o, pc, r))
  {
    hide Vacated, HasRow;
  }

  lemma MakeIsOwn(s: State, o: Owner, pc: Pc, r: Reply)
    requires !Looks(pc)
    ensures OwnStep(s, o, MakeNext(s, o, pc, r))
  {
  }

  lemma CreateIsOwn(s: State, o: Owner, r: Reply)
    requires o in s.creates && Next(s, Create(o, r)).Some?
    ensures OwnStep(s, o, Next(s, Create(o, r)))
  {
    var pc := s.creates[o];
    hide OwnStep, LookNext, MakeNext;
    if Looks(pc) {
      LookIsOwn(s, o, pc, r);
    } else {
      MakeIsOwn(s, o, pc, r);
    }
  }

  lemma CreateStepIsOwn(s: State, o: Owner, r: Reply)
    requires o in s.creates && Next(s, Create(o, r)).Some?
    ensures OthersStay(s, Next(s, Create(o, r)).value, o)
  {
    CreateIsOwn(s, o, r);
    hide Next;
  }

  /** What the create of owner o knows of `rows`, some of its owner's rows, it
      knows after its step. */
  ghost predicate MovesOn(o: Owner, rows: map<Channel, Owner>, after: Option<State>) {
    after.Some? && o in after.value.creates && !after.value.creates[o].Recorded? ==> Clear(rows, o, after.value.creates[o])
  }

  lemma LookMovesOn(s: State, o: Owner, pc: Pc, r: Reply, rows: map<Channel, Owner>)
    requires Unique(s) && Looks(pc) && Clear(rows, o, pc) && (pc.Forget? && r == Ok ==> pc.room !in rows)
    requires forall d | d in rows && rows[d] == o :: d in s.rows && s.rows[d] == o
    ensures MovesOn(o, rows, LookNext(s, o, pc, r))
  {
    hide Vacated;
  }

  lemma MakeMovesOn(s: State, o: Owner, pc: Pc, r: Reply, rows: map<Channel, Owner>)
    requires !Looks(pc) && Clear(rows, o, pc)
    ensures MovesOn(o, rows, MakeNext(s, o, pc, r))
  {
    hide Insert;
  }

  lemma CreateMovesOn(s: State, o: Owner, r: Reply, rows: map<Channel, Owner>)
    requires Unique(s) && o in s.creates && Next(s, Create(o, r)).Some? && Clear(rows, o, s.creates[o])
    requires s.creates[o].Forget? && r == Ok ==> s.creates[o].room !in rows
    requires forall d | d in rows && rows[d] == o :: d in s.rows && s.rows[d] == o
    ensures MovesOn(o, rows, Next(s, Create(o, r)))
  {
    var pc := s.creates[o];
    hide MovesOn, LookNext, MakeNext, Clear, Unique;
    if Looks(pc) {
      LookMovesOn(s, o, pc, r, rows);
    } else {
      MakeMovesOn(s, o, pc, r, rows);
    }
  }

  lemma RecordIsAlone(s: State, o: Owner, r: Reply)
    requires o in s.creates && Next(s, Create(o, r)).Some? && Next(s, Create(o, r)).value.creates.Keys >= {o}
    requires Next(s, Create(o, r)).value.creates[o].Recorded?
    ensures Clear(Next(s, Create(o, r)).value.rows, o, Next(s, Create(o, r)).value.creates[o])
  {
    hide Next;
  }

  lemma ForgetDrops(s: State, o: Owner)
    requires o in s.creates && s.creates[o].Forget?
    ensures Next(s, Create(o, Ok)) == Some(GoTo(Drop(s, s.creates[o].room), o, Ready))
  {
  }

  lemma OwnStepIsClear(s: State, o: Owner, r: Reply)
    requires Unique(s) && o in s.creates && Clear(s.rows, o, s.creates[o]) && Next(s, Create(o, r)).Some?
    ensures var s' := Next(s, Create(o, r)).value; o in s'.creates ==> Clear(s'.rows, o, s'.creates[o])
  {
    var s' := Next(s, Create(o, r)).value;
    if o in s'.creates {
      if s'.creates[o].Recorded? {
        RecordIsAlone(s, o, r);
      } else {
        CreateIsOwn(s, o, r);
        if s.creates[o].Forget? && r == Ok {
          ForgetDrops(s, o);
        }
        hide Next, Unique;
        ClearStays(s.rows, s'.rows, o, s.creates[o]);
        CreateMovesOn(s, o, r, s'.rows);
      }
    }
  }

  lemma OthersStayClear(s: State, s': State, o: Owner)
    requires Single(s) && OthersStay(s, s', o) && (o in s'.creates ==> Clear(s'.rows, o, s'.creates[o]))
    ensures Single(s')
  {
    hide Clear;
    forall p | p in s'.creates ensures Clear(s'.rows, p, s'.creates[p]) {
      if p != o {
        ClearStays(s.rows, s'.rows, p, s.creates[p]);
      }
    }
  }

  lemma CreateKeepsSingle(s: State, o: Owner, r: Reply)
    requires Inv(s) && Single(s) && Next(s, Create(o, r)).Some?
    ensures Single(Next(s, Create(o, r)).value)
  {
    CreateStepIsOwn(s, o, r);
    OwnStepIsClear(s, o, r);
    hide Next, Clear, OthersStay;
    OthersStayClear(s, Next(s, Create(o, r)).value, o);
  }

  lemma TransferKeepsSingle(s: State, c: Channel, o: Owner)
    requires Single(s) && Next(s, Transfer(c, o)).Some?
    ensures Single(Next(s, Transfer(c, o)).value) <==> !Crosses(s, Transfer(c, o))
  {
    var s' := Next(s, Transfer(c, o)).value;
    assert forall d | d in s.rows && d != c :: d in s.rows - {c} && (s.rows - {c})[d] != o;
    if Crosses(s, Transfer(c, o)) {
      assert s'.rows[c] == o && !Clear(s'.rows, o, s'.creates[o]);
    } else {
      forall p | p in s'.creates ensures Clear(s'.rows, p, s'.creates[p]) {
        assert Clear(s.rows, p, s.creates[p]);
      }
    }
  }

  /** The other steps add no row, and no create that has looked. */
  lemma QuietStepAddsNoRow(s: State, a: Action)
    requires Next(s, a).Some? && !a.Create? && !a.Transfer?
    ensures var s' := Next(s, a).value;
            && (forall d | d in s'.rows :: d in s.rows && s.rows[d] == s'.rows[d])
            && (forall p | p in s'.creates :: s'.creates[p] == Resolve || (p in s.creates && s'.creates[p] == s.creates[p]))
  {
  }

  /** What every create knows of its owner's rows stays true if and only if the
      step is no crossing transfer. */
  lemma StepKeepsSingleExactly(s: State, a: Action)
    requires Inv(s) && Single(s) && Next(s, a).Some?
    ensures Single(Next(s, a).value) <==> !Crosses(s, a)
  {
    var s' := Next(s, a).value;
    if a.Create? {
      CreateKeepsSingle(s, a.o, a.r);
    } else if a.Transfer? {
      TransferKeepsSingle(s, a.c, a.o);
    } else {
      QuietStepAddsNoRow(s, a);
      hide Next, Inv;
      forall p | p in s'.creates ensures Clear(s'.rows, p, s'.creates[p]) {
        if s'.creates[p] != Resolve {
          ClearStays(s.rows, s'.rows, p, s.creates[p]);
        }
      }
    }
  }

  lemma {:induction false} SingleAlways(s: State, acts: seq<Action>)
    requires Inv(s) && Single(s) && After(s, acts).Some? && CrossesNone(s, acts)
    ensures Inv(After(s, acts).value) && Single(After(s, acts).value)
    decreases |acts|
  {
    hide Inv, Single, Next, Crosses;
    if acts != [] {
      StepKeepsSingleExactly(s, acts[0]);
      StepKeepsInv(s, acts[0]);
      SingleAlways(Next(s, acts[0]).value, acts[1..]);
    }
  }

  lemma SingleMeans(s: State, c: Channel, d: Channel, o: Owner)
    requires Inv(s) && Single(s) && Belongs(s, c, o) && Belongs(s, d, o)
    ensures c == d
  {
    if o in s.creates {
      assert Clear(s.rows, o, s.creates[o]);
    }
  }

  /** Each owner has at most one room, whatever is lost, refused or restarted. */
  lemma OneRoomPerOwner(s: State, acts: seq<Action>, c: Channel, d: Channel, o: Owner)
    requires Init(s) && After(s, acts).Some? && CrossesNone(s, acts)
    requires Belongs(After(s, acts).value, c, o) && Belongs(After(s, acts).value, d, o)
    ensures c == d
  {
    SingleAlways(s, acts);
    SingleMeans(After(s, acts).value, c, d, o);
  }

  /** In such a run, recording a new room displaces no other. */
  lemma NeverDisplaces(s: State, acts: seq<Action>, o: Owner)
    requires Init(s) && After(s, acts).Some? && CrossesNone(s, acts)
    requires var e := After(s, acts).value; o in e.creates && e.creates[o].Persist?
    ensures var e := After(s, acts).value;
            var c := e.creates[o].room;
            Insert(e.rows, c, o) == e.rows[c := o] && c !in e.rows
  {
    SingleAlways(s, acts);
    var e := After(s, acts).value;
    assert CreateOk(e, e.creates[o]) && Clear(e.rows, o, e.creates[o]);
  }

  /** insert-or-replace drops another row exactly when the owner has one. */
  lemma DisplacesExactly(rows: map<Channel, Owner>, c: Channel, o: Owner)
    ensures (exists d :: d in rows && d !in Insert(rows, c, o)) <==> exists d :: d in rows && d != c && rows[d] == o
  {
    if d :| d in rows && d != c && rows[d] == o {
      assert d in rows && d !in Insert(rows, c, o);
    }
    if d :| d in rows && d !in Insert(rows, c, o) {
      assert d in rows && d != c && rows[d] == o;
    }
  }

  // ---- what is remembered -------------------------------------------------------------

  /** The remembered ids cover the recorded rooms at every moment, also while a
      reconcile pass replaces the whole set, but for a room whose create has
      recorded it and not yet come back to remember it. */
  lemma RecordedAreRemembered(s: State, acts: seq<Action>, c: Channel)
    requires Init(s) && After(s, acts).Some? && c in After(s, acts).value.rows
    ensures var e := After(s, acts).value;
            c in e.active || exists o :: o in e.creates && e.creates[o] == Recorded(c)
  {
    InvAlways(s, acts);
  }
}
