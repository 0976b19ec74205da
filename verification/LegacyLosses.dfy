/** How rooms are lost in the older path: a run from the start for each way, and
    exactly which transfers lead there. */
module LegacyLosses {
  import opened Common
  import opened LegacyRooms
  import opened LegacyPromises

  ghost function Final(s: State, acts: seq<Action>): State
    requires After(s, acts).Some?
  {
    After(s, acts).value
  }

  lemma Steps(s: State, a: Action, s': State, rest: seq<Action>)
    requires Next(s, a) == Some(s')
    ensures After(s, [a] + rest) == After(s', rest)
  {
    hide Next;
    assert ([a] + rest)[0] == a && ([a] + rest)[1..] == rest;
  }

  // ---- after a transfer to an owner in mid-create ----------------------------------

  ghost predicate Two(s: State) {
    exists c, d, o :: c != d && Belongs(s, c, o) && Belongs(s, d, o)
  }

  /** No continuation without a further crossing transfer gives an owner two rooms. */
  ghost predicate NeverTwo(s: State) {
    forall acts :: After(s, acts).Some? && CrossesNone(s, acts) ==> !Two(Final(s, acts))
  }

  /** Nothing in the run is an accident or a crossing transfer. */
  ghost predicate Smooth(s: State, acts: seq<Action>)
    decreases |acts|
  {
    acts == [] || (!Accident(s, acts[0]) && !Crosses(s, acts[0])
                   && (Next(s, acts[0]).Some? ==> Smooth(Next(s, acts[0]).value, acts[1..])))
  }

  /** No smooth continuation loses a room. */
  ghost predicate NeverLoses(s: State) {
    forall acts :: After(s, acts).Some? && Smooth(s, acts) ==> Known(Final(s, acts))
  }

  lemma StepThenTwo(s: State, a: Action)
    requires Next(s, a).Some? && !Crosses(s, a) && !NeverTwo(Next(s, a).value)
    ensures !NeverTwo(s)
  {
    hide Next, Crosses, Two;
    var s1 := Next(s, a).value;
    var acts :| After(s1, acts).Some? && CrossesNone(s1, acts) && Two(Final(s1, acts));
    Steps(s, a, s1, acts);
    var all := [a] + acts;
    assert all[0] == a && all[1..] == acts;
    assert CrossesNone(s, all);
    assert Two(Final(s, all));
  }

  lemma StepThenLoses(s: State, a: Action)
    requires Next(s, a).Some? && !Crosses(s, a) && !Accident(s, a) && !NeverLoses(Next(s, a).value)
    ensures !NeverLoses(s)
  {
    hide Next, Crosses, Accident, Known;
    var s1 := Next(s, a).value;
    var acts :| After(s1, acts).Some? && Smooth(s1, acts) && !Known(Final(s1, acts));
    Steps(s, a, s1, acts);
    var all := [a] + acts;
    assert all[0] == a && all[1..] == acts;
    assert Smooth(s, all);
    assert !Known(Final(s, all));
  }

  /** Discord can always hand out a new channel id. */
  lemma {:induction false} NewChannel(used: set<Channel>, g: Guild) returns (c: Channel)
    ensures c !in used && c.guild == g
    ensures forall d | d in used :: d.id < c.id
    decreases |used|
  {
    if used == {} {
      c := Channel(g, 0);
    } else {
      var d :| d in used;
      var e := NewChannel(used - {d}, g);
      c := Channel(g, if e.id > d.id then e.id else d.id + 1);
      assert forall x | x in used && x != d :: x in used - {d};
    }
  }

  /** Channel d is the owner's, and the owner's create has looked past it. */
  predicate Crossed(s: State, d: Channel, o: Owner) {
    d in s.rows && s.rows[d] == o && o in s.creates && PastLooking(s.creates[o], d)
  }

  /** One step nearer to a second room. */
  lemma CrossedGoesOn(s: State, d: Channel, o: Owner) returns (a: Action)
    requires Inv(s) && Crossed(s, d, o) && !s.creates[o].Persist? && !s.creates[o].Rollback?
    ensures Next(s, a).Some? && !Accident(s, a) && !Loses(s, a) && !Crosses(s, a)
    ensures var s' := Next(s, a).value;
            && Crossed(s', d, o) && Rank(s', s'.creates[o]) < Rank(s, s.creates[o]) && !s'.creates[o].Rollback?
            && (d in s.live ==> d in s'.live)
  {
    var pc := s.creates[o];
    if pc.Ready? {
      var c := NewChannel(s.made, o.0);
      a := Create(o, Made(c));
    } else if pc.Fetch? && pc.room in s.live {
      a := Vanish(pc.room);
    } else {
      a := Create(o, if pc.Fetch? then Gone else Ok);
    }
  }

  function Rank(s: State, pc: Pc): nat {
    match pc
    case Fetch(c) => if c in s.live then 5 else 4
    case DeleteOld(_) => 3
    case Forget(_) => 2
    case Ready => 1
    case _ => 0
  }

  lemma {:induction false} CrossedGivesTwo(s: State, d: Channel, o: Owner)
    requires Inv(s) && Crossed(s, d, o)
    ensures !NeverTwo(s)
    decreases Rank(s, s.creates[o])
  {
    if s.creates[o].Persist? || s.creates[o].Rollback? {
      var c := s.creates[o].room;
      assert CreateOk(s, s.creates[o]);
      assert c != d && Belongs(s, c, o) && Belongs(s, d, o);
      assert After(s, []) == Some(s) && CrossesNone(s, []) && Two(Final(s, []));
    } else {
      var a := CrossedGoesOn(s, d, o);
      StepKeepsInv(s, a);
      hide Next, Inv, NeverTwo;
      CrossedGivesTwo(Next(s, a).value, d, o);
      StepThenTwo(s, a);
    }
  }

  lemma {:induction false} CrossedLoses(s: State, d: Channel, o: Owner)
    requires Inv(s) && Known(s) && Crossed(s, d, o) && d in s.live && !s.creates[o].Rollback?
    ensures !NeverLoses(s)
    decreases Rank(s, s.creates[o])
  {
    if s.creates[o].Persist? {
      var a := Create(o, Ok);
      StepKeepsKnownExactly(s, a);
      var s' := Next(s, a).value;
      assert After(s', []) == Some(s') && Smooth(s', []) && !Known(Final(s', []));
      StepThenLoses(s, a);
    } else {
      var a := CrossedGoesOn(s, d, o);
      StepKeepsInv(s, a);
      StepKeepsKnownExactly(s, a);
      hide Next, Inv, NeverLoses, Known;
      CrossedLoses(Next(s, a).value, d, o);
      StepThenLoses(s, a);
    }
  }

  /** A transfer leads to an owner with two rooms, at once or in some
      continuation, if and only if the new owner's create is past looking for
      that room. */
  lemma TransferGivesTwoExactly(s: State, d: Channel, o: Owner)
    requires Inv(s) && Single(s) && Next(s, Transfer(d, o)).Some?
    ensures NeverTwo(Next(s, Transfer(d, o)).value) <==> !(o in s.creates && PastLooking(s.creates[o], d))
  {
    var a := Transfer(d, o);
    var s' := Next(s, a).value;
    StepKeepsInv(s, a);
    StepKeepsSingleExactly(s, a);
    if Crosses(s, a) {
      CrossedGivesTwo(s', d, o);
    } else {
      hide Next, Inv, Single, Crosses;
      forall acts | After(s', acts).Some? && CrossesNone(s', acts) ensures !Two(Final(s', acts)) {
        SingleAlways(s', acts);
        SingleHasNoTwo(Final(s', acts));
      }
    }
  }

  lemma SingleHasNoTwo(s: State)
    requires Inv(s) && Single(s)
    ensures !Two(s)
  {
    if Two(s) {
      var c, d, o :| c != d && Belongs(s, c, o) && Belongs(s, d, o);
      SingleMeans(s, c, d, o);
    }
  }

  // ---- which transfers lose a room -------------------------------------------------

  /** The recorded rooms that exist. */
  function LiveRows(s: State): map<Channel, Owner> {
    map d | d in s.rows && d in s.live :: s.rows[d]
  }

  /** No create that may still record looks past a live room of its owner. */
  ghost predicate Guarded(s: State) {
    forall o | o in s.creates && !s.creates[o].Rollback? :: Clear(LiveRows(s), o, s.creates[o])
  }

  /** Owner o's recorded rooms that exist in s' existed in s, recorded for o. */
  predicate NoneAdded(s: State, s': State, o: Owner) {
    forall d | d in s'.rows && s'.rows[d] == o && d in s'.live :: d in s.rows && s.rows[d] == o && d in s.live
  }

  lemma LiveRowsStayClear(s: State, s': State, o: Owner, pc: Pc)
    requires NoneAdded(s, s', o) && Clear(LiveRows(s), o, pc)
    ensures Clear(LiveRows(s'), o, pc)
  {
    ClearStays(LiveRows(s), LiveRows(s'), o, pc);
  }

  lemma CreateAddsNone(s: State, o: Owner, r: Reply, p: Owner)
    requires Inv(s) && o in s.creates && Next(s, Create(o, r)).Some?
    requires p == o ==> !(o in Next(s, Create(o, r)).value.creates && Next(s, Create(o, r)).value.creates[o].Recorded?)
    ensures NoneAdded(s, Next(s, Create(o, r)).value, p)
  {
    CreateIsOwn(s, o, r);
    hide Next, Unique, CreatesOk, SweepsOk, PassOk;
  }

  lemma OwnStepIsGuarded(s: State, o: Owner, r: Reply)
    requires Inv(s) && o in s.creates && Next(s, Create(o, r)).Some?
    requires !s.creates[o].Rollback? ==> Clear(LiveRows(s), o, s.creates[o])
    ensures var s' := Next(s, Create(o, r)).value;
            o in s'.creates && !s'.creates[o].Rollback? ==> Clear(LiveRows(s'), o, s'.creates[o])
  {
    var s' := Next(s, Create(o, r)).value;
    if o in s'.creates && !s'.creates[o].Rollback? && !s'.creates[o].Recorded? {
      CreateAddsNone(s, o, r, o);
      if s.creates[o].Rollback? {
        RollbackEnds(s, o, r);
      }
      if s.creates[o].Forget? {
        ForgottenIsDead(s, o);
      }
      CreateMovesOn(s, o, r, LiveRows(s));
      hide Next, Inv;
      LiveRowsStayClear(s, s', o, s'.creates[o]);
    }
  }

  lemma ForgottenIsDead(s: State, o: Owner)
    requires Inv(s) && o in s.creates && s.creates[o].Forget?
    ensures s.creates[o].room !in LiveRows(s)
  {
    assert CreateOk(s, s.creates[o]);
  }

  lemma RollbackEnds(s: State, o: Owner, r: Reply)
    requires o in s.creates && s.creates[o].Rollback? && Next(s, Create(o, r)).Some?
    ensures o !in Next(s, Create(o, r)).value.creates
  {
  }

  lemma QuietStepAddsNone(s: State, a: Action, p: Owner)
    requires Next(s, a).Some? && !a.Create? && !(a.Transfer? && p == a.o)
    ensures NoneAdded(s, Next(s, a).value, p)
    ensures var s' := Next(s, a).value;
            p in s'.creates ==> s'.creates[p] == Resolve || (p in s.creates && s'.creates[p] == s.creates[p])
  {
  }

  lemma TransferIsGuarded(s: State, d: Channel, o: Owner)
    requires Guarded(s) && o in s.creates && !s.creates[o].Rollback?
    requires d in s.live ==> !PastLooking(s.creates[o], d)
    ensures Clear(LiveRows(s.(rows := s.rows[d := o])), o, s.creates[o])
  {
    var s' := s.(rows := s.rows[d := o]);
    assert Clear(LiveRows(s), o, s.creates[o]);
    assert forall e | e in LiveRows(s') && LiveRows(s')[e] == o && e != d :: e in LiveRows(s) && LiveRows(s)[e] == o;
  }

  lemma QuietStepKeepsGuarded(s: State, a: Action)
    requires Inv(s) && Guarded(s) && Next(s, a).Some? && !a.Create?
    requires a.Transfer? && a.c in s.live && a.o in s.creates && !s.creates[a.o].Rollback? ==> !PastLooking(s.creates[a.o], a.c)
    ensures Guarded(Next(s, a).value)
  {
    var s' := Next(s, a).value;
    forall p | p in s'.creates && !s'.creates[p].Rollback? ensures Clear(LiveRows(s'), p, s'.creates[p]) {
      if a.Transfer? && a.o == p {
        TransferIsGuarded(s, a.c, p);
      } else {
        QuietStepAddsNone(s, a, p);
        hide Next, LiveRows, Inv, NoneAdded;
        if p in s.creates && s'.creates[p] == s.creates[p] {
          LiveRowsStayClear(s, s', p, s.creates[p]);
        }
      }
    }
  }

  lemma StepKeepsGuarded(s: State, a: Action)
    requires Inv(s) && Guarded(s) && Next(s, a).Some?
    requires a.Transfer? && a.c in s.live && a.o in s.creates && !s.creates[a.o].Rollback? ==> !PastLooking(s.creates[a.o], a.c)
    ensures Guarded(Next(s, a).value)
  {
    var s' := Next(s, a).value;
    if a.Create? {
      CreateStepIsOwn(s, a.o, a.r);
      OwnStepIsGuarded(s, a.o, a.r);
      hide Next, Clear, LiveRows, Inv, NoneAdded;
      forall p | p in s'.creates && !s'.creates[p].Rollback? ensures Clear(LiveRows(s'), p, s'.creates[p]) {
        if p != a.o {
          CreateAddsNone(s, a.o, a.r, p);
          LiveRowsStayClear(s, s', p, s.creates[p]);
        }
      }
    } else {
      QuietStepKeepsGuarded(s, a);
    }
  }

  lemma GuardedDisplacesNone(s: State, a: Action)
    requires Guarded(s)
    ensures !Displaces(s, a)
  {
    if a.Create? && a.o in s.creates && s.creates[a.o].Persist? {
      assert Clear(LiveRows(s), a.o, s.creates[a.o]);
      LiveRowIsInLiveRows(s, a.o);
    }
  }

  lemma LiveRowIsInLiveRows(s: State, o: Owner)
    ensures HasLiveRow(s, o) ==> HasRow(LiveRows(s), o)
  {
    if d :| d in s.rows && s.rows[d] == o && d in s.live {
      assert LiveRows(s)[d] == o;
    }
  }

  lemma {:induction false} GuardedLosesNone(s: State, acts: seq<Action>)
    requires Inv(s) && Guarded(s) && Known(s) && After(s, acts).Some? && Smooth(s, acts)
    ensures Known(Final(s, acts))
    decreases |acts|
  {
    if acts != [] {
      var a := acts[0];
      GuardedDisplacesNone(s, a);
      StepKeepsInv(s, a);
      StepKeepsGuarded(s, a);
      StepKeepsKnownExactly(s, a);
      hide Next, Inv, Guarded, Known, Accident, Displaces;
      GuardedLosesNone(Next(s, a).value, acts[1..]);
    }
  }

  /** A transfer leads to a lost room, without any further accident or crossing
      transfer, if and only if the given room exists and the new owner's create
      may still record another one. */
  lemma TransferLosesExactly(s: State, d: Channel, o: Owner)
    requires Inv(s) && Single(s) && Known(s) && Next(s, Transfer(d, o)).Some?
    ensures NeverLoses(Next(s, Transfer(d, o)).value)
            <==> !(d in s.live && o in s.creates && !s.creates[o].Rollback? && PastLooking(s.creates[o], d))
  {
    var a := Transfer(d, o);
    var s' := Next(s, a).value;
    StepKeepsInv(s, a);
    StepKeepsKnownExactly(s, a);
    if d in s.live && o in s.creates && !s.creates[o].Rollback? && PastLooking(s.creates[o], d) {
      CrossedLoses(s', d, o);
    } else {
      SingleIsGuarded(s);
      StepKeepsGuarded(s, a);
      hide Next, Inv, Guarded, Known;
      forall acts | After(s', acts).Some? && Smooth(s', acts) ensures Known(Final(s', acts)) {
        GuardedLosesNone(s', acts);
      }
    }
  }

  lemma SingleIsGuarded(s: State)
    requires Single(s)
    ensures Guarded(s)
  {
    forall o | o in s.creates && !s.creates[o].Rollback? ensures Clear(LiveRows(s), o, s.creates[o]) {
      ClearStays(s.rows, LiveRows(s), o, s.creates[o]);
    }
  }

  // ---- a run from the start for each loss --------------------------------------------

  const START: State := State(map[], {}, {}, {}, map[], map[], Idle, map[])

  /** A live room that is nobody's. */
  ghost predicate Orphaned(s: State, c: Channel) {
    c in s.live && forall o :: !Belongs(s, c, o)
  }

  function Make(s: State, c: Channel): State {
    s.(made := s.made + {c}, live := s.live + {c})
  }

  /** A create that finds no room of its owner. */
  function Finding(o: Owner, rest: seq<Action>): seq<Action> {
    [Lobby(o)] + ([Create(o, Ok)] + rest)
  }

  /** And makes one. */
  function Making(o: Owner, c: Channel, rest: seq<Action>): seq<Action> {
    Finding(o, [Create(o, Made(c))] + rest)
  }

  lemma Finds(s: State, o: Owner, rest: seq<Action>)
    requires o !in s.creates && !HasRow(s.rows, o)
    ensures After(s, Finding(o, rest)) == After(GoTo(s, o, Ready), rest)
  {
    Steps(s, Lobby(o), GoTo(s, o, Resolve), [Create(o, Ok)] + rest);
    assert GoTo(GoTo(s, o, Resolve), o, Ready) == GoTo(s, o, Ready);
    Steps(GoTo(s, o, Resolve), Create(o, Ok), GoTo(s, o, Ready), rest);
  }

  /** The same create at its next step. */
  lemma GoesTo(s: State, o: Owner, pc: Pc, r: Reply, s': State, pc': Pc, rest: seq<Action>)
    requires Next(GoTo(s, o, pc), Create(o, r)) == Some(GoTo(GoTo(s', o, pc), o, pc'))
    ensures After(GoTo(s, o, pc), [Create(o, r)] + rest) == After(GoTo(s', o, pc'), rest)
  {
    hide Next, After;
    assert GoTo(GoTo(s', o, pc), o, pc') == GoTo(s', o, pc');
    Steps(GoTo(s, o, pc), Create(o, r), GoTo(s', o, pc'), rest);
  }

  lemma Makes(s: State, o: Owner, c: Channel, rest: seq<Action>)
    requires o !in s.creates && !HasRow(s.rows, o) && c !in s.made && c.guild == o.0
    ensures After(s, Making(o, c, rest)) == After(GoTo(Make(s, c), o, Persist(c)), rest)
  {
    Finds(s, o, [Create(o, Made(c))] + rest);
    GoesTo(s, o, Ready, Made(c), Make(s, c), Persist(c), rest);
  }

  /** A restart before the new room is recorded. */
  lemma RestartLosesARoom(o: Owner, c: Channel)
    requires c.guild == o.0
    ensures var e := After(START, Making(o, c, [Restart] + []));
            e.Some? && Orphaned(e.value, c)
  {
    var s1 := GoTo(Make(START, c), o, Persist(c));
    Makes(START, o, c, [Restart] + []);
    assert s1.rows.Keys == {} && Next(s1, Restart) == Some(Make(START, c));
    Steps(s1, Restart, Make(START, c), []);
    assert After(Make(START, c), []) == Some(Make(START, c));
  }

  /** A create that Discord carries out and whose reply never arrives. */
  lemma LostReplyLosesARoom(o: Owner, c: Channel)
    requires c.guild == o.0
    ensures var e := After(START, Finding(o, [Create(o, Lost(c))] + []));
            e.Some? && Orphaned(e.value, c)
  {
    Finds(START, o, [Create(o, Lost(c))] + []);
    assert Leave(Make(GoTo(START, o, Ready), c), o) == Make(START, c);
    Steps(GoTo(START, o, Ready), Create(o, Lost(c)), Make(START, c), []);
    assert After(Make(START, c), []) == Some(Make(START, c));
  }

  /** A record that fails and a rollback that is refused. */
  lemma RefusedRollbackLosesARoom(o: Owner, c: Channel)
    requires c.guild == o.0
    ensures var e := After(START, Making(o, c, [Create(o, Refused)] + ([Create(o, Refused)] + [])));
            e.Some? && Orphaned(e.value, c)
  {
    var s1 := Make(START, c);
    Makes(START, o, c, [Create(o, Refused)] + ([Create(o, Refused)] + []));
    GoesTo(s1, o, Persist(c), Refused, s1, Rollback(c), [Create(o, Refused)] + []);
    assert Leave(GoTo(s1, o, Rollback(c)), o) == s1;
    Steps(GoTo(s1, o, Rollback(c)), Create(o, Refused), s1, []);
    assert After(s1, []) == Some(s1);
  }

  /** Owner o's room c is served: made, recorded, remembered, entered. */
  function Serving(o: Owner, c: Channel, rest: seq<Action>): seq<Action> {
    Making(o, c, [Create(o, Ok)] + ([Create(o, Ok)] + ([Create(o, Ok)] + rest)))
  }

  function Served(s: State, o: Owner, c: Channel): State {
    Make(s, c).(rows := s.rows[c := o], active := s.active + {c})
  }

  lemma ServesNext(s: State, o: Owner, c: Channel)
    requires !HasRow(s.rows, o) && c !in s.rows
    ensures var s1 := Make(s, c);
            var s2 := s1.(rows := s.rows[c := o]);
            && Next(GoTo(s1, o, Persist(c)), Create(o, Ok)) == Some(GoTo(GoTo(s2, o, Persist(c)), o, Recorded(c)))
            && Next(GoTo(s2, o, Recorded(c)), Create(o, Ok)) == Some(GoTo(GoTo(Served(s, o, c), o, Recorded(c)), o, Move(c)))
  {
    assert Insert(s.rows, c, o) == s.rows[c := o];
  }

  /** A create at its last step leaves the state as it found it. */
  lemma Moves(s: State, o: Owner, c: Channel, rest: seq<Action>)
    requires o !in s.creates
    ensures After(GoTo(s, o, Move(c)), [Create(o, Ok)] + rest) == After(s, rest)
  {
    assert Leave(GoTo(s, o, Move(c)), o) == s;
    Steps(GoTo(s, o, Move(c)), Create(o, Ok), s, rest);
  }

  lemma Serves(s: State, o: Owner, c: Channel, rest: seq<Action>)
    requires o !in s.creates && !HasRow(s.rows, o) && c !in s.made && c !in s.rows && c.guild == o.0
    ensures After(s, Serving(o, c, rest)) == After(Served(s, o, c), rest)
  {
    var s1, s3 := Make(s, c), Served(s, o, c);
    var s2 := s1.(rows := s.rows[c := o]);
    ServesNext(s, o, c);
    hide Next, After, Making;
    var a5 := [Create(o, Ok)] + rest;
    var a4 := [Create(o, Ok)] + a5;
    Makes(s, o, c, [Create(o, Ok)] + a4);
    GoesTo(s1, o, Persist(c), Ok, s2, Recorded(c), a4);
    GoesTo(s2, o, Recorded(c), Ok, s3, Move(c), a5);
    Moves(s3, o, c, rest);
  }

  /** Owner p's create finds no room and makes d; meanwhile p is given room c,
      and the record of d displaces it. */
  lemma TransferLosesARoom(o: Owner, p: Owner, c: Channel, d: Channel)
    requires o != p && c != d && c.guild == o.0 && d.guild == p.0
    ensures var e := After(START, Serving(o, c, Making(p, d, [Transfer(c, p)] + ([Create(p, Ok)] + []))));
            e.Some? && Orphaned(e.value, c)
  {
    var s1 := Served(START, o, c);
    var s2 := Make(s1, d);
    var s3 := s2.(rows := map[c := p]);
    var s4 := s2.(rows := map[d := p]);
    var end := GoTo(s4, p, Recorded(d));
    var tail := [Transfer(c, p)] + ([Create(p, Ok)] + []);
    Given(GoTo(s2, p, Persist(d)), c, p);
    Displaced(s3, c, p, d);
    assert After(end, []) == Some(end) && s1.rows == map[c := o] && !HasRow(s1.rows, p);
    assert GoTo(s2, p, Persist(d)).(rows := map[c := p]) == GoTo(s3, p, Persist(d));
    assert Orphaned(end, c);
    hide Next, After, Serving, Making, Orphaned;
    Serves(START, o, c, Making(p, d, tail));
    Makes(s1, p, d, tail);
    Steps(GoTo(s2, p, Persist(d)), Transfer(c, p), GoTo(s3, p, Persist(d)), [Create(p, Ok)] + []);
    GoesTo(s3, p, Persist(d), Ok, s4, Recorded(d), []);
  }

  lemma Given(s: State, c: Channel, p: Owner)
    requires s.rows.Keys == {c}
    ensures Next(s, Transfer(c, p)) == Some(s.(rows := map[c := p]))
  {
    assert s.rows - {c} == map[] && s.rows[c := p] == map[c := p];
  }

  lemma Displaced(s: State, c: Channel, p: Owner, d: Channel)
    requires s.rows == map[c := p] && c != d
    ensures Next(GoTo(s, p, Persist(d)), Create(p, Ok))
            == Some(GoTo(GoTo(s.(rows := map[d := p]), p, Persist(d)), p, Recorded(d)))
  {
    assert Insert(s.rows, d, p) == map[d := p];
  }
}
