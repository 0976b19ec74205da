/** The older create, cleanup and reconcile path (services/temp_channels.py,
    storage.py) as a step relation: creates serialised per owner, sweeps of any
    room at any time, transfers to anyone, restarts at any point, and every
    Discord call free to be refused or, for the create, to be lost. */
module LegacyRooms {
  import opened Common

  type Owner = (Guild, User)

  /** Where a create for one owner stands. */
  datatype Pc =
    | Resolve
    | Fetch(room: Channel)
    | DeleteOld(room: Channel)
    | Forget(room: Channel)
    | Ready
    | Persist(room: Channel)
    | Recorded(room: Channel)
    | Rollback(room: Channel)
    | Move(room: Channel)
    | RollbackMove(room: Channel)
    | Unrecord(room: Channel)

  /** cleanup_temp_channel and _reconcile_row on one room. */
  datatype Sweep = Looking(room: Channel) | Deleting(room: Channel) | Dropping(room: Channel)

  /** A reconcile pass: the ids before it, the rows left, the rooms kept. */
  datatype Pass = Idle | Begun(before: set<Channel>) | Listed(before: set<Channel>, todo: set<Channel>, kept: set<Channel>)

  datatype State = State(rows: map<Channel, Owner>, made: set<Channel>, live: set<Channel>, active: set<Channel>,
                         creates: map<Owner, Pc>, sweeps: map<nat, Sweep>, pass: Pass,
                         voice: map<Owner, Channel>)

  datatype Reply = Ok | Gone | Refused | Full | Empty | Made(c: Channel) | Lost(c: Channel)

  datatype Action =
    | Lobby(o: Owner)
    | Create(o: Owner, r: Reply)
    | StartSweep(w: nat, c: Channel)
    | SweepStep(w: nat, r: Reply)
    | PassStep(c: Channel, remains: bool)
    | Vanish(c: Channel)
    | Enter(o: Owner, to: Option<Channel>)
    | Transfer(c: Channel, o: Owner)
    | Restart

  /** Nobody is in the room. */
  predicate Vacated(s: State, c: Channel) {
    forall o | o in s.voice.Keys :: s.voice[o] != c
  }

  predicate HasRow(rows: map<Channel, Owner>, o: Owner) {
    exists c :: c in rows.Keys && rows[c] == o
  }

  /** insert or replace: the unique owner index makes it drop other rows. */
  function Insert(rows: map<Channel, Owner>, c: Channel, o: Owner): map<Channel, Owner> {
    (map d | d in rows && rows[d] != o :: rows[d])[c := o]
  }

  function GoTo(s: State, o: Owner, pc: Pc): State {
    s.(creates := s.creates[o := pc])
  }

  /** The create returns or raises, and its lock is free again. */
  function Leave(s: State, o: Owner): State {
    s.(creates := s.creates - {o})
  }

  function Drop(s: State, c: Channel): State {
    s.(rows := s.rows - {c}, active := s.active - {c})
  }

  /** delete_managed_channel: deleted, already gone, or still there. */
  function Delete(s: State, c: Channel, r: Reply): Option<State> {
    match r
    case Ok => Some(s.(live := s.live - {c}))
    case Gone => if c in s.live then None else Some(s)
    case _ => None
  }

  predicate Looks(pc: Pc) {
    pc.Resolve? || pc.Fetch? || pc.DeleteOld? || pc.Forget?
  }

  /** resolve_existing_owned_channel */
  ghost function LookNext(s: State, o: Owner, pc: Pc, r: Reply): Option<State>
    requires Looks(pc)
  {
    match pc
    case Resolve =>
      if r != Ok then Some(Leave(s, o))
      else if HasRow(s.rows, o) then (var c :| c in s.rows && s.rows[c] == o; Some(GoTo(s, o, Fetch(c))))
      else Some(GoTo(s, o, Ready))
    case Fetch(c) =>
      (match r
       case Gone => if c in s.live then None else Some(GoTo(s, o, Forget(c)))
       case Empty => if Vacated(s, c) then Some(GoTo(s, o, DeleteOld(c))) else None
       case Full => if Vacated(s, c) then None else Some(Leave(s, o))
       case Refused => Some(Leave(s, o))
       case _ => None)
    case DeleteOld(c) =>
      if r == Refused then Some(Leave(s, o))
      else if Delete(s, c, r).Some? then Some(GoTo(Delete(s, c, r).value, o, Forget(c))) else None
    case Forget(c) => if r == Ok then Some(GoTo(Drop(s, c), o, Ready)) else Some(Leave(s, o))
  }

  /** The create itself, its record, the move and what undoes them. */
  function MakeNext(s: State, o: Owner, pc: Pc, r: Reply): Option<State>
    requires !Looks(pc)
  {
    match pc
    case Ready =>
      (match r
       case Made(c) =>
         if c in s.made || c.guild != o.0 then None
         else Some(GoTo(s.(made := s.made + {c}, live := s.live + {c}), o, Persist(c)))
       case Lost(c) =>
         // The create raised although Discord had made the channel.
         if c in s.made || c.guild != o.0 then None
         else Some(Leave(s.(made := s.made + {c}, live := s.live + {c}), o))
       case Refused => Some(Leave(s, o))
       case _ => None)
    case Persist(c) =>
      if r == Ok then Some(GoTo(s.(rows := Insert(s.rows, c, o)), o, Recorded(c)))
      else if r == Refused then Some(GoTo(s, o, Rollback(c)))
      else None
    case Recorded(c) => if r == Ok then Some(GoTo(s.(active := s.active + {c}), o, Move(c))) else None
    case Rollback(c) =>
      if r == Refused then Some(Leave(s, o))
      else if Delete(s, c, r).Some? then Some(Leave(Delete(s, c, r).value, o)) else None
    case Move(c) =>
      if r == Ok then Some(Leave(s, o)) else if r == Refused then Some(GoTo(s, o, RollbackMove(c))) else None
    case RollbackMove(c) =>
      if r == Refused then Some(Leave(s, o))
      else if Delete(s, c, r).Some? then Some(GoTo(Delete(s, c, r).value, o, Unrecord(c))) else None
    case Unrecord(c) => if r == Ok then Some(Leave(Drop(s, c), o)) else Some(Leave(s, o))
  }

  ghost function CreateNext(s: State, o: Owner, pc: Pc, r: Reply): Option<State> {
    if Looks(pc) then LookNext(s, o, pc, r) else MakeNext(s, o, pc, r)
  }

  function SweepNext(s: State, w: nat, sweep: Sweep, r: Reply): Option<State> {
    var stopped := s.(sweeps := s.sweeps - {w});
    match sweep
    case Looking(c) =>
      (match r
       case Gone => if c in s.live then None else Some(s.(sweeps := s.sweeps[w := Dropping(c)]))
       case Empty => if Vacated(s, c) then Some(s.(sweeps := s.sweeps[w := Deleting(c)])) else None
       case _ => Some(stopped))
    case Deleting(c) =>
      if r == Refused then Some(stopped)
      else if Delete(s, c, r).Some? then Some(Delete(s, c, r).value.(sweeps := s.sweeps[w := Dropping(c)])) else None
    case Dropping(c) =>
      // A reconcile pass leaves the remembered set to its own end.
      if r == Ok then Some(Drop(stopped, c))
      else if r == Empty then Some(stopped.(rows := s.rows - {c}))
      else Some(stopped)
  }

  /** The loop of reconcile_active_temp_channels around its rows. */
  function PassNext(s: State, c: Channel, remains: bool): Option<State> {
    match s.pass
    case Idle => Some(s.(pass := Begun(s.active)))
    case Begun(before) => Some(s.(pass := Listed(before, s.rows.Keys, {})))
    case Listed(before, todo, kept) =>
      if todo == {} then Some(s.(pass := Idle, active := kept + (s.active - before)))
      else if c in todo && (!remains ==> c !in s.rows)
      then Some(s.(pass := Listed(before, todo - {c}, if remains then kept + {c} else kept)))
      else None
  }

  ghost function Next(s: State, a: Action): Option<State> {
    match a
    case Lobby(o) => if o in s.creates then None else Some(GoTo(s, o, Resolve))
    case Create(o, r) => if o in s.creates then CreateNext(s, o, s.creates[o], r) else None
    case StartSweep(w, c) => if w in s.sweeps || c !in s.rows then None else Some(s.(sweeps := s.sweeps[w := Looking(c)]))
    case SweepStep(w, r) => if w in s.sweeps then SweepNext(s, w, s.sweeps[w], r) else None
    case PassStep(c, remains) => PassNext(s, c, remains)
    case Vanish(c) => Some(s.(live := s.live - {c}))
    case Enter(o, to) => Some(s.(voice := if to.Some? then s.voice[o := to.value] else s.voice - {o}))
    case Transfer(c, o) =>
      // The index refuses a second room; a create in progress is not looked at.
      if c in s.rows && !HasRow(s.rows - {c}, o) then Some(s.(rows := s.rows[c := o])) else None
    case Restart => Some(s.(creates := map[], sweeps := map[], pass := Idle, active := s.rows.Keys))
  }

  /** The create made channel c and has neither recorded nor deleted it. */
  predicate Holds(pc: Pc, c: Channel) {
    pc == Persist(c) || pc == Rollback(c)
  }

  ghost predicate Init(s: State) {
    s == State(map[], {}, {}, {}, map[], map[], Idle, s.voice)
  }

  ghost function After(s: State, acts: seq<Action>): Option<State>
    decreases |acts|
  {
    if acts == [] then Some(s)
    else
      var s' := Next(s, acts[0]);
      if s'.None? then None else After(s'.value, acts[1..])
  }

  // ---- the invariant -----------------------------------------------------------

  /** Neither remembered nor known to the pass in progress. */
  predicate Unseen(s: State, c: Channel) {
    c !in s.active && (s.pass != Idle ==> c !in s.pass.before) && (s.pass.Listed? ==> c !in s.pass.todo + s.pass.kept)
  }

  predicate CreateOk(s: State, pc: Pc) {
    match pc
    case Resolve => true
    case Fetch(c) => c in s.made
    case DeleteOld(c) => c in s.made
    case Forget(c) => c !in s.live && c in s.made
    case Ready => true
    case Persist(c) => c in s.made && c !in s.rows && Unseen(s, c)
    case Recorded(c) => c in s.made
    case Rollback(c) => c in s.made && c !in s.rows && Unseen(s, c)
    case Move(c) => c in s.made
    case RollbackMove(c) => c in s.made
    case Unrecord(c) => c !in s.live && c in s.made
  }

  /** The create made channel c and is not done with its record. */
  predicate Mine(pc: Pc, c: Channel) {
    Holds(pc, c) || pc == Recorded(c)
  }

  /** One row per owner, and one create per channel in the making. */
  ghost predicate Unique(s: State) {
    && (forall c, d | c in s.rows && d in s.rows && c != d :: s.rows[c] != s.rows[d])
    && (forall o, p, c | o in s.creates && p in s.creates && Mine(s.creates[o], c) && Mine(s.creates[p], c) :: o == p)
  }

  ghost predicate CreatesOk(s: State) {
    forall o | o in s.creates :: CreateOk(s, s.creates[o])
  }

  ghost predicate SweepsOk(s: State) {
    forall w | w in s.sweeps :: s.sweeps[w].room in s.made && (s.sweeps[w].Dropping? ==> s.sweeps[w].room !in s.live)
  }

  /** A create has recorded channel c and is about to remember it. */
  ghost predicate Recording(creates: map<Owner, Pc>, c: Channel) {
    exists o :: o in creates && creates[o] == Recorded(c)
  }

  ghost predicate Remembered(s: State) {
    && (forall c | c in s.rows :: c in s.active || Recording(s.creates, c))
    && s.rows.Keys <= s.made && s.live <= s.made && s.active <= s.made
  }

  /** The pass in progress will not forget a recorded room. */
  ghost predicate PassOk(s: State) {
    && (s.pass != Idle ==> s.pass.before <= s.made)
    && (s.pass.Listed? ==>
          && s.pass.todo + s.pass.kept <= s.made
          && forall c | c in s.rows ::
               c in s.pass.todo + s.pass.kept || (c !in s.pass.before && (c in s.active || Recording(s.creates, c))))
  }

  ghost predicate Inv(s: State) {
    Unique(s) && CreatesOk(s) && SweepsOk(s) && Remembered(s) && PassOk(s)
  }

  // ---- effects -----------------------------------------------------------------

  /** Another create's facts survive whatever revives no channel and neither
      records nor remembers one of its own. */
  lemma OthersStayOk(s: State, s': State, o: Owner)
    requires o in s.creates && CreateOk(s, s.creates[o])
    requires s.made <= s'.made && forall c | c in s.made && c !in s.live :: c !in s'.live
    requires forall c | Holds(s.creates[o], c) :: (c !in s.active ==> c !in s'.active) && (c !in s.rows ==> c !in s'.rows)
    requires s'.pass == s.pass
    ensures CreateOk(s', s.creates[o])
  {
  }

  /** Creates that stand elsewhere still record what they record. */
  lemma RecordingStays(creates: map<Owner, Pc>, o: Owner, pc: Pc, c: Channel)
    requires Recording(creates, c) && !(o in creates && creates[o] == Recorded(c))
    ensures Recording(creates[o := pc], c) && Recording(creates - {o}, c)
  {
    var p :| p in creates && creates[p] == Recorded(c);
    assert creates[o := pc][p] == Recorded(c) && (creates - {o})[p] == Recorded(c);
  }

  /** Nothing that was remembered or being recorded is lost on the way. */
  lemma RecordsStay(s: State, o: Owner, pc: Pc)
    requires o in s.creates ==> !s.creates[o].Recorded?
    ensures forall c | Recording(s.creates, c) :: Recording(s.creates[o := pc], c) && Recording(s.creates - {o}, c)
  {
    forall c | Recording(s.creates, c) ensures Recording(s.creates[o := pc], c) && Recording(s.creates - {o}, c) {
      RecordingStays(s.creates, o, pc, c);
    }
  }

  /** A create moves on, or leaves, and nothing else changes. */
  lemma MoveOnKeeps(s: State, s': State, o: Owner)
    requires Inv(s) && o in s.creates && s' == s.(creates := s'.creates) && !s.creates[o].Recorded?
    requires s'.creates == s.creates - {o} || (o in s'.creates && s'.creates == s.creates[o := s'.creates[o]])
    requires o in s'.creates ==> CreateOk(s, s'.creates[o]) && forall c :: !Mine(s'.creates[o], c) || Mine(s.creates[o], c)
    ensures Inv(s')
  {
    RecordsStay(s, o, if o in s'.creates then s'.creates[o] else Resolve);
    forall p | p in s'.creates ensures CreateOk(s', s'.creates[p]) {
      if p != o {
        OthersStayOk(s, s', p);
      }
    }
  }

  /** A channel stops existing. */
  lemma VanishKeeps(s: State, c: Channel)
    requires Inv(s)
    ensures Inv(s.(live := s.live - {c}))
  {
    var s' := s.(live := s.live - {c});
    forall p | p in s'.creates ensures CreateOk(s', s'.creates[p]) {
      OthersStayOk(s, s', p);
    }
  }

  lemma EnterKeeps(s: State, s': State)
    requires Inv(s) && s' == s.(voice := s'.voice)
    ensures Inv(s')
  {
    forall p | p in s'.creates ensures CreateOk(s', s'.creates[p]) {
      OthersStayOk(s, s', p);
    }
  }

  /** The record of a dead channel goes. */
  lemma DropKeeps(s: State, c: Channel, forget: bool)
    requires Inv(s) && c !in s.live
    ensures Inv(s.(rows := s.rows - {c}, active := if forget then s.active - {c} else s.active))
  {
    var s' := s.(rows := s.rows - {c}, active := if forget then s.active - {c} else s.active);
    forall p | p in s'.creates ensures CreateOk(s', s'.creates[p]) {
      OthersStayOk(s, s', p);
    }
  }

  lemma SweepGoesOn(s: State, w: nat, sweep: Sweep)
    requires Inv(s) && sweep.room in s.made && (sweep.Dropping? ==> sweep.room !in s.live)
    ensures Inv(s.(sweeps := s.sweeps[w := sweep])) && Inv(s.(sweeps := s.sweeps - {w}))
  {
    var s1, s2 := s.(sweeps := s.sweeps[w := sweep]), s.(sweeps := s.sweeps - {w});
    forall p | p in s.creates ensures CreateOk(s1, s.creates[p]) && CreateOk(s2, s.creates[p]) {
      OthersStayOk(s, s1, p);
      OthersStayOk(s, s2, p);
    }
  }

  lemma MakeKeeps(s: State, o: Owner, c: Channel)
    requires Inv(s) && o in s.creates && s.creates[o] == Ready && c !in s.made
    ensures Inv(GoTo(s.(made := s.made + {c}, live := s.live + {c}), o, Persist(c)))
    ensures Inv(Leave(s.(made := s.made + {c}, live := s.live + {c}), o))
  {
    RecordsStay(s, o, Persist(c));
    var s' := GoTo(s.(made := s.made + {c}, live := s.live + {c}), o, Persist(c));
    forall p | p in s'.creates ensures CreateOk(s', s'.creates[p]) {
      if p != o {
        OthersStayOk(s, s', p);
      }
    }
    forall p, d | p in s.creates && Mine(s.creates[p], d) ensures d != c {
      assert CreateOk(s, s.creates[p]);
    }
  }

  lemma PersistKeeps(s: State, o: Owner, c: Channel)
    requires Inv(s) && o in s.creates && s.creates[o] == Persist(c)
    ensures Inv(GoTo(s.(rows := Insert(s.rows, c, o)), o, Recorded(c)))
    ensures c !in s.rows
  {
    RecordsStay(s, o, Recorded(c));
    var s' := GoTo(s.(rows := Insert(s.rows, c, o)), o, Recorded(c));
    assert Recording(s'.creates, c) by {
      assert s'.creates[o] == Recorded(c);
    }
    forall p | p in s'.creates ensures CreateOk(s', s'.creates[p]) {
      if p != o {
        assert !Mine(s.creates[p], c);
        OthersStayOk(s, s', p);
      }
    }
  }

  /** The create remembers what it has recorded. */
  lemma RememberKeeps(s: State, o: Owner, c: Channel)
    requires Inv(s) && o in s.creates && s.creates[o] == Recorded(c)
    ensures Inv(GoTo(s.(active := s.active + {c}), o, Move(c)))
  {
    var s' := GoTo(s.(active := s.active + {c}), o, Move(c));
    assert CreateOk(s, Recorded(c));
    forall d | Recording(s.creates, d) && d != c ensures Recording(s'.creates, d) {
      RecordingStays(s.creates, o, Move(c), d);
    }
    forall p | p in s'.creates ensures CreateOk(s', s'.creates[p]) {
      if p != o {
        assert !Mine(s.creates[p], c);
        OthersStayOk(s, s', p);
      }
    }
  }

  lemma TransferKeeps(s: State, c: Channel, o: Owner)
    requires Inv(s) && Next(s, Transfer(c, o)).Some?
    ensures Inv(Next(s, Transfer(c, o)).value)
  {
    var s' := s.(rows := s.rows[c := o]);
    assert forall d | d in s.rows && d != c :: d in s.rows - {c} && (s.rows - {c})[d] != o;
    forall p | p in s'.creates ensures CreateOk(s', s'.creates[p]) {
      OthersStayOk(s, s', p);
    }
  }

  lemma PassKeepsCreates(s: State, c: Channel, remains: bool)
    requires Inv(s) && PassNext(s, c, remains).Some?
    ensures CreatesOk(PassNext(s, c, remains).value)
  {
    var s' := PassNext(s, c, remains).value;
    forall p | p in s'.creates ensures CreateOk(s', s'.creates[p]) {
      assert CreateOk(s, s.creates[p]);
    }
  }

  lemma PassKeeps(s: State, c: Channel, remains: bool)
    requires Inv(s) && PassNext(s, c, remains).Some?
    ensures Inv(PassNext(s, c, remains).value)
  {
    PassKeepsCreates(s, c, remains);
    PassStaysOk(s, c, remains);
    hide CreatesOk, PassOk, Unseen, Recording;
  }

  lemma PassStaysOk(s: State, c: Channel, remains: bool)
    requires Remembered(s) && PassOk(s) && PassNext(s, c, remains).Some?
    ensures PassOk(PassNext(s, c, remains).value)
  {
    hide Recording;
  }

  lemma DeleteKeeps(s: State, c: Channel, r: Reply)
    requires Inv(s) && Delete(s, c, r).Some?
    ensures Inv(Delete(s, c, r).value) && c !in Delete(s, c, r).value.live
    ensures Delete(s, c, r).value == s.(live := s.live - {c})
  {
    VanishKeeps(s, c);
    if r == Gone {
      assert s.live - {c} == s.live;
    }
  }

  lemma DeleteThenKeeps(s: State, o: Owner, c: Channel, r: Reply)
    requires Inv(s) && o in s.creates && Delete(s, c, r).Some?
    requires s.creates[o] == DeleteOld(c) || s.creates[o] == RollbackMove(c) || s.creates[o] == Rollback(c)
    ensures s.creates[o] == DeleteOld(c) ==> Inv(GoTo(Delete(s, c, r).value, o, Forget(c)))
    ensures s.creates[o] == RollbackMove(c) && c in s.made ==> Inv(GoTo(Delete(s, c, r).value, o, Unrecord(c)))
    ensures s.creates[o] == Rollback(c) ==> Inv(Leave(Delete(s, c, r).value, o))
  {
    DeleteKeeps(s, c, r);
    var d := Delete(s, c, r).value;
    assert CreateOk(s, s.creates[o]) && CreateOk(d, d.creates[o]);
    hide Inv, CreateOk;
    if s.creates[o] == DeleteOld(c) {
      assert CreateOk(d, Forget(c)) by { ForgetOk(d, c); }
      MoveOnKeeps(d, GoTo(d, o, Forget(c)), o);
    } else if s.creates[o] == Rollback(c) {
      MoveOnKeeps(d, Leave(d, o), o);
    } else if c in s.made {
      assert CreateOk(d, Unrecord(c)) by { UnrecordOk(d, c); }
      MoveOnKeeps(d, GoTo(d, o, Unrecord(c)), o);
    }
  }

  lemma ForgetOk(s: State, c: Channel)
    requires CreateOk(s, DeleteOld(c)) && c !in s.live
    ensures CreateOk(s, Forget(c))
  {
  }

  lemma UnrecordOk(s: State, c: Channel)
    requires c in s.made && c !in s.live
    ensures CreateOk(s, Unrecord(c))
  {
  }

  lemma ResolveKeeps(s: State, o: Owner, r: Reply)
    requires Inv(s) && o in s.creates && s.creates[o] == Resolve
    ensures Inv(CreateNext(s, o, Resolve, r).value)
  {
    var s' := CreateNext(s, o, Resolve, r).value;
    MoveOnKeeps(s, s', o);
  }

  lemma ForgetKeeps(s: State, o: Owner, c: Channel, r: Reply)
    requires Inv(s) && o in s.creates && (s.creates[o] == Forget(c) || s.creates[o] == Unrecord(c))
    ensures Inv(CreateNext(s, o, s.creates[o], r).value)
  {
    assert CreateOk(s, s.creates[o]);
    if r == Ok {
      DropKeeps(s, c, true);
      MoveOnKeeps(Drop(s, c), CreateNext(s, o, s.creates[o], r).value, o);
    } else {
      MoveOnKeeps(s, Leave(s, o), o);
    }
  }

  lemma CreateKeeps(s: State, o: Owner, r: Reply)
    requires Inv(s) && o in s.creates && CreateNext(s, o, s.creates[o], r).Some?
    ensures Inv(CreateNext(s, o, s.creates[o], r).value)
  {
    var pc := s.creates[o];
    var s' := CreateNext(s, o, pc, r).value;
    assert CreateOk(s, pc);
    if pc.Resolve? {
      ResolveKeeps(s, o, r);
    } else if pc.Forget? || pc.Unrecord? {
      ForgetKeeps(s, o, pc.room, r);
    } else if pc.Ready? && (r.Made? || r.Lost?) {
      MakeKeeps(s, o, r.c);
    } else if pc.Persist? && r == Ok {
      PersistKeeps(s, o, pc.room);
    } else if pc.Recorded? {
      RememberKeeps(s, o, pc.room);
    } else if (pc.DeleteOld? || pc.Rollback? || pc.RollbackMove?) && r != Refused {
      RollbackMoveIsMade(s, o);
      DeleteThenKeeps(s, o, pc.room, r);
    } else {
      MoveOnKeeps(s, s', o);
    }
  }

  lemma RollbackMoveIsMade(s: State, o: Owner)
    requires Inv(s) && o in s.creates
    ensures s.creates[o].RollbackMove? || s.creates[o].Move? ==> s.creates[o].room in s.made
  {
    assert CreateOk(s, s.creates[o]);
  }

  lemma SweepKeeps(s: State, w: nat, r: Reply)
    requires Inv(s) && w in s.sweeps && SweepNext(s, w, s.sweeps[w], r).Some?
    ensures Inv(SweepNext(s, w, s.sweeps[w], r).value)
  {
    var sweep := s.sweeps[w];
    var c := sweep.room;
    SweepGoesOn(s, w, Deleting(c));
    if sweep.Dropping? {
      DropKeeps(s.(sweeps := s.sweeps - {w}), c, r == Ok);
    } else if sweep.Deleting? && r != Refused {
      DeleteKeeps(s, c, r);
      SweepGoesOn(Delete(s, c, r).value, w, Dropping(c));
    } else if r == Gone {
      SweepGoesOn(s, w, Dropping(c));
    }
  }

  lemma LobbyKeeps(s: State, o: Owner)
    requires Inv(s) && o !in s.creates
    ensures Inv(GoTo(s, o, Resolve))
  {
    RecordsStay(s, o, Resolve);
    var s' := GoTo(s, o, Resolve);
    forall p | p in s'.creates ensures CreateOk(s', s'.creates[p]) {
      if p != o {
        OthersStayOk(s, s', p);
      }
    }
  }

  lemma StepKeepsInv(s: State, a: Action)
    requires Inv(s) && Next(s, a).Some?
    ensures Inv(Next(s, a).value)
  {
    hide Inv, CreateNext, SweepNext, PassNext;
    match a
    case Lobby(o) => LobbyKeeps(s, o);
    case Create(o, r) => CreateKeeps(s, o, r);
    case StartSweep(w, c) =>
      RowsAreMade(s, c);
      SweepGoesOn(s, w, Looking(c));
    case SweepStep(w, r) => SweepKeeps(s, w, r);
    case PassStep(c, remains) => PassKeeps(s, c, remains);
    case Vanish(c) => VanishKeeps(s, c);
    case Enter(o, to) => EnterKeeps(s, Next(s, a).value);
    case Transfer(c, o) => TransferKeeps(s, c, o);
    case Restart => RestartKeeps(s);
  }

  lemma RestartKeeps(s: State)
    requires Inv(s)
    ensures Inv(s.(creates := map[], sweeps := map[], pass := Idle, active := s.rows.Keys))
  {
  }

  lemma RowsAreMade(s: State, c: Channel)
    requires Inv(s) && c in s.rows
    ensures c in s.made
  {
  }

  lemma {:induction false} InvAlways(s: State, acts: seq<Action>)
    requires Inv(s) && After(s, acts).Some?
    ensures Inv(After(s, acts).value)
    decreases |acts|
  {
    hide Inv, Next;
    if acts != [] {
      StepKeepsInv(s, acts[0]);
      InvAlways(Next(s, acts[0]).value, acts[1..]);
    }
  }
}
