/** The per-owner lock table of create_temp_room (services/temp_channels.py):
    an entry is a lock and the number of tasks that use or await it. */
module CreationLocks {
  import opened Common

  type Owner = (Guild, User)
  datatype Entry = Entry(lock: nat, count: int)

  /** `uses` is what each task inside create_temp_room holds on to. */
  datatype Locks = Locks(table: map<Owner, Entry>, uses: map<nat, (Owner, nat)>, created: nat)

  datatype Action = Enter(task: nat, o: Owner) | Exit(task: nat)

  function Next(s: Locks, a: Action): Option<Locks> {
    match a
    case Enter(task, o) =>
      if task in s.uses then None
      else
        var first := o !in s.table;
        var e := if first then Entry(s.created, 0) else s.table[o];
        Some(Locks(s.table[o := e.(count := e.count + 1)], s.uses[task := (o, e.lock)],
                   if first then s.created + 1 else s.created))
    case Exit(task) =>
      if task !in s.uses then None
      else
        var o := s.uses[task].0;
        var e := if o in s.table then s.table[o].(count := s.table[o].count - 1) else Entry(s.uses[task].1, -1);
        Some(Locks(if e.count <= 0 then s.table - {o} else s.table[o := e], s.uses - {task}, s.created))
  }

  function Users(uses: map<nat, (Owner, nat)>, o: Owner): set<nat> {
    set t | t in uses.Keys && uses[t].0 == o
  }

  ghost predicate Inv(s: Locks) {
    && (forall t | t in s.uses :: s.uses[t].0 in s.table && s.uses[t].1 == s.table[s.uses[t].0].lock)
    && (forall o | o in s.table :: s.table[o].count == |Users(s.uses, o)| > 0)
  }

  lemma OneMoreUser(uses: map<nat, (Owner, nat)>, task: nat, o: Owner, lock: nat, p: Owner)
    requires task !in uses
    ensures |Users(uses[task := (o, lock)], p)| == |Users(uses, p)| + (if p == o then 1 else 0)
  {
    assert Users(uses[task := (o, lock)], p) == if p == o then Users(uses, o) + {task} else Users(uses, p);
  }

  lemma EnterKeeps(s: Locks, task: nat, o: Owner)
    requires Inv(s) && task !in s.uses
    ensures Inv(Next(s, Enter(task, o)).value)
  {
    var s' := Next(s, Enter(task, o)).value;
    if o !in s.table {
      NobodyUses(s, o);
    }
    forall p | p in s'.table ensures s'.table[p].count == |Users(s'.uses, p)| > 0 {
      OneMoreUser(s.uses, task, o, s'.uses[task].1, p);
    }
    hide Users;
  }

  lemma NobodyUses(s: Locks, o: Owner)
    requires Inv(s) && o !in s.table
    ensures Users(s.uses, o) == {}
  {
  }

  lemma ExitKeeps(s: Locks, task: nat)
    requires Inv(s) && task in s.uses
    ensures Inv(Next(s, Exit(task)).value)
  {
    var s' := Next(s, Exit(task)).value;
    var o := s.uses[task].0;
    forall p | p in s.table ensures |Users(s'.uses, p)| == |Users(s.uses, p)| - (if p == o then 1 else 0) {
      assert Users(s'.uses, p) == if p == o then Users(s.uses, o) - {task} else Users(s.uses, p);
    }
    forall t | t in s'.uses ensures s'.uses[t].0 in s'.table {
      assert t in Users(s'.uses, s'.uses[t].0);
    }
  }

  function After(s: Locks, acts: seq<Action>): Option<Locks>
    decreases |acts|
  {
    if acts == [] then Some(s)
    else
      var s' := Next(s, acts[0]);
      if s'.None? then None else After(s'.value, acts[1..])
  }

  lemma {:induction false} InvAlways(s: Locks, acts: seq<Action>)
    requires Inv(s) && After(s, acts).Some?
    ensures Inv(After(s, acts).value)
    decreases |acts|
  {
    hide Inv, Next;
    if acts != [] {
      if acts[0].Enter? {
        EnterAble(s, acts[0].task, acts[0].o);
        EnterKeeps(s, acts[0].task, acts[0].o);
      } else {
        ExitAble(s, acts[0].task);
        ExitKeeps(s, acts[0].task);
      }
      InvAlways(Next(s, acts[0]).value, acts[1..]);
    }
  }

  lemma EnterAble(s: Locks, task: nat, o: Owner)
    ensures Next(s, Enter(task, o)).Some? <==> task !in s.uses
  {
  }

  lemma ExitAble(s: Locks, task: nat)
    ensures Next(s, Exit(task)).Some? <==> task in s.uses
  {
  }

  /** Two creates for one owner always contend for the same lock, however the
      table's entries come and go; and an entry is kept only while it is used. */
  lemma SameOwnerSameLock(acts: seq<Action>)
    requires After(Locks(map[], map[], 0), acts).Some?
    ensures var s := After(Locks(map[], map[], 0), acts).value;
            && (forall t, x | t in s.uses && x in s.uses && s.uses[t].0 == s.uses[x].0 :: s.uses[t].1 == s.uses[x].1)
            && (forall o :: o in s.table <==> exists t :: t in s.uses && s.uses[t].0 == o)
  {
    InvAlways(Locks(map[], map[], 0), acts);
    var s := After(Locks(map[], map[], 0), acts).value;
    forall o | o in s.table ensures exists t :: t in s.uses && s.uses[t].0 == o {
      var t :| t in Users(s.uses, o);
    }
  }
}
