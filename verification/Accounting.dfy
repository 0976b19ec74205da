/** Exactly-once accounting: the room_created counter against the intents. */
module Accounting {
  import opened Common
  import opened Tables
  import opened Protocol
  import opened ProtocolInvariant
  import opened ProtocolSteps
  import opened ProtocolTheorems
  import opened Transactions
  import opened StoreRuns

  ghost function Counted(n: map<IntentId, Intent>): set<IntentId> {
    set i | i in n && n[i].completed.Some?
  }

  ghost predicate Balanced(t: Tables) {
    t.created == |Counted(t.intents)|
  }

  /** A counted intent is never in the phase that `complete` looks for. */
  ghost predicate CountedAreOver(n: map<IntentId, Intent>) {
    forall i | i in n && n[i].completed.Some? :: n[i].phase != Moved
  }

  lemma CompleteKeepsBalance(t: Tables, i: IntentId, now: real)
    requires Balanced(t) && CountedAreOver(t.intents)
    ensures Balanced(Complete(t, i, now))
  {
    if i in t.intents && t.intents[i].phase == Moved {
      assert Counted(Complete(t, i, now).intents) == Counted(t.intents) + {i};
    }
  }

  lemma InsertKeepsBalance(t: Tables, row: Join, now: real)
    requires Balanced(t) && IdsMinted(t)
    ensures Balanced(InsertIntent(t, row, now))
  {
    assert Counted(InsertIntent(t, row, now).intents) == Counted(t.intents);
  }

  ghost predicate SameStamps(n: map<IntentId, Intent>, m: map<IntentId, Intent>) {
    m.Keys == n.Keys && forall i | i in n :: m[i].completed == n[i].completed
  }

  lemma OthersKeepStamps(t: Tables, op: Op, now: real)
    requires !op.OpComplete? && !op.OpIntent?
    ensures SameStamps(t.intents, Commit(t, op, now).intents) && Commit(t, op, now).created == t.created
  {
    hide OthersClosed, OwnerFree, Full;
  }

  lemma CommitKeepsBalance(t: Tables, op: Op, now: real)
    requires Balanced(t) && IdsMinted(t) && CountedAreOver(t.intents)
    ensures Balanced(Commit(t, op, now))
  {
    if op.OpComplete? {
      CompleteKeepsBalance(t, op.i, now);
    } else if op.OpIntent? {
      InsertKeepsBalance(t, op.row, now);
    } else {
      OthersKeepStamps(t, op, now);
      assert Counted(Commit(t, op, now).intents) == Counted(t.intents);
    }
  }

  lemma CommitKeepsStamp(t: Tables, op: Op, now: real, i: IntentId)
    requires IdsMinted(t) && CountedAreOver(t.intents)
    requires i in t.intents && t.intents[i].completed.Some?
    ensures i in Commit(t, op, now).intents && Commit(t, op, now).intents[i].completed == t.intents[i].completed
  {
    if !op.OpComplete? && !op.OpIntent? {
      OthersKeepStamps(t, op, now);
    }
  }

  lemma CoreIsCountable(s: State)
    requires Core(s)
    ensures IdsMinted(s.t) && CountedAreOver(s.t.intents)
  {
    forall i | i in s.t.intents && s.t.intents[i].completed.Some? ensures s.t.intents[i].phase != Moved {
      IntentOkAt(s, i);
    }
  }

  lemma StepKeepsBalance(s: State, a: Action)
    requires Core(s) && Balanced(s.t) && Next(s, a).Some?
    ensures Balanced(Next(s, a).value.t)
  {
    hide Core, Next, TxOf, Commit, Balanced;
    CoreIsCountable(s);
    ActionIsOneTransaction(s, a);
    if TxOf(s, a).Some? {
      CommitKeepsBalance(s.t, TxOf(s, a).value, s.clock);
    }
  }

  lemma StepKeepsStamp(s: State, a: Action, i: IntentId)
    requires Core(s) && Next(s, a).Some? && i in s.t.intents && s.t.intents[i].completed.Some?
    ensures i in Next(s, a).value.t.intents && Next(s, a).value.t.intents[i].completed == s.t.intents[i].completed
  {
    hide Core, Next, TxOf, Commit;
    CoreIsCountable(s);
    ActionIsOneTransaction(s, a);
    if TxOf(s, a).Some? {
      CommitKeepsStamp(s.t, TxOf(s, a).value, s.clock, i);
    }
  }

  lemma {:induction false} BalanceAlways(s: State, acts: seq<Action>)
    requires Core(s) && Balanced(s.t) && After(s, acts).Some?
    ensures Balanced(Final(s, acts).t)
    decreases |acts|
  {
    hide Core, Next, Balanced;
    if acts != [] {
      StepKeepsCore(s, acts[0]);
      StepKeepsBalance(s, acts[0]);
      BalanceAlways(Next(s, acts[0]).value, acts[1..]);
    }
  }

  /** The counter is the number of intents with a completion stamp, in every
      run, even when a handler overwrites a completed phase. */
  lemma CountedExactlyOnce(s: State, acts: seq<Action>)
    requires Init(s) && After(s, acts).Some?
    ensures var t := Final(s, acts).t;
            t.created == |set i | i in t.intents && t.intents[i].completed.Some?|
  {
    InitIsCore(s);
    assert Counted(s.t.intents) == {};
    BalanceAlways(s, acts);
    assert Counted(Final(s, acts).t.intents)
        == set i | i in Final(s, acts).t.intents && Final(s, acts).t.intents[i].completed.Some?;
  }

  /** And no intent completes twice: a stamp, once written, never changes. */
  lemma {:induction false} CompletedOnlyOnce(s: State, acts: seq<Action>, i: IntentId)
    requires Core(s) && After(s, acts).Some? && i in s.t.intents && s.t.intents[i].completed.Some?
    ensures i in Final(s, acts).t.intents && Final(s, acts).t.intents[i].completed == s.t.intents[i].completed
    decreases |acts|
  {
    hide Core, Next;
    if acts != [] {
      StepKeepsCore(s, acts[0]);
      StepKeepsStamp(s, acts[0], i);
      CompletedOnlyOnce(Next(s, acts[0]).value, acts[1..], i);
    }
  }
}
