/** What a handler writes is a run of the protocol, so a handler that no worker
    step interrupts forgets no room. */
module HandlerRuns {
  import opened Common
  import opened Tables
  import opened Protocol
  import opened ProtocolInvariant
  import opened ProtocolSteps
  import opened ProtocolTheorems
  import opened Tracking
  import opened Handlers

  /** The writes of a handler for the listed intents, from the rows it read. */
  function Writes(n: map<IntentId, Intent>, ids: seq<IntentId>, leaver: Option<User>): seq<Action> {
    if ids == [] || ids[0] !in n then []
    else
      var i := ids[0];
      var c := n[i].channel;
      [CancelIntent(i, n[i].phase)]
      + ((if c.Some? then [AskCleanup(c.value, leaver)] else []) + Writes(n, ids[1..], leaver))
  }

  /** The listed intents are still as the handler read them, and certainly not
      in transmission. */
  ghost predicate Untouched(n: map<IntentId, Intent>, t: Tables, ids: seq<IntentId>) {
    && (forall k | 0 <= k < |ids| :: ids[k] in n && ids[k] in t.intents && t.intents[ids[k]] == n[ids[k]]
                                     && Cancellable(n[ids[k]].phase))
    && (forall k, m | 0 <= k < m < |ids| :: ids[k] != ids[m])
  }

  ghost function Elements(ids: seq<IntentId>): set<IntentId> {
    set i | i in ids
  }

  /** The state after one cancellation and its cleanup request. */
  function Released1(s: State, i: IntentId, leaver: Option<User>): State
    requires i in s.t.intents
  {
    var c := s.t.intents[i].channel;
    var s1 := s.(t := s.t.(intents := WithPhase(s.t.intents, i, Cancelled)));
    if c.Some? then s1.(t := AddCleanup(s1.t, c.value.guild, c.value, leaver)) else s1
  }

  lemma OneWrite(s: State, i: IntentId, leaver: Option<User>, rest: seq<Action>)
    requires s.up && i in s.t.intents && Cancellable(s.t.intents[i].phase)
    ensures var c := s.t.intents[i].channel;
            var acts := [CancelIntent(i, s.t.intents[i].phase)]
                        + ((if c.Some? then [AskCleanup(c.value, leaver)] else []) + rest);
            && After(s, acts) == After(Released1(s, i, leaver), rest)
            && (NoStale(Released1(s, i, leaver), rest) ==> NoStale(s, acts))
  {
    hide AddCleanup;
    var c := s.t.intents[i].channel;
    var s1 := s.(t := s.t.(intents := WithPhase(s.t.intents, i, Cancelled)));
    var more := (if c.Some? then [AskCleanup(c.value, leaver)] else []) + rest;
    var acts := [CancelIntent(i, s.t.intents[i].phase)] + more;
    assert acts[1..] == more && Next(s, acts[0]) == Some(s1);
    if c.Some? {
      assert more[1..] == rest && Next(s1, more[0]) == Some(Released1(s, i, leaver));
    } else {
      assert more == rest;
    }
  }

  lemma OneRelease(t: Tables, s: State, done: set<IntentId>, i: IntentId, leaver: Option<User>)
    requires Released(t, s.t, done, done, leaver) && i in t.intents && i !in done && i in s.t.intents
    requires s.t.intents[i] == t.intents[i]
    requires t.intents[i].channel.Some? ==> t.intents[i].channel.value.guild == t.intents[i].guild
    ensures var s1 := Released1(s, i, leaver);
            && Released(t, s1.t, done + {i}, done + {i}, leaver) && s1.up == s.up && s1.t.joins == s.t.joins
            && s1.t.intents == WithPhase(s.t.intents, i, Cancelled)
  {
    hide CleanupsFor;
    ReleaseOne(t, s.t, done, done, leaver, i);
  }

  lemma {:induction false} WritesRelease(t: Tables, s: State, done: set<IntentId>, ids: seq<IntentId>, leaver: Option<User>)
    requires s.up && Released(t, s.t, done, done, leaver) && Untouched(t.intents, s.t, ids)
    requires forall i | i in ids :: i !in done
    requires forall i | i in t.intents && t.intents[i].channel.Some? :: t.intents[i].channel.value.guild == t.intents[i].guild
    ensures After(s, Writes(t.intents, ids, leaver)).Some? && NoStale(s, Writes(t.intents, ids, leaver))
    ensures var s' := After(s, Writes(t.intents, ids, leaver)).value;
            Released(t, s'.t, done + Elements(ids), done + Elements(ids), leaver) && s'.t.joins == s.t.joins
    decreases |ids|
  {
    hide Released, Released1, After, NoStale;
    if ids == [] {
      assert done + Elements(ids) == done;
      NoWrites(s);
    } else {
      var i := ids[0];
      OneRelease(t, s, done, i, leaver);
      var s1 := Released1(s, i, leaver);
      assert Untouched(t.intents, s1.t, ids[1..]);
      WritesRelease(t, s1, done + {i}, ids[1..], leaver);
      OneWrite(s, i, leaver, Writes(t.intents, ids[1..], leaver));
      assert done + Elements(ids) == (done + {i}) + Elements(ids[1..]);
    }
  }

  lemma NoWrites(s: State)
    ensures After(s, []) == Some(s) && NoStale(s, [])
  {
  }

  /** A handler that reads and writes without a worker step in between releases
      exactly its intents, and no room is forgotten by it. */
  lemma HandlerForgetsNothing(s: State, ids: seq<IntentId>, leaver: Option<User>)
    requires Core(s) && Tracked(s) && s.up && Untouched(s.t.intents, s.t, ids)
    ensures After(s, Writes(s.t.intents, ids, leaver)).Some?
    ensures var s' := After(s, Writes(s.t.intents, ids, leaver)).value;
            && Released(s.t, s'.t, Elements(ids), Elements(ids), leaver)
            && forall c :: !Forgotten(s', c)
  {
    hide After, NoStale, Writes;
    forall i | i in s.t.intents && s.t.intents[i].channel.Some?
      ensures s.t.intents[i].channel.value.guild == s.t.intents[i].guild
    {
      IntentOkAt(s, i);
    }
    hide Core;
    WritesRelease(s.t, s, {}, ids, leaver);
    assert {} + Elements(ids) == Elements(ids);
    TrackedAlways(s, Writes(s.t.intents, ids, leaver));
    TrackedForgetsNothing(After(s, Writes(s.t.intents, ids, leaver)).value);
  }

  lemma TrackedForgetsNothing(s: State)
    requires Tracked(s)
    ensures forall c :: !Forgotten(s, c)
  {
  }
}
