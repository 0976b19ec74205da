/** Exactly which writes of a handler make the bot forget a room: not at the
    moment of the write alone, but in any continuation. */
module HandlerWrites {
  import opened Common
  import opened Tables
  import opened Protocol
  import opened ProtocolInvariant
  import opened ProtocolSteps
  import opened ProtocolTheorems
  import opened StaleWrite
  import opened Tracking

  /** No continuation without further stale writes forgets a room. */
  ghost predicate NeverForgets(s: State) {
    forall acts, c :: After(s, acts).Some? && NoStale(s, acts) ==> !Forgotten(Final(s, acts), c)
  }

  /** A create of intent i is about to be transmitted. */
  ghost predicate AboutToCreate(s: State, i: IntentId) {
    exists w :: w in s.runs && s.runs[w].JoinRun? && s.runs[w].pc.Create? && s.runs[w].pc.h.id == i
  }

  /** A room of intent i exists outside the table. */
  ghost predicate LiveOutside(s: State, i: IntentId) {
    exists c :: c in s.world.live && c !in s.t.rooms && c in s.world.made && s.world.made[c] == i
  }

  /** The state after the handler's write. */
  function Cancelled1(s: State, i: IntentId): State
    requires i in s.t.intents
  {
    s.(t := s.t.(intents := WithPhase(s.t.intents, i, Cancelled)))
  }

  // ---- harmless writes ---------------------------------------------------------

  lemma HarmlessKeepsTracked(s: State, i: IntentId)
    requires Core(s) && Tracked(s) && i in s.t.intents
    requires i !in s.world.inflight && !LiveOutside(s, i) && !AboutToCreate(s, i)
    ensures Tracked(Cancelled1(s, i))
  {
    var s' := Cancelled1(s, i);
    forall w | w in s'.runs ensures RunKnown(s'.world, s'.t.intents, s'.runs[w]) {
      assert RunKnown(s.world, s.t.intents, s.runs[w]);
    }
    assert LiveKnown(s'.world, s'.t.intents, s'.t.rooms.Keys);
  }

  // ---- harmful ones --------------------------------------------------------------

  /** Discord can always hand out a new channel id. */
  lemma {:induction false} NewChannel(used: set<Channel>, g: Guild) returns (c: Channel)
    ensures c !in used && c.guild == g
    ensures forall d | d in used :: d.id < c.id
    decreases |used|
  {
    if used == {} {
      c := Channel(g, 0);
    } else {
      var d :| d in used;
      var e := NewChannel(used - {d}, g);
      c := Channel(g, if e.id > d.id then e.id else d.id + 1);
      forall x | x in used ensures x.id < c.id {
        if x != d {
          assert x in used - {d};
        }
      }
    }
  }

  /** A channel that lands for a cancelled intent is forgotten. */
  lemma LandingForgets(s: State, i: IntentId)
    requires Core(s) && i in s.world.inflight && i in s.t.intents && s.t.intents[i].phase == Cancelled
    ensures exists c :: Next(s, Land(i, c)).Some? && Forgotten(Next(s, Land(i, c)).value, c)
  {
    var c := NewChannel(s.world.made.Keys, s.t.intents[i].guild);
    assert c !in s.t.rooms;
    assert Forgotten(Next(s, Land(i, c)).value, c);
  }

  lemma InFlightForgets(s: State, i: IntentId)
    requires Core(s) && i in s.world.inflight && i in s.t.intents && s.t.intents[i].phase == Cancelled
    ensures !NeverForgets(s)
  {
    LandingForgets(s, i);
    var c :| Next(s, Land(i, c)).Some? && Forgotten(Next(s, Land(i, c)).value, c);
    hide Next, Core, Forgotten;
    var s1 := Next(s, Land(i, c)).value;
    var acts := [Land(i, c)] + [];
    Runs(s, Land(i, c), s1, []);
    assert After(s1, []) == Some(s1);
    assert NoStale(s, acts) by {
      assert acts[1..] == [];
    }
    assert Forgotten(Final(s, acts), c);
  }

  /** One more action in front of a continuation that forgets. */
  lemma StepThenForgets(s: State, a: Action)
    requires Next(s, a).Some? && !Stale(s, a) && !NeverForgets(Next(s, a).value)
    ensures !NeverForgets(s)
  {
    hide Next, Stale, Forgotten;
    var s1 := Next(s, a).value;
    var acts, c :| After(s1, acts).Some? && NoStale(s1, acts) && Forgotten(Final(s1, acts), c);
    Runs(s, a, s1, acts);
    var all := [a] + acts;
    assert all[0] == a && all[1..] == acts;
    assert NoStale(s, all);
    assert Forgotten(Final(s, all), c);
  }

  lemma AboutToCreateForgets(s: State, w: nat)
    requires Core(s) && w in s.runs && s.runs[w].JoinRun? && s.runs[w].pc.Create?
    requires s.runs[w].pc.h.id in s.t.intents && s.t.intents[s.runs[w].pc.h.id].phase == Cancelled
    ensures !NeverForgets(s)
  {
    var row, h := s.runs[w].row, s.runs[w].pc.h;
    var enter := VoiceMove(row.guild, row.user, Some(row.lobby));
    var s1 := Next(s, enter).value;
    StepKeepsCore(s, enter);
    EntersAndTransmits(s1, w, row, h);
    var s2 := Next(s1, JoinStep(w, Transmit)).value;
    StepKeepsCore(s1, JoinStep(w, Transmit));
    hide Core, NeverForgets, Next;
    InFlightForgets(s2, h.id);
    StepThenForgets(s1, JoinStep(w, Transmit));
    StepThenForgets(s, enter);
  }

  lemma EntersAndTransmits(s: State, w: nat, row: Join, h: Held)
    requires w in s.runs && s.runs[w] == JoinRun(row, Create(h)) && StillWaiting(s, row)
    ensures Next(s, JoinStep(w, Transmit)).Some?
    ensures var s' := Next(s, JoinStep(w, Transmit)).value;
            s'.t == s.t && s'.world.inflight == s.world.inflight + {h.id}
  {
    hide StillWaiting;
  }

  // ---- the exact condition ---------------------------------------------------------

  /** After a handler's write, whatever follows, no room is forgotten: if and
      only if no create of the intent is in flight or about to be transmitted,
      and none of its rooms exists outside the table. */
  lemma HandlerWriteForgetsExactly(s: State, i: IntentId, seen: Phase)
    requires Core(s) && Tracked(s) && Next(s, CancelIntent(i, seen)).Some?
    ensures NeverForgets(Next(s, CancelIntent(i, seen)).value)
            <==> !(i in s.world.inflight || LiveOutside(s, i) || AboutToCreate(s, i))
  {
    var s' := Next(s, CancelIntent(i, seen)).value;
    assert s' == Cancelled1(s, i);
    StepKeepsCore(s, CancelIntent(i, seen));
    if i in s.world.inflight {
      InFlightForgets(s', i);
    } else if LiveOutside(s, i) {
      var c :| c in s.world.live && c !in s.t.rooms && c in s.world.made && s.world.made[c] == i;
      assert Forgotten(s', c);
      NowForgets(s', c);
    } else if AboutToCreate(s, i) {
      var w :| w in s.runs && s.runs[w].JoinRun? && s.runs[w].pc.Create? && s.runs[w].pc.h.id == i;
      AboutToCreateForgets(s', w);
    } else {
      HarmlessKeepsTracked(s, i);
      TrackedNeverForgets(s');
    }
  }

  lemma NowForgets(s: State, c: Channel)
    requires Forgotten(s, c)
    ensures !NeverForgets(s)
  {
    hide Forgotten;
    assert After(s, []) == Some(s) && NoStale(s, []);
    assert Forgotten(Final(s, []), c);
  }

  lemma TrackedNeverForgets(s: State)
    requires Core(s) && Tracked(s)
    ensures NeverForgets(s)
  {
    hide Core;
    forall acts, c | After(s, acts).Some? && NoStale(s, acts) ensures !Forgotten(Final(s, acts), c) {
      TrackedAlways(s, acts);
    }
  }
}
