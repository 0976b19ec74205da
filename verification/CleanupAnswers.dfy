/** What each answer to a cleanup leaves, if nothing comes in between: a doubt
    keeps the room and asks again, proof of absence forgets it. */
module CleanupAnswers {
  import opened Common
  import opened Tables
  import opened Protocol
  import opened ProtocolTheorems
  import opened StaleWrite
  import opened Completion
  import opened Occupancy

  /** The request is due again after the delay, and nothing else has changed. */
  function Later(s: State, key: CleanupKey, delay: real): State {
    if key !in s.t.cleanups then s
    else
      var due := s.clock + (if delay > 1.0 then delay else 1.0);
      s.(t := s.t.(cleanups := s.t.cleanups[key := s.t.cleanups[key].(due := due)]))
  }

  /** The answers that leave the room alone, and when it is looked at again: a
      protected room after 5 seconds, a refusal by the gate after what the gate
      says, every other doubt, members inside and a room too young after 60. */
  ghost predicate KeepsRoom(s: State, key: CleanupKey, at: CleanPc, r: Reply, delay: real) {
    var c := key.channel;
    || (at.Guard? && r == Done && Protects(s.t, c) && delay == 5.0)
    || (at.Guard? && r == NotReady && !Protects(s.t, c) && delay == 5.0)
    || (at.Visit? && r == Missing && delay == 60.0)
    || (at.Reconcile? && (r == NotReady || r == Forbidden || r == Lost) && delay == 60.0)
    || (at.Reconcile? && r == Occupied && !NobodyIn(s, c) && delay == 60.0)
    || (at.Reconcile? && r == Here && NobodyIn(s, c) && delay == 60.0)
    || (at == Delete(false) && (r == Forbidden || r == Lost) && delay == 60.0)
    || ((at.Visit? || at.Reconcile? || at.Delete?) && r == Deferred(delay))
    || (r == Fail && !at.Record? && delay == 60.0)
  }

  lemma AnswerRecords(s: State, w: nat, key: CleanupKey, at: CleanPc, r: Reply, delay: real)
    requires KeepsRoom(s, key, at, r, delay)
    ensures CleanNext(Cleaning(s, w, key, at), w, key, at, r)
            == Some(CleanTo(Cleaning(s, w, key, at), w, key, Record(Some(delay))))
  {
    VacatedMeans(s, key.channel);
    VacatedMeans(Cleaning(s, w, key, at), key.channel);
    hide Vacated, DropRoom, Deleted, SetPanel, CleanupResult;
  }

  lemma RecordDelays(s: State, w: nat, key: CleanupKey, delay: real)
    requires w !in s.runs && key.channel.guild !in s.busy
    ensures Next(Cleaning(s, w, key, Record(Some(delay))), CleanStep(w, Done)) == Some(Later(s, key, delay))
  {
    assert s.runs[w := CleanRun(key, Record(Some(delay)))] - {w} == s.runs;
    assert (s.busy + {key.channel.guild}) - {key.channel.guild} == s.busy;
  }

  /** Such an answer leaves Discord, the rooms, the intents and every other
      request as they were, and frees the guild. */
  lemma DoubtKeepsTheRoom(s: State, w: nat, key: CleanupKey, at: CleanPc, r: Reply, delay: real)
    requires w !in s.runs && key.channel.guild !in s.busy && KeepsRoom(s, key, at, r, delay)
    ensures After(Cleaning(s, w, key, at), [CleanStep(w, r)] + ([CleanStep(w, Done)] + [])) == Some(Later(s, key, delay))
  {
    AnswerRecords(s, w, key, at, r, delay);
    RecordDelays(s, w, key, delay);
    assert After(Later(s, key, delay), []) == Some(Later(s, key, delay));
    hide CleanNext, After, Next, Cleaning, Later, KeepsRoom;
    Runs(Cleaning(s, w, key, Record(Some(delay))), CleanStep(w, Done), Later(s, key, delay), []);
    CleansTo(s, w, key, at, r, s, Record(Some(delay)), [CleanStep(w, Done)] + []);
  }

  lemma PanelPosted(s: State, w: nat, key: CleanupKey, message: nat)
    requires !NobodyIn(s, key.channel)
    ensures CleanNext(Cleaning(s, w, key, Reconcile), w, key, Reconcile, Posted(message))
            == Some(CleanTo(Cleaning(s.(t := SetPanel(s.t, key.channel, message)), w, key, Reconcile), w, key, Record(Some(60.0))))
  {
    VacatedMeans(s, key.channel);
    VacatedMeans(Cleaning(s, w, key, Reconcile), key.channel);
    hide Vacated, SetPanel;
  }

  /** A pass that posts the missing panel of a room in use changes only that. */
  lemma BackfillKeepsTheRoom(s: State, w: nat, key: CleanupKey, message: nat)
    requires w !in s.runs && key.channel.guild !in s.busy && !NobodyIn(s, key.channel) && key.channel in s.t.rooms
    ensures After(Cleaning(s, w, key, Reconcile), [CleanStep(w, Posted(message))] + ([CleanStep(w, Done)] + []))
            == Some(Later(s.(t := s.t.(rooms := s.t.rooms[key.channel := s.t.rooms[key.channel].(panel := Some(message))])),
                          key, 60.0))
  {
    var s1 := s.(t := SetPanel(s.t, key.channel, message));
    PanelPosted(s, w, key, message);
    RecordDelays(s1, w, key, 60.0);
    assert After(Later(s1, key, 60.0), []) == Some(Later(s1, key, 60.0));
    hide CleanNext, After, Next, Cleaning, Later;
    Runs(Cleaning(s1, w, key, Record(Some(60.0))), CleanStep(w, Done), Later(s1, key, 60.0), []);
    CleansTo(s, w, key, Reconcile, Posted(message), s1, Record(Some(60.0)), [CleanStep(w, Done)] + []);
  }

  /** A pass over a room with somebody inside, whoever asked for it. */
  function OccupiedPass(s: State, w: nat, key: CleanupKey): seq<Action> {
    [StartClean(w, key)] + ([CleanStep(w, Done)] +
    (if Protects(s.t, key.channel) then [CleanStep(w, Done)] + ([CleanStep(w, Done)] + [])
     else [CleanStep(w, Done)] + ((if key.leaver.Some? then [CleanStep(w, Occupied)] else [])
          + ([CleanStep(w, Done)] + ([CleanStep(w, Occupied)] + ([CleanStep(w, Done)] + []))))))
  }

  lemma OccupiedSteps(s: State, w: nat, key: CleanupKey)
    requires key.channel in s.t.rooms && !NobodyIn(s, key.channel)
    ensures CleanNext(Cleaning(s, w, key, Lookup), w, key, Lookup, Done)
            == Some(CleanTo(Cleaning(s, w, key, Lookup), w, key, Guard))
    ensures !Protects(s.t, key.channel) ==>
              CleanNext(Cleaning(s, w, key, Guard), w, key, Guard, Done)
              == Some(CleanTo(Cleaning(s, w, key, Guard), w, key, if key.leaver.Some? then Visit else Second))
    ensures CleanNext(Cleaning(s, w, key, Visit), w, key, Visit, Occupied)
            == Some(CleanTo(Cleaning(s, w, key, Visit), w, key, Second))
    ensures CleanNext(Cleaning(s, w, key, Second), w, key, Second, Done)
            == Some(CleanTo(Cleaning(s, w, key, Second), w, key, Reconcile))
  {
    VacatedMeans(s, key.channel);
    VacatedMeans(Cleaning(s, w, key, Visit), key.channel);
    hide Vacated, Protects;
  }

  /** It keeps the room, its record, its intents and its members, and comes back
      after a minute, or after 5 seconds if an intent protects the room. */
  lemma OccupiedRoomIsKept(s: State, w: nat, key: CleanupKey)
    requires s.up && w !in s.runs && key.channel.guild !in s.busy
    requires key.channel in s.t.rooms && !NobodyIn(s, key.channel)
    ensures After(s, OccupiedPass(s, w, key))
            == Some(Later(s, key, if Protects(s.t, key.channel) then 5.0 else 60.0))
  {
    var back := [CleanStep(w, Done)] + ([CleanStep(w, Occupied)] + ([CleanStep(w, Done)] + []));
    var rest := (if key.leaver.Some? then [CleanStep(w, Occupied)] else []) + back;
    OccupiedSteps(s, w, key);
    CleanStarts(s, w, key);
    if Protects(s.t, key.channel) {
      DoubtKeepsTheRoom(s, w, key, Guard, Done, 5.0);
      hide CleanNext, After, Next, Cleaning, Later;
      CleansTo(s, w, key, Lookup, Done, s, Guard, [CleanStep(w, Done)] + ([CleanStep(w, Done)] + []));
      Runs(s, StartClean(w, key), Cleaning(s, w, key, Lookup),
           [CleanStep(w, Done)] + ([CleanStep(w, Done)] + ([CleanStep(w, Done)] + [])));
    } else {
      DoubtKeepsTheRoom(s, w, key, Reconcile, Occupied, 60.0);
      hide CleanNext, After, Next, Cleaning, Later, Protects;
      CleansTo(s, w, key, Second, Done, s, Reconcile, [CleanStep(w, Occupied)] + ([CleanStep(w, Done)] + []));
      if key.leaver.Some? {
        CleansTo(s, w, key, Visit, Occupied, s, Second, back);
      } else {
        assert [] + back == back;
      }
      CleansTo(s, w, key, Guard, Done, s, if key.leaver.Some? then Visit else Second, rest);
      CleansTo(s, w, key, Lookup, Done, s, Guard, [CleanStep(w, Done)] + rest);
      Runs(s, StartClean(w, key), Cleaning(s, w, key, Lookup), [CleanStep(w, Done)] + ([CleanStep(w, Done)] + rest));
    }
  }

  // ---- rooms that are gone -------------------------------------------------------

  lemma AbsentSteps(s: State, w: nat, key: CleanupKey)
    requires key.channel !in s.world.live
    ensures var c := key.channel;
            && CleanNext(Cleaning(s, w, key, Reconcile), w, key, Reconcile, Missing)
               == Some(CleanTo(Cleaning(Emptied(s, c), w, key, Reconcile), w, key, Drop(false)))
            && CleanNext(Cleaning(s, w, key, Delete(false)), w, key, Delete(false), Missing)
               == Some(CleanTo(Cleaning(Emptied(s, c), w, key, Delete(false)), w, key, Drop(false)))
  {
    assert Emptied(s, key.channel) == s by {
      assert s.world.live - {key.channel} == s.world.live;
    }
  }

  /** A 404 is proof: the record goes, the intents of the room are closed and the
      request is done, just as after a delete. */
  lemma AbsenceForgetsTheRoom(s: State, w: nat, key: CleanupKey, at: CleanPc)
    requires w !in s.runs && key.channel.guild !in s.busy && key.channel !in s.world.live
    requires at.Reconcile? || at == Delete(false)
    ensures After(Cleaning(s, w, key, at), [CleanStep(w, Missing)]
                  + ([CleanStep(w, Done)] + ([CleanStep(w, Done)] + ([CleanStep(w, Done)] + []))))
            == Some(Finished(s, key))
  {
    var c := key.channel;
    AbsentSteps(s, w, key);
    DeletionSteps(s, w, key);
    SameRuns(s, c);
    CleanupCloses(s, w, key);
    hide CleanNext, After, Cleaning, Emptied, Untracked, Closed;
    var a3 := [CleanStep(w, Done)] + [];
    CleansTo(Untracked(s, c), w, key, Forget(true), Done, Closed(s, c), Record(None), a3);
    CleansTo(Emptied(s, c), w, key, Drop(false), Done, Untracked(s, c), Forget(true), [CleanStep(w, Done)] + a3);
    CleansTo(s, w, key, at, Missing, Emptied(s, c), Drop(false), [CleanStep(w, Done)] + ([CleanStep(w, Done)] + a3));
  }

  /** What a finished cleanup has done, whichever way it went. */
  lemma FinishedMeans(s: State, key: CleanupKey)
    ensures var e, c := Finished(s, key), key.channel;
            && e.world == s.world.(live := s.world.live - {c}) && e.tracked == s.tracked - {c}
            && e.t.rooms == s.t.rooms - {c} && e.t.cleanups == s.t.cleanups - {key}
            && e.t.intents.Keys == s.t.intents.Keys
            && (forall i | i in s.t.intents ::
                  e.t.intents[i] == if s.t.intents[i].channel == Some(c) && s.t.intents[i].phase != Completed
                                    then s.t.intents[i].(phase := Cancelled) else s.t.intents[i])
            && e.t.joins == s.t.joins && e.t.created == s.t.created && e.t.minted == s.t.minted
            && e.runs == s.runs && e.busy == s.busy && e.voice == s.voice && e.up == s.up
  {
    if key !in s.t.cleanups {
      assert s.t.cleanups - {key} == s.t.cleanups;
    }
  }

  lemma UntrackedSteps(s: State, w: nat, key: CleanupKey)
    requires key.channel !in s.t.rooms
    ensures CleanNext(Cleaning(s, w, key, Lookup), w, key, Lookup, Done)
            == Some(CleanTo(Cleaning(s, w, key, Lookup), w, key, Record(None)))
  {
  }

  /** A room without a record is left alone; only the request goes. */
  lemma UntrackedRoomIsLeftAlone(s: State, w: nat, key: CleanupKey)
    requires s.up && w !in s.runs && key.channel.guild !in s.busy && key.channel !in s.t.rooms
    ensures After(s, [StartClean(w, key)] + ([CleanStep(w, Done)] + ([CleanStep(w, Done)] + [])))
            == Some(s.(t := s.t.(cleanups := s.t.cleanups - {key})))
  {
    var e := s.(t := s.t.(cleanups := s.t.cleanups - {key}));
    UntrackedSteps(s, w, key);
    CleanStarts(s, w, key);
    CleanupEnds(s, w, key);
    assert CleanupResult(s.t, key, None, s.clock) == e.t by {
      assert key !in s.t.cleanups ==> s.t.cleanups - {key} == s.t.cleanups;
    }
    assert After(e, []) == Some(e);
    hide CleanNext, After, Next, Cleaning, CleanupResult;
    Runs(Cleaning(s, w, key, Record(None)), CleanStep(w, Done), e, []);
    CleansTo(s, w, key, Lookup, Done, s, Record(None), [CleanStep(w, Done)] + []);
    Runs(s, StartClean(w, key), Cleaning(s, w, key, Lookup), [CleanStep(w, Done)] + ([CleanStep(w, Done)] + []));
  }
}
