/** The protocol's promises over whole runs: from a first boot, through any
    sequence of worker steps, member moves, crashes and restarts. */
module ProtocolTheorems {
  import opened Common
  import opened Tables
  import opened Protocol
  import opened ProtocolInvariant
  import opened ProtocolSteps
  import opened Tracking
  import opened Transactions
  import opened StoreRuns
  import opened Frames

  ghost function Final(s: State, acts: seq<Action>): State
    requires After(s, acts).Some?
  {
    After(s, acts).value
  }

  lemma {:induction false} CoreAlways(s: State, acts: seq<Action>)
    requires Core(s) && After(s, acts).Some?
    ensures Core(Final(s, acts))
    decreases |acts|
  {
    hide Core, Next;
    if acts != [] {
      StepKeepsCore(s, acts[0]);
      CoreAlways(Next(s, acts[0]).value, acts[1..]);
    }
  }

  lemma CoreFromBoot(s: State, acts: seq<Action>)
    requires Init(s) && After(s, acts).Some?
    ensures Core(Final(s, acts))
  {
    InitIsCore(s);
    CoreAlways(s, acts);
  }

  // ---- exclusion -------------------------------------------------------------

  /** No two workers or staff resolutions ever run in one guild. */
  lemma OneRunPerGuild(s: State, acts: seq<Action>, w: nat, x: nat)
    requires Init(s) && After(s, acts).Some?
    requires w in Final(s, acts).runs && x in Final(s, acts).runs && w != x
    ensures GuildOf(Final(s, acts).runs[w]) != GuildOf(Final(s, acts).runs[x])
  {
    CoreFromBoot(s, acts);
  }

  // ---- no replay -------------------------------------------------------------

  /** Whatever crashes, restarts and lost replies there were, no intent ever
      produced two channels. */
  lemma NoReplay(s: State, acts: seq<Action>, c: Channel, d: Channel)
    requires Init(s) && After(s, acts).Some?
    requires c in Final(s, acts).world.made && d in Final(s, acts).world.made
    requires Final(s, acts).world.made[c] == Final(s, acts).world.made[d]
    ensures c == d
  {
    CoreFromBoot(s, acts);
  }

  /** `made` is a history: what it records is never revised. */
  lemma MadeOnlyGrows(s: State, a: Action, c: Channel)
    requires Next(s, a).Some? && c in s.world.made
    ensures c in Next(s, a).value.world.made && Next(s, a).value.world.made[c] == s.world.made[c]
  {
    if a.JoinStep? {
      hide JoinNext;
      JoinIsFramed(s, a.w, s.runs[a.w].row, s.runs[a.w].pc, a.r);
    }
  }

  /** The action is Discord's word that the create of intent i made nothing. */
  predicate Rejects(s: State, a: Action, i: IntentId) {
    a.JoinStep? && a.w in s.runs && s.runs[a.w].JoinRun? && i in Rejected(s.runs[a.w].pc, a.r)
  }

  lemma FlightLands(s: State, a: Action, i: IntentId)
    requires Next(s, a).Some? && i in s.world.inflight && !Rejects(s, a, i)
    ensures i in Next(s, a).value.world.inflight
            || exists c :: c in Next(s, a).value.world.made && Next(s, a).value.world.made[c] == i
  {
    if a.JoinStep? {
      hide JoinNext;
      JoinIsFramed(s, a.w, s.runs[a.w].row, s.runs[a.w].pc, a.r);
    } else if a == Land(i, if a.Land? then a.c else Channel(0, 0)) {
      assert a.c in Next(s, a).value.world.made;
    }
  }

  /** What was transmitted once stays transmitted. */
  lemma UsedStaysUsed(s: State, a: Action, i: IntentId)
    requires Next(s, a).Some? && !Fresh(s.world, i) && !Rejects(s, a, i)
    ensures !Fresh(Next(s, a).value.world, i)
  {
    hide Next, Rejects;
    if i in s.world.inflight {
      FlightLands(s, a, i);
    } else {
      var c :| c in s.world.made && s.world.made[c] == i;
      MadeOnlyGrows(s, a, c);
    }
  }

  /** A worker about to transmit the create of intent i. */
  ghost predicate Transmits(s: State, w: nat, i: IntentId) {
    && w in s.runs && s.runs[w].JoinRun? && s.runs[w].pc.Create? && s.runs[w].pc.h.id == i
    && Next(s, JoinStep(w, Transmit)).Some?
  }

  lemma TransmitIsFresh(s: State, w: nat, i: IntentId)
    requires Core(s) && Transmits(s, w, i)
    ensures Fresh(s.world, i) && !Fresh(Next(s, JoinStep(w, Transmit)).value.world, i)
  {
    AtJoinOk(s, w, s.runs[w].row, s.runs[w].pc);
  }

  lemma TransmitSteps(s: State, w: nat, i: IntentId)
    requires Transmits(s, w, i)
    ensures Next(s, JoinStep(w, Transmit)).Some?
  {
  }

  /** When the headers of a create go out, the intent has never made anything
      and nothing of it is in flight, it is the only open intent of its owner,
      and the owner is in the lobby of the row being processed. */
  lemma CreateIsGuarded(s: State, acts: seq<Action>, w: nat)
    requires Init(s) && After(s, acts).Some?
    requires var e := Final(s, acts);
             w in e.runs && e.runs[w].JoinRun? && e.runs[w].pc.Create? && Next(e, JoinStep(w, Transmit)).Some?
    ensures var e := Final(s, acts);
            var row, h := e.runs[w].row, e.runs[w].pc.h;
            && Fresh(e.world, h.id) && h.id in e.t.intents
            && (forall j | j in e.t.intents && j != h.id
                           && e.t.intents[j].guild == row.guild && e.t.intents[j].user == row.user ::
                  !Open(e.t.intents[j].phase))
            && (row.guild, row.user) in e.voice && e.voice[(row.guild, row.user)] == row.lobby
  {
    CoreFromBoot(s, acts);
    var e := Final(s, acts);
    CreateWaits(e, w);
    hide Next, Core, After;
    AtJoinOk(e, w, e.runs[w].row, e.runs[w].pc);
  }

  /** And a move is only ever transmitted towards the one room of the owner's
      intent, while the owner is still in the lobby. */
  lemma MoveIsGuarded(s: State, acts: seq<Action>, w: nat)
    requires Init(s) && After(s, acts).Some?
    requires var e := Final(s, acts);
             w in e.runs && e.runs[w].JoinRun? && e.runs[w].pc.Moving? && Next(e, JoinStep(w, Transmit)).Some?
    ensures var e := Final(s, acts);
            var row, h := e.runs[w].row, e.runs[w].pc.h;
            && (row.guild, row.user) in e.voice && e.voice[(row.guild, row.user)] == row.lobby
            && h.id in e.t.intents && e.t.intents[h.id].user == row.user && e.t.intents[h.id].guild == row.guild
            && h.channel.Some? && h.channel.value in e.world.made && e.world.made[h.channel.value] == h.id
  {
    CoreFromBoot(s, acts);
    var e := Final(s, acts);
    MovingWaits(e, w);
    hide Next, Core, After;
    AtJoinOk(e, w, e.runs[w].row, e.runs[w].pc);
    IntentOkAt(e, e.runs[w].pc.h.id);
  }

  lemma MovingWaits(s: State, w: nat)
    requires w in s.runs && s.runs[w].JoinRun? && s.runs[w].pc.Moving? && Next(s, JoinStep(w, Transmit)).Some?
    ensures StillWaiting(s, s.runs[w].row)
  {
    hide StillWaiting;
  }

  lemma CreateWaits(s: State, w: nat)
    requires w in s.runs && s.runs[w].JoinRun? && s.runs[w].pc.Create? && Next(s, JoinStep(w, Transmit)).Some?
    ensures StillWaiting(s, s.runs[w].row)
  {
    hide StillWaiting;
  }

  // ---- a refused attach ------------------------------------------------------

  /** A refused attach changes neither table. The next write marks the intent
      unresolved, which cannot itself be refused, and the run is over. */
  lemma RefusedAttachEndsUnresolved(s: State, acts: seq<Action>, w: nat)
    requires Init(s) && After(s, acts).Some?
    requires var e := Final(s, acts);
             w in e.runs && e.runs[w].JoinRun? && e.runs[w].pc.AttachRoom? && Next(e, JoinStep(w, Refused)).Some?
    ensures var e := Final(s, acts);
            var i := e.runs[w].pc.h.id;
            var e1 := Next(e, JoinStep(w, Refused)).value;
            var e2 := Next(e1, JoinStep(w, Done));
            && e1.t == e.t && i in e.t.intents && e2.Some?
            && e2.value.t == e.t.(intents := e.t.intents[i := e.t.intents[i].(phase := Unresolved)])
            && e2.value.runs[w].JoinRun? && e2.value.runs[w].pc == JoinPc.End(Some(60.0))
  {
    CoreFromBoot(s, acts);
    var e := Final(s, acts);
    AtJoinOk(e, w, e.runs[w].row, e.runs[w].pc);
    AttachRefused(e, w, e.runs[w].row, e.runs[w].pc.h, e.runs[w].pc.room);
    DoubtIsMarked(e, w, e.runs[w].row, e.runs[w].pc.h);
  }

  lemma AttachRefused(e: State, w: nat, row: Join, h: Held, c: Channel)
    requires w in e.runs && e.runs[w] == JoinRun(row, AttachRoom(h, c)) && Next(e, JoinStep(w, Refused)).Some?
    ensures Next(e, JoinStep(w, Refused)) == Some(Goto(e, w, row, Doubt(h)))
  {
    hide Attach;
  }

  lemma DoubtIsMarked(e: State, w: nat, row: Join, h: Held)
    requires h.id in e.t.intents && OthersClosed(e.t.intents, h.id)
    ensures Next(Goto(e, w, row, Doubt(h)), JoinStep(w, Done))
            == Some(Goto(Goto(e, w, row, Doubt(h)).(t := e.t.(intents := WithPhase(e.t.intents, h.id, Unresolved))),
                         w, row, JoinPc.End(Some(60.0))))
  {
    hide OthersClosed;
  }

  // ---- no room is forgotten ----------------------------------------------------

  ghost predicate NoStale(s: State, acts: seq<Action>)
    decreases |acts|
  {
    acts == [] || (!Stale(s, acts[0]) && (Next(s, acts[0]).Some? ==> NoStale(Next(s, acts[0]).value, acts[1..])))
  }

  lemma {:induction false} TrackedAlways(s: State, acts: seq<Action>)
    requires Core(s) && Tracked(s) && After(s, acts).Some? && NoStale(s, acts)
    ensures Tracked(Final(s, acts))
    decreases |acts|
  {
    hide Core, Tracked, Next, Stale;
    if acts != [] {
      StepKeepsCore(s, acts[0]);
      StepKeepsTracked(s, acts[0]);
      TrackedAlways(Next(s, acts[0]).value, acts[1..]);
    }
  }

  /** Channel c exists, nothing tracks it, and no intent says it may exist. */
  ghost predicate Forgotten(s: State, c: Channel) {
    && c in s.world.live && c !in s.t.rooms
    && !(c in s.world.made && s.world.made[c] in s.t.intents && Pending(s.t.intents[s.world.made[c]].phase))
  }

  lemma NoRoomForgotten(s: State, acts: seq<Action>, c: Channel)
    requires Init(s) && After(s, acts).Some? && NoStale(s, acts)
    ensures !Forgotten(Final(s, acts), c)
  {
    InitIsCore(s);
    TrackedAlways(s, acts);
  }

  /** Handlers that look and write in one step are never stale. */
  lemma AtomicHandlersAreNotStale(s: State, a: Action)
    requires Next(s, a).Some?
    requires a.CancelIntent? ==> a.i in s.t.intents && s.t.intents[a.i].phase == a.seen
    ensures !Stale(s, a)
  {
  }

  /** Before the create is transmitted, `sent` is durable. */
  lemma SentIsWrittenFirst(s: State, acts: seq<Action>, w: nat)
    requires Init(s) && After(s, acts).Some? && NoStale(s, acts)
    requires var e := Final(s, acts);
             w in e.runs && e.runs[w].JoinRun? && e.runs[w].pc.Create? && Next(e, JoinStep(w, Transmit)).Some?
    ensures var e := Final(s, acts);
            var i := e.runs[w].pc.h.id;
            i in e.t.intents && e.t.intents[i].phase == Sent
  {
    InitIsCore(s);
    TrackedAlways(s, acts);
    var e := Final(s, acts);
    assert RunKnown(e.world, e.t.intents, e.runs[w]);
  }
}
