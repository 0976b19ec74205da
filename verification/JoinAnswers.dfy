/** What each answer to a join leaves, if nothing comes in between: which phase
    the intent ends in, whether the request is gone or waits, whether a room is
    handed to the cleanups, and that nothing else changes. */
module JoinAnswers {
  import opened Common
  import opened Tables
  import opened Protocol
  import opened ProtocolInvariant
  import opened ProtocolSteps
  import opened ProtocolTheorems
  import opened StaleWrite

  /** What becomes of the request whose row the worker holds. */
  datatype Request = Gone | Due(delay: real) | Kept

  /** The request, if it is still the one the worker holds. */
  ghost predicate RequestIs(s: State, e: State, row: Join, q: Request) {
    var k := (row.guild, row.user);
    if !(k in s.t.joins && s.t.joins[k].revision == row.revision) || q.Kept? then e.t.joins == s.t.joins
    else if q.Gone? then e.t.joins == s.t.joins - {k}
    else e.t.joins == s.t.joins[k := s.t.joins[k].(due := s.clock + (if q.delay > 1.0 then q.delay else 1.0))]
  }

  /** The phases of `phases` are written, room `left` has a cleanup that is due
      now, and no other intent, cleanup or room is different. */
  ghost predicate TablesAre(t: Tables, t': Tables, phases: map<IntentId, Phase>, left: Option<Channel>) {
    && t'.intents.Keys == t.intents.Keys
    && (forall i | i in t.intents ::
          t'.intents[i] == if i in phases then t.intents[i].(phase := phases[i]) else t.intents[i])
    && (forall k: CleanupKey ::
          if left == Some(k.channel) && k.leaver.None? then k in t'.cleanups && t'.cleanups[k].due == 0.0
          else (k in t'.cleanups <==> k in t.cleanups) && (k in t'.cleanups ==> t'.cleanups[k] == t.cleanups[k]))
    && t'.rooms == t.rooms && t'.created == t.created && t'.minted == t.minted
  }

  /** The run is over and its guild is free; Discord, the members and the
      remembered rooms are as they were. */
  ghost predicate Over(s: State, e: State, w: nat, row: Join) {
    && e.runs == s.runs - {w} && e.busy == s.busy - {row.guild}
    && e.world == s.world && e.voice == s.voice && e.clock == s.clock && e.up == s.up
    && e.tracked == s.tracked && e.audited == s.audited
  }

  ghost predicate Leaves(s: State, after: Option<State>, w: nat, row: Join, phases: map<IntentId, Phase>, q: Request,
                         left: Option<Channel>)
  {
    && after.Some? && Over(s, after.value, w, row)
    && TablesAre(s.t, after.value.t, phases, left) && RequestIs(s, after.value, row, q)
  }

  /** The worker's awaits return, one after the other. */
  function Dones(w: nat, n: nat): seq<Action> {
    if n == 0 then [] else [JoinStep(w, Done)] + Dones(w, n - 1)
  }

  lemma Answer(s: State, w: nat, r: Reply, s': State, n: nat)
    requires Next(s, JoinStep(w, r)) == Some(s')
    ensures After(s, [JoinStep(w, r)] + Dones(w, n)) == After(s', Dones(w, n))
  {
    hide Next;
    Runs(s, JoinStep(w, r), s', Dones(w, n));
  }

  lemma Return(s: State, w: nat, s': State, n: nat)
    requires Next(s, JoinStep(w, Done)) == Some(s')
    ensures After(s, Dones(w, n + 1)) == After(s', Dones(w, n))
  {
    hide Next;
    Runs(s, JoinStep(w, Done), s', Dones(w, n));
  }

  // ---- the last steps -------------------------------------------------------------

  /** The state in which a run stands, as a place to write to. */
  function Standing(s: State, w: nat, row: Join, t: Tables, pc: JoinPc): State {
    s.(t := t, runs := s.runs[w := JoinRun(row, pc)])
  }

  /** The run ends, and delays its request or not. */
  function Ended(s: State, w: nat, row: Join, t: Tables, again: Option<real>): State {
    s.(t := if again.Some? then Defer(t, row, again.value, s.clock) else t, runs := s.runs - {w}, busy := s.busy - {row.guild})
  }

  lemma Ends(s: State, w: nat, row: Join, t: Tables, again: Option<real>)
    ensures After(Standing(s, w, row, t, End(again)), Dones(w, 1)) == Some(Ended(s, w, row, t, again))
  {
    hide Defer;
    var b := Standing(s, w, row, t, End(again));
    assert s.runs[w := JoinRun(row, End(again))] - {w} == s.runs - {w};
    assert Next(b, JoinStep(w, Done)) == Some(Ended(s, w, row, t, again));
    hide Next;
    Return(b, w, Ended(s, w, row, t, again), 0);
  }

  /** A delayed request, over tables that differ as they should. */
  lemma DelayedLeaves(s: State, w: nat, row: Join, t: Tables, delay: real, phases: map<IntentId, Phase>, left: Option<Channel>)
    requires TablesAre(s.t, t, phases, left) && t.joins == s.t.joins
    ensures Leaves(s, Some(Ended(s, w, row, t, Some(delay))), w, row, phases, Due(delay), left)
  {
    var e := Ended(s, w, row, t, Some(delay));
    assert RequestIs(s, e, row, Due(delay));
    assert TablesAre(s.t, e.t, phases, left) by {
      hide RequestIs;
      assert e.t == t.(joins := e.t.joins);
    }
    hide TablesAre, RequestIs, Defer;
  }

  lemma StepTo(s: State, w: nat, row: Join, t: Tables, pc: JoinPc, r: Reply, t': Tables, pc': JoinPc, n: nat)
    requires JoinNext(Standing(s, w, row, t, pc), w, row, pc, r) == Some(Goto(Standing(s, w, row, t', pc), w, row, pc'))
    ensures After(Standing(s, w, row, t, pc), [JoinStep(w, r)] + Dones(w, n)) == After(Standing(s, w, row, t', pc'), Dones(w, n))
  {
    hide JoinNext, After;
    assert s.runs[w := JoinRun(row, pc)][w := JoinRun(row, pc')] == s.runs[w := JoinRun(row, pc')];
    Answer(Standing(s, w, row, t, pc), w, r, Standing(s, w, row, t', pc'), n);
  }

  /** The last awaits of a run, from where it stands. */
  lemma TwoToEnd(s: State, w: nat, row: Join, t: Tables, pc: JoinPc, t': Tables, again: Option<real>)
    requires JoinNext(Standing(s, w, row, t, pc), w, row, pc, Done) == Some(Goto(Standing(s, w, row, t', pc), w, row, End(again)))
    ensures After(Standing(s, w, row, t, pc), Dones(w, 2)) == Some(Ended(s, w, row, t', again))
  {
    hide JoinNext, After, Standing, Ended;
    assert Dones(w, 2) == [JoinStep(w, Done)] + Dones(w, 1);
    StepTo(s, w, row, t, pc, Done, t', End(again), 1);
    Ends(s, w, row, t', again);
  }

  lemma OneMore(s: State, w: nat, row: Join, t: Tables, pc: JoinPc, t': Tables, pc': JoinPc, n: nat, e: State)
    requires JoinNext(Standing(s, w, row, t, pc), w, row, pc, Done) == Some(Goto(Standing(s, w, row, t', pc), w, row, pc'))
    requires After(Standing(s, w, row, t', pc'), Dones(w, n)) == Some(e)
    ensures After(Standing(s, w, row, t, pc), Dones(w, n + 1)) == Some(e)
  {
    hide JoinNext, After, Standing;
    assert Dones(w, n + 1) == [JoinStep(w, Done)] + Dones(w, n);
    StepTo(s, w, row, t, pc, Done, t', pc', n);
  }

  lemma AnswerIs(s: State, w: nat, row: Join, at: JoinPc, r: Reply, s1: State, pc: JoinPc, n: nat)
    requires w in s.runs && s.runs[w] == JoinRun(row, at) && JoinNext(s, w, row, at, r) == Some(Goto(s1, w, row, pc))
    ensures After(s, [JoinStep(w, r)] + Dones(w, n)) == After(Standing(s1, w, row, s1.t, pc), Dones(w, n))
  {
    assert Standing(s1, w, row, s1.t, pc) == Goto(s1, w, row, pc);
    hide JoinNext, Standing, Goto;
    Answer(s, w, r, Goto(s1, w, row, pc), n);
  }

  /** The answer and what follows it leave what the rest leaves. */
  lemma AnswerLeaves(s: State, w: nat, row: Join, at: JoinPc, r: Reply, s1: State, pc: JoinPc, n: nat, e: State,
                     phases: map<IntentId, Phase>, q: Request, left: Option<Channel>)
    requires w in s.runs && s.runs[w] == JoinRun(row, at) && JoinNext(s, w, row, at, r) == Some(Goto(s1, w, row, pc))
    requires After(Standing(s1, w, row, s1.t, pc), Dones(w, n)) == Some(e) && Leaves(s1, Some(e), w, row, phases, q, left)
    ensures Leaves(s1, After(s, [JoinStep(w, r)] + Dones(w, n)), w, row, phases, q, left)
  {
    hide JoinNext, Next, After, Leaves, Standing, Goto;
    AnswerIs(s, w, row, at, r, s1, pc, n);
  }

  // ---- waiting ----------------------------------------------------------------------

  /** The answers after which the worker only waits, and for how long: a gateway
      that is not ready, a refusal by the gate, a room whose record or type is
      odd, an audit this process has done already, any error nothing expects. */
  ghost predicate WaitsFor(s: State, row: Join, pc: JoinPc, r: Reply, delay: real) {
    || (pc.Start? && r == NotReady && delay == 5.0)
    || (pc.FetchOwn? && pc.h.channel.Some? && r == Odd && delay == 60.0)
    || (pc.FetchOther? && r == Odd && delay == 5.0)
    || (pc.Arrive? && pc.h.channel.Some? && r == NotReady && delay == 5.0)
    || (pc.Moving? && r == Deferred(delay))
    || (pc.Panel? && pc.h.channel.Some? && r == Done && pc.h.channel.value !in s.t.rooms && delay == 5.0)
    || (pc.SendPanel? && r == Deferred(delay))
    || (pc.SendPanel? && r == NotReady && delay == 10.0)
    || (pc.Audit? && pc.h.id in s.audited && r == Done && delay == 60.0)
    || (pc.AuditAttach? && r == Refused && delay == 60.0 && CannotAttach(s, row, pc.h, pc.room))
    || (r == Fail && !pc.End? && !pc.AttachRoom? && delay == 60.0)
  }

  predicate CannotAttach(s: State, row: Join, h: Held, c: Channel) {
    Attach(s.t, h.id, row.guild, row.user, h.profile, c).None?
  }

  lemma WaitingStep(s: State, w: nat, row: Join, pc: JoinPc, r: Reply, delay: real)
    requires w in s.runs && s.runs[w] == JoinRun(row, pc) && WaitsFor(s, row, pc, r, delay)
    ensures JoinNext(s, w, row, pc, r) == Some(Goto(s, w, row, End(Some(delay))))
  {
    hide StillWaiting, InVoice, Current, Vacated, Attach;
  }

  /** The worker waits: its request is due after the delay, all else is as it was. */
  lemma WaitingLeaves(s: State, w: nat, row: Join, pc: JoinPc, r: Reply, delay: real)
    requires w in s.runs && s.runs[w] == JoinRun(row, pc) && WaitsFor(s, row, pc, r, delay)
    ensures Leaves(s, After(s, [JoinStep(w, r)] + Dones(w, 1)), w, row, map[], Due(delay), None)
  {
    WaitingStep(s, w, row, pc, r, delay);
    assert Standing(s, w, row, s.t, pc) == s;
    DelayedLeaves(s, w, row, s.t, delay, map[], None);
    hide JoinNext, Next, After, WaitsFor, Leaves, Ended;
    StepTo(s, w, row, s.t, pc, r, s.t, End(Some(delay)), 1);
    Ends(s, w, row, s.t, Some(delay));
  }

  // ---- phases -----------------------------------------------------------------------

  function Marked(t: Tables, i: IntentId, p: Phase): Tables
    requires i in t.intents
  {
    t.(intents := WithPhase(t.intents, i, p))
  }

  lemma HeldMarks(t: Tables, row: Join, h: Held, p: Phase)
    requires HeldOk(t.intents, row, h)
    ensures SetPhase(t, h.id, p) == Some(Marked(t, h.id, p))
  {
  }

  /** The phase a worker at pc writes, and where it goes on. */
  ghost predicate MarksAs(pc: JoinPc, p: Phase, next: JoinPc) {
    || (pc.Withdraw? && p == Prepared && next == End(Some(pc.delay)))
    || (pc.Doubt? && p == Unresolved && next == End(Some(60.0)))
    || (pc.Reject? && p == Cancelled && next == RejectJoin)
    || (pc.BlockPanel? && p == PanelBlocked && next == BlockPanelJoin)
    || (pc.Retarget? && p == Cancelled && next == if pc.h.channel.Some? then RetargetCleanup(pc.h) else Reread)
    || (pc.AbandonIntent? && p == Cancelled && next == if pc.h.channel.Some? then AbandonRoom(pc.h, pc.again) else End(pc.again))
  }

  lemma MarkStep(s: State, w: nat, row: Join, t: Tables, pc: JoinPc, p: Phase, next: JoinPc)
    requires MarksAs(pc, p, next) && pc.h.id in t.intents && SetPhase(t, pc.h.id, p) == Some(Marked(t, pc.h.id, p))
    ensures var b := Standing(s, w, row, t, pc);
            JoinNext(b, w, row, pc, Done) == Some(Goto(Standing(s, w, row, Marked(t, pc.h.id, p), pc), w, row, next))
  {
    hide SetPhase, WithPhase;
  }

  lemma MarkedIs(t: Tables, i: IntentId, p: Phase)
    requires i in t.intents
    ensures TablesAre(t, Marked(t, i, p), map[i := p], None)
  {
  }

  lemma MarkedAndDelayedIs(s: State, w: nat, row: Join, i: IntentId, p: Phase, delay: real)
    requires i in s.t.intents
    ensures Leaves(s, Some(Ended(s, w, row, Marked(s.t, i, p), Some(delay))), w, row, map[i := p], Due(delay), None)
  {
    MarkedIs(s.t, i, p);
    hide TablesAre, Leaves, Ended;
    DelayedLeaves(s, w, row, Marked(s.t, i, p), delay, map[i := p], None);
  }

  lemma HeldIsThere(n: map<IntentId, Intent>, row: Join, h: Held)
    requires HeldOk(n, row, h)
    ensures h.id in n
  {
  }

  lemma MarkedAndDelayedReaches(s: State, w: nat, row: Join, pc: JoinPc, p: Phase, delay: real)
    requires MarksAs(pc, p, End(Some(delay))) && HeldOk(s.t.intents, row, pc.h)
    ensures After(Standing(s, w, row, s.t, pc), Dones(w, 2)) == Some(Ended(s, w, row, Marked(s.t, pc.h.id, p), Some(delay)))
  {
    var t := Marked(s.t, pc.h.id, p);
    HeldMarks(s.t, row, pc.h, p);
    MarkStep(s, w, row, s.t, pc, p, End(Some(delay)));
    hide JoinNext, Next, After, Ended, MarksAs, HeldOk, SetPhase, Standing, Goto;
    TwoToEnd(s, w, row, s.t, pc, t, Some(delay));
  }

  /** An answer that sends the worker to `pc`, where it writes the phase and then
      only waits. */
  lemma MarkedAndDelayed(s: State, w: nat, row: Join, at: JoinPc, r: Reply, pc: JoinPc, p: Phase, delay: real)
    requires w in s.runs && s.runs[w] == JoinRun(row, at) && JoinNext(s, w, row, at, r) == Some(Goto(s, w, row, pc))
    requires MarksAs(pc, p, End(Some(delay))) && HeldOk(s.t.intents, row, pc.h)
    ensures Leaves(s, After(s, [JoinStep(w, r)] + Dones(w, 2)), w, row, map[pc.h.id := p], Due(delay), None)
  {
    hide JoinNext, Next, After, Leaves, Ended, HeldOk, Standing, Goto, Mark, SetPhase, Marked;
    HeldIsThere(s.t.intents, row, pc.h);
    MarkedAndDelayedReaches(s, w, row, pc, p, delay);
    MarkedAndDelayedIs(s, w, row, pc.h.id, p, delay);
    AnswerLeaves(s, w, row, at, r, s, pc, 2, Ended(s, w, row, Marked(s.t, pc.h.id, p), Some(delay)), map[pc.h.id := p],
                 Due(delay), None);
  }

  // ---- a create ---------------------------------------------------------------------

  /** Where the answers to the create, the attach and the panel lead. */
  lemma CallAnswers(s: State, w: nat, row: Join, h: Held, delay: real)
    ensures JoinNext(s, w, row, Create(h), Deferred(delay)) == Some(Goto(s, w, row, Withdraw(h, delay)))
    ensures JoinNext(s, w, row, Create(h), Lost) == Some(Goto(s, w, row, Doubt(h)))
    ensures JoinNext(s, w, row, Await(h), Lost) == Some(Goto(s, w, row, Doubt(h)))
    ensures h.id in s.world.inflight ==>
              JoinNext(s, w, row, Await(h), Refused)
              == Some(Goto(s.(world := s.world.(inflight := s.world.inflight - {h.id})), w, row, Reject(h)))
  {
    hide StillWaiting, Goto;
  }

  lemma AttachAnswers(s: State, w: nat, row: Join, h: Held, c: Channel)
    ensures JoinNext(s, w, row, AttachRoom(h, c), Fail) == Some(Goto(s, w, row, Doubt(h)))
    ensures Attach(s.t, h.id, row.guild, row.user, h.profile, c).None? ==>
              JoinNext(s, w, row, AttachRoom(h, c), Refused) == Some(Goto(s, w, row, Doubt(h)))
  {
    hide Attach, Goto;
  }

  lemma PanelAnswer(s: State, w: nat, row: Join, h: Held)
    ensures JoinNext(s, w, row, SendPanel(h), Forbidden) == Some(Goto(s, w, row, BlockPanel(h)))
  {
    hide Goto;
  }

  /** The gate refuses the create: nothing was sent, so the intent is prepared
      again and the request waits as long as the gate says. */
  lemma DeferredCreateWaits(s: State, w: nat, row: Join, h: Held, delay: real)
    requires AtJoin(s, w, row, Create(h))
    ensures Leaves(s, After(s, [JoinStep(w, Deferred(delay))] + Dones(w, 2)), w, row, map[h.id := Prepared], Due(delay), None)
  {
    AtJoinOk(s, w, row, Create(h));
    hide Core, JoinNext, After, Leaves, Attach;
    HeldDeferredCreateWaits(s, w, row, h, delay);
  }

  lemma HeldDeferredCreateWaits(s: State, w: nat, row: Join, h: Held, delay: real)
    requires w in s.runs && s.runs[w] == JoinRun(row, Create(h)) && HeldOk(s.t.intents, row, h)
    ensures Leaves(s, After(s, [JoinStep(w, Deferred(delay))] + Dones(w, 2)), w, row, map[h.id := Prepared], Due(delay), None)
  {
    CallAnswers(s, w, row, h, delay);
    hide JoinNext, After, Leaves, HeldOk, Goto;
    MarkedAndDelayed(s, w, row, Create(h), Deferred(delay), Withdraw(h, delay), Prepared, delay);
  }

  /** A 429 means that nothing was made: nothing of the create is in flight, the
      client may send it again, and if the gate then defers it, the intent is
      prepared again. */
  lemma ThrottledCreateWaits(s: State, w: nat, row: Join, h: Held, delay: real)
    requires AtJoin(s, w, row, Await(h)) && h.id in s.world.inflight
    ensures var s1 := s.(world := s.world.(inflight := s.world.inflight - {h.id}));
            && Next(s, JoinStep(w, Throttled)) == Some(Goto(s1, w, row, Create(h)))
            && Leaves(s1, After(s, [JoinStep(w, Throttled)] + ([JoinStep(w, Deferred(delay))] + Dones(w, 2))), w, row,
                      map[h.id := Prepared], Due(delay), None)
  {
    AtJoinOk(s, w, row, Await(h));
    ThrottledStep(s, w, row, h);
    hide Core, JoinNext, After, Next, Leaves;
    HeldThrottled(s, w, row, h, delay);
  }

  lemma HeldThrottled(s: State, w: nat, row: Join, h: Held, delay: real)
    requires w in s.runs && s.runs[w] == JoinRun(row, Await(h)) && HeldOk(s.t.intents, row, h)
    requires var s1 := s.(world := s.world.(inflight := s.world.inflight - {h.id}));
             Next(s, JoinStep(w, Throttled)) == Some(Goto(s1, w, row, Create(h)))
    ensures var s1 := s.(world := s.world.(inflight := s.world.inflight - {h.id}));
            Leaves(s1, After(s, [JoinStep(w, Throttled)] + ([JoinStep(w, Deferred(delay))] + Dones(w, 2))), w, row,
                   map[h.id := Prepared], Due(delay), None)
  {
    var s1 := s.(world := s.world.(inflight := s.world.inflight - {h.id}));
    var s2 := Goto(s1, w, row, Create(h));
    CallAnswers(s2, w, row, h, delay);
    hide JoinNext, Next, After, HeldOk, Leaves;
    MarkedAndDelayed(s2, w, row, Create(h), Deferred(delay), Withdraw(h, delay), Prepared, delay);
    LeavesFrom(s1, w, row, Create(h), After(s2, [JoinStep(w, Deferred(delay))] + Dones(w, 2)), map[h.id := Prepared], Due(delay));
    Runs(s, JoinStep(w, Throttled), s2, [JoinStep(w, Deferred(delay))] + Dones(w, 2));
  }

  lemma ThrottledStep(s: State, w: nat, row: Join, h: Held)
    requires w in s.runs && s.runs[w] == JoinRun(row, Await(h)) && h.id in s.world.inflight
    ensures Next(s, JoinStep(w, Throttled))
            == Some(Goto(s.(world := s.world.(inflight := s.world.inflight - {h.id})), w, row, Create(h)))
  {
  }

  /** Where the run stood does not matter to what it leaves. */
  lemma LeavesFrom(s: State, w: nat, row: Join, pc: JoinPc, after: Option<State>, phases: map<IntentId, Phase>, q: Request)
    requires Leaves(Goto(s, w, row, pc), after, w, row, phases, q, None)
    ensures Leaves(s, after, w, row, phases, q, None)
  {
    assert Goto(s, w, row, pc).runs - {w} == s.runs - {w};
    hide TablesAre;
  }

  /** The reply is lost, before or after the headers went out: the intent is in
      doubt, and the request waits a minute for the evidence. */
  lemma LostCreateIsInDoubt(s: State, w: nat, row: Join, h: Held, pc: JoinPc)
    requires AtJoin(s, w, row, pc) && (pc == Create(h) || pc == Await(h))
    ensures Leaves(s, After(s, [JoinStep(w, Lost)] + Dones(w, 2)), w, row, map[h.id := Unresolved], Due(60.0), None)
  {
    AtJoinOk(s, w, row, pc);
    hide Core, JoinNext, After, Leaves, Attach;
    HeldLostCreateIsInDoubt(s, w, row, h, pc);
  }

  lemma HeldLostCreateIsInDoubt(s: State, w: nat, row: Join, h: Held, pc: JoinPc)
    requires w in s.runs && s.runs[w] == JoinRun(row, pc) && HeldOk(s.t.intents, row, h) && (pc == Create(h) || pc == Await(h))
    ensures Leaves(s, After(s, [JoinStep(w, Lost)] + Dones(w, 2)), w, row, map[h.id := Unresolved], Due(60.0), None)
  {
    CallAnswers(s, w, row, h, 0.0);
    hide JoinNext, After, Leaves, HeldOk, Goto;
    MarkedAndDelayed(s, w, row, pc, Lost, Doubt(h), Unresolved, 60.0);
  }

  /** The room exists and cannot be recorded: the intent is in doubt. */
  lemma RefusedAttachIsInDoubt(s: State, w: nat, row: Join, h: Held, c: Channel, r: Reply)
    requires AtJoin(s, w, row, AttachRoom(h, c))
    requires r == Fail || (r == Refused && Attach(s.t, h.id, row.guild, row.user, h.profile, c).None?)
    ensures Leaves(s, After(s, [JoinStep(w, r)] + Dones(w, 2)), w, row, map[h.id := Unresolved], Due(60.0), None)
  {
    AtJoinOk(s, w, row, AttachRoom(h, c));
    hide Core, JoinNext, After, Leaves, Attach;
    HeldRefusedAttachIsInDoubt(s, w, row, h, c, r);
  }

  lemma HeldRefusedAttachIsInDoubt(s: State, w: nat, row: Join, h: Held, c: Channel, r: Reply)
    requires w in s.runs && s.runs[w] == JoinRun(row, AttachRoom(h, c)) && HeldOk(s.t.intents, row, h)
    requires r == Fail || (r == Refused && Attach(s.t, h.id, row.guild, row.user, h.profile, c).None?)
    ensures Leaves(s, After(s, [JoinStep(w, r)] + Dones(w, 2)), w, row, map[h.id := Unresolved], Due(60.0), None)
  {
    AttachAnswers(s, w, row, h, c);
    hide JoinNext, After, Leaves, HeldOk, Goto, Attach;
    MarkedAndDelayed(s, w, row, AttachRoom(h, c), r, Doubt(h), Unresolved, 60.0);
  }

  /** The transaction commits and the worker does not learn of it: the room is
      recorded, and the intent is in doubt all the same. */
  lemma InterruptedAttachIsInDoubt(s: State, w: nat, row: Join, h: Held, c: Channel)
    requires AtJoin(s, w, row, AttachRoom(h, c)) && Attach(s.t, h.id, row.guild, row.user, h.profile, c).Some?
    ensures var s1 := s.(t := Attach(s.t, h.id, row.guild, row.user, h.profile, c).value);
            && h.id in s.t.intents && s1.t.intents == s.t.intents[h.id := s.t.intents[h.id].(channel := Some(c), phase := Created)]
            && s1.t.rooms == (if c in s.t.rooms then s.t.rooms else s.t.rooms[c := Room(row.guild, h.profile, row.user, None)])
            && Leaves(s1, After(s, [JoinStep(w, Lost)] + Dones(w, 2)), w, row, map[h.id := Unresolved], Due(60.0), None)
  {
    AtJoinOk(s, w, row, AttachRoom(h, c));
    hide Core, JoinNext, Next, After, Leaves, Attach;
    HeldInterruptedAttach(s, w, row, h, c);
  }

  lemma HeldInterruptedAttach(s: State, w: nat, row: Join, h: Held, c: Channel)
    requires w in s.runs && s.runs[w] == JoinRun(row, AttachRoom(h, c)) && HeldOk(s.t.intents, row, h)
    requires Attach(s.t, h.id, row.guild, row.user, h.profile, c).Some?
    ensures var s1 := s.(t := Attach(s.t, h.id, row.guild, row.user, h.profile, c).value);
            && h.id in s.t.intents && s1.t.intents == s.t.intents[h.id := s.t.intents[h.id].(channel := Some(c), phase := Created)]
            && s1.t.rooms == (if c in s.t.rooms then s.t.rooms else s.t.rooms[c := Room(row.guild, h.profile, row.user, None)])
            && Leaves(s1, After(s, [JoinStep(w, Lost)] + Dones(w, 2)), w, row, map[h.id := Unresolved], Due(60.0), None)
  {
    var s1 := s.(t := Attach(s.t, h.id, row.guild, row.user, h.profile, c).value);
    AttachedHeld(s.t, row, h, c);
    InterruptedStep(s, w, row, h, c);
    hide JoinNext, Next, After, Leaves, Ended, HeldOk, Standing, Goto, Attach, SetPhase, Mark, Marked;
    InterruptedRest(s, s1, w, row, h, c);
  }

  lemma InterruptedRest(s: State, s1: State, w: nat, row: Join, h: Held, c: Channel)
    requires w in s.runs && s.runs[w] == JoinRun(row, AttachRoom(h, c)) && HeldOk(s1.t.intents, row, h)
    requires JoinNext(s, w, row, AttachRoom(h, c), Lost) == Some(Goto(s1, w, row, Doubt(h)))
    ensures Leaves(s1, After(s, [JoinStep(w, Lost)] + Dones(w, 2)), w, row, map[h.id := Unresolved], Due(60.0), None)
  {
    hide JoinNext, Next, After, Leaves, Ended, HeldOk, Standing, Goto, SetPhase, Mark, Marked;
    HeldIsThere(s1.t.intents, row, h);
    MarkedAndDelayedReaches(s1, w, row, Doubt(h), Unresolved, 60.0);
    MarkedAndDelayedIs(s1, w, row, h.id, Unresolved, 60.0);
    AnswerLeaves(s, w, row, AttachRoom(h, c), Lost, s1, Doubt(h), 2, Ended(s1, w, row, Marked(s1.t, h.id, Unresolved), Some(60.0)),
                 map[h.id := Unresolved], Due(60.0), None);
  }

  lemma AttachedHeld(t: Tables, row: Join, h: Held, c: Channel)
    requires HeldOk(t.intents, row, h) && Attach(t, h.id, row.guild, row.user, h.profile, c).Some?
    ensures var t' := Attach(t, h.id, row.guild, row.user, h.profile, c).value;
            && HeldOk(t'.intents, row, h) && t'.intents == t.intents[h.id := t.intents[h.id].(channel := Some(c), phase := Created)]
            && t'.rooms == (if c in t.rooms then t.rooms else t.rooms[c := Room(row.guild, h.profile, row.user, None)])
  {
  }

  lemma InterruptedStep(s: State, w: nat, row: Join, h: Held, c: Channel)
    requires Attach(s.t, h.id, row.guild, row.user, h.profile, c).Some?
    ensures JoinNext(s, w, row, AttachRoom(h, c), Lost)
            == Some(Goto(s.(t := Attach(s.t, h.id, row.guild, row.user, h.profile, c).value), w, row, Doubt(h)))
  {
    hide Attach, Goto;
  }

  // ---- requests that go -----------------------------------------------------------

  /** Over tables from which the request is gone. */
  lemma GoneLeaves(s: State, w: nat, row: Join, t: Tables, again: Option<real>, phases: map<IntentId, Phase>, left: Option<Channel>)
    requires TablesAre(s.t, t, phases, left) && t.joins == CancelJoin(s.t, row.guild, row.user, Some(row.revision)).joins
    ensures Leaves(s, Some(Ended(s, w, row, t, again)), w, row, phases, Gone, left)
  {
    assert again.Some? ==> Defer(t, row, again.value, s.clock) == t;
    assert RequestIs(s, Ended(s, w, row, t, again), row, Gone);
    hide TablesAre, RequestIs, Defer;
  }

  /** Where a worker ends the request it holds, and where it goes on. */
  ghost predicate EndsRequest(pc: JoinPc, next: JoinPc) {
    || (pc.RejectJoin? && next == End(Some(60.0)))
    || (pc.BlockPanelJoin? && next == End(None))
    || (pc.AbandonJoin? && pc.h.phase != Unresolved && pc.h.phase != Sent && next == AbandonIntent(pc.h, pc.again))
  }

  function Dequeued(t: Tables, row: Join): Tables {
    CancelJoin(t, row.guild, row.user, Some(row.revision))
  }

  lemma RequestStep(s: State, w: nat, row: Join, t: Tables, pc: JoinPc, next: JoinPc)
    requires EndsRequest(pc, next)
    ensures JoinNext(Standing(s, w, row, t, pc), w, row, pc, Done)
            == Some(Goto(Standing(s, w, row, Dequeued(t, row), pc), w, row, next))
  {
    hide CancelJoin;
  }

  lemma DequeuedIs(t: Tables, t': Tables, row: Join, phases: map<IntentId, Phase>, left: Option<Channel>)
    requires TablesAre(t, t', phases, left)
    ensures TablesAre(t, Dequeued(t', row), phases, left)
    ensures t'.joins == t.joins ==> Dequeued(t', row).joins == CancelJoin(t, row.guild, row.user, Some(row.revision)).joins
  {
  }

  lemma MarkedAndGoneIs(s: State, w: nat, row: Join, i: IntentId, p: Phase, again: Option<real>)
    requires i in s.t.intents
    ensures Leaves(s, Some(Ended(s, w, row, Dequeued(Marked(s.t, i, p), row), again)), w, row, map[i := p], Gone, None)
  {
    MarkedIs(s.t, i, p);
    hide TablesAre, Leaves, Ended, CancelJoin;
    DequeuedIs(s.t, Marked(s.t, i, p), row, map[i := p], None);
    GoneLeaves(s, w, row, Dequeued(Marked(s.t, i, p), row), again, map[i := p], None);
  }

  lemma MarkedAndGoneReaches(s: State, w: nat, row: Join, pc: JoinPc, p: Phase, mid: JoinPc, again: Option<real>)
    requires MarksAs(pc, p, mid) && EndsRequest(mid, End(again)) && HeldOk(s.t.intents, row, pc.h)
    ensures After(Standing(s, w, row, s.t, pc), Dones(w, 3))
            == Some(Ended(s, w, row, Dequeued(Marked(s.t, pc.h.id, p), row), again))
  {
    var t := Marked(s.t, pc.h.id, p);
    HeldMarks(s.t, row, pc.h, p);
    MarkStep(s, w, row, s.t, pc, p, mid);
    RequestStep(s, w, row, t, mid, End(again));
    hide JoinNext, Next, After, Ended, MarksAs, EndsRequest, HeldOk, SetPhase, Standing, Dequeued, Goto;
    TwoToEnd(s, w, row, t, mid, Dequeued(t, row), again);
    OneMore(s, w, row, s.t, pc, t, mid, 2, Ended(s, w, row, Dequeued(t, row), again));
  }

  /** An answer that sends the worker to `pc`, where it writes the phase and then
      ends the request. */
  lemma MarkedAndGone(s: State, w: nat, row: Join, at: JoinPc, r: Reply, s1: State, pc: JoinPc, p: Phase, mid: JoinPc,
                      again: Option<real>)
    requires w in s.runs && s.runs[w] == JoinRun(row, at) && JoinNext(s, w, row, at, r) == Some(Goto(s1, w, row, pc))
    requires MarksAs(pc, p, mid) && EndsRequest(mid, End(again)) && HeldOk(s1.t.intents, row, pc.h)
    ensures Leaves(s1, After(s, [JoinStep(w, r)] + Dones(w, 3)), w, row, map[pc.h.id := p], Gone, None)
  {
    assert pc.h.id in s1.t.intents;
    hide JoinNext, Next, After, Leaves, Ended, MarksAs, EndsRequest, HeldOk, Standing, Dequeued, Goto;
    MarkedAndGoneReaches(s1, w, row, pc, p, mid, again);
    MarkedAndGoneIs(s1, w, row, pc.h.id, p, again);
    AnswerIs(s, w, row, at, r, s1, pc, 3);
  }

  /** Discord refuses the create: the intent is closed, the request is gone, and
      nothing of the create is in flight any more. */
  lemma RefusedCreateIsCancelled(s: State, w: nat, row: Join, h: Held)
    requires AtJoin(s, w, row, Await(h)) && h.id in s.world.inflight
    ensures Leaves(s.(world := s.world.(inflight := s.world.inflight - {h.id})),
                   After(s, [JoinStep(w, Refused)] + Dones(w, 3)), w, row, map[h.id := Cancelled], Gone, None)
  {
    AtJoinOk(s, w, row, Await(h));
    hide Core, After, Leaves;
    HeldRefused(s, w, row, h);
  }

  lemma HeldRefused(s: State, w: nat, row: Join, h: Held)
    requires w in s.runs && s.runs[w] == JoinRun(row, Await(h)) && HeldOk(s.t.intents, row, h) && h.id in s.world.inflight
    ensures Leaves(s.(world := s.world.(inflight := s.world.inflight - {h.id})),
                   After(s, [JoinStep(w, Refused)] + Dones(w, 3)), w, row, map[h.id := Cancelled], Gone, None)
  {
    CallAnswers(s, w, row, h, 0.0);
    hide JoinNext, After, Leaves, Goto, HeldOk;
    var s1 := s.(world := s.world.(inflight := s.world.inflight - {h.id}));
    MarkedAndGone(s, w, row, Await(h), Refused, s1, Reject(h), Cancelled, RejectJoin, Some(60.0));
  }

  /** Nobody lets the bot post the panel: the room stays, its intent is blocked,
      and the request is gone. */
  lemma ForbiddenPanelIsBlocked(s: State, w: nat, row: Join, h: Held)
    requires AtJoin(s, w, row, SendPanel(h))
    ensures Leaves(s, After(s, [JoinStep(w, Forbidden)] + Dones(w, 3)), w, row, map[h.id := PanelBlocked], Gone, None)
  {
    AtJoinOk(s, w, row, SendPanel(h));
    hide Core, JoinNext, After, Leaves, Attach;
    HeldForbiddenPanelIsBlocked(s, w, row, h);
  }

  lemma HeldForbiddenPanelIsBlocked(s: State, w: nat, row: Join, h: Held)
    requires w in s.runs && s.runs[w] == JoinRun(row, SendPanel(h)) && HeldOk(s.t.intents, row, h)
    ensures Leaves(s, After(s, [JoinStep(w, Forbidden)] + Dones(w, 3)), w, row, map[h.id := PanelBlocked], Gone, None)
  {
    PanelAnswer(s, w, row, h);
    hide JoinNext, After, Leaves, HeldOk, Goto;
    MarkedAndGone(s, w, row, SendPanel(h), Forbidden, s, BlockPanel(h), PanelBlocked, BlockPanelJoin, None);
  }

  // ---- joins that are abandoned ------------------------------------------------------

  /** The answers that end a join for good: the member is neither in the lobby nor
      in the own room, the profile or the permissions do not allow the room, the
      member owns a room in use, or Discord forbids the move. */
  ghost predicate GivesUp(s: State, row: Join, pc: JoinPc, r: Reply) {
    || (pc.Recheck? && r.Config? && (!r.ok || !pc.present) && Current(s.t, row))
    || (pc.Preflight? && r == Config(false))
    || (pc.FetchOther? && r == Occupied && !Vacated(s, pc.room))
    || (pc.Arrive? && pc.h.channel.Some? && r == Done && !InVoice(s, row.guild, row.user, pc.h.channel.value)
        && !(InVoice(s, row.guild, row.user, row.lobby) && Current(s.t, row)))
    || (pc.Moving? && r == Forbidden)
  }

  lemma GivingUpStep(s: State, w: nat, row: Join, pc: JoinPc, r: Reply)
    requires GivesUp(s, row, pc, r)
    ensures JoinNext(s, w, row, pc, r) == Some(Goto(s, w, row, AbandonJoin(pc.h, if pc.Moving? then Some(60.0) else None)))
  {
    hide Vacated, InVoice, Current, Goto;
  }

  lemma GivenUpOk(s: State, w: nat, row: Join, pc: JoinPc, r: Reply)
    requires AtJoin(s, w, row, pc) && GivesUp(s, row, pc, r)
    ensures HeldOk(s.t.intents, row, pc.h) && pc.h.phase != Sent && pc.h.phase != Unresolved
  {
    AtJoinOk(s, w, row, pc);
    hide Core, Vacated, InVoice, Current;
  }

  /** What the abandoning writes leave in the tables. */
  function Abandoned(t: Tables, row: Join, i: IntentId, c: Option<Channel>): Tables
    requires i in t.intents
  {
    var t1 := Marked(Dequeued(t, row), i, Cancelled);
    if c.Some? then AddCleanup(t1, row.guild, c.value, None) else t1
  }

  lemma AbandonedIs(t: Tables, row: Join, i: IntentId, c: Option<Channel>)
    requires i in t.intents
    ensures TablesAre(t, Abandoned(t, row, i, c), map[i := Cancelled], c)
    ensures Abandoned(t, row, i, c).joins == CancelJoin(t, row.guild, row.user, Some(row.revision)).joins
  {
  }

  lemma RoomStep(s: State, w: nat, row: Join, t: Tables, h: Held, again: Option<real>)
    requires h.channel.Some?
    ensures JoinNext(Standing(s, w, row, t, AbandonRoom(h, again)), w, row, AbandonRoom(h, again), Done)
            == Some(Goto(Standing(s, w, row, AddCleanup(t, row.guild, h.channel.value, None), AbandonRoom(h, again)),
                         w, row, End(again)))
  {
    hide AddCleanup;
  }

  lemma AbandonReaches(s: State, w: nat, row: Join, h: Held, again: Option<real>)
    requires HeldOk(s.t.intents, row, h) && h.phase != Sent && h.phase != Unresolved
    ensures After(Standing(s, w, row, s.t, AbandonJoin(h, again)), Dones(w, if h.channel.Some? then 4 else 3))
            == Some(Ended(s, w, row, Abandoned(s.t, row, h.id, h.channel), again))
  {
    var t0 := Dequeued(s.t, row);
    var t1 := Marked(t0, h.id, Cancelled);
    var e := Ended(s, w, row, Abandoned(s.t, row, h.id, h.channel), again);
    hide JoinNext, Next, After, Ended, HeldOk, SetPhase, Standing, Goto, CancelJoin, AddCleanup, WithPhase;
    AbandonSteps(s, w, row, h, again);
    if h.channel.Some? {
      AbandonRoomReaches(s, w, row, t1, h, again);
      OneMore(s, w, row, t0, AbandonIntent(h, again), t1, AbandonRoom(h, again), 2, e);
      OneMore(s, w, row, s.t, AbandonJoin(h, again), t0, AbandonIntent(h, again), 3, e);
    } else {
      TwoToEnd(s, w, row, t0, AbandonIntent(h, again), t1, again);
      OneMore(s, w, row, s.t, AbandonJoin(h, again), t0, AbandonIntent(h, again), 2, e);
    }
  }

  lemma AbandonRoomReaches(s: State, w: nat, row: Join, t: Tables, h: Held, again: Option<real>)
    requires h.channel.Some?
    ensures After(Standing(s, w, row, t, AbandonRoom(h, again)), Dones(w, 2))
            == Some(Ended(s, w, row, AddCleanup(t, row.guild, h.channel.value, None), again))
  {
    RoomStep(s, w, row, t, h, again);
    hide JoinNext, Next, After, Ended, Standing, Goto, AddCleanup;
    TwoToEnd(s, w, row, t, AbandonRoom(h, again), AddCleanup(t, row.guild, h.channel.value, None), again);
  }

  /** Where an abandoning worker stands after its first two writes. */
  lemma AbandonSteps(s: State, w: nat, row: Join, h: Held, again: Option<real>)
    requires HeldOk(s.t.intents, row, h) && h.phase != Sent && h.phase != Unresolved
    ensures var t0 := Dequeued(s.t, row);
            var t1 := Marked(t0, h.id, Cancelled);
            && JoinNext(Standing(s, w, row, s.t, AbandonJoin(h, again)), w, row, AbandonJoin(h, again), Done)
               == Some(Goto(Standing(s, w, row, t0, AbandonJoin(h, again)), w, row, AbandonIntent(h, again)))
            && JoinNext(Standing(s, w, row, t0, AbandonIntent(h, again)), w, row, AbandonIntent(h, again), Done)
               == Some(Goto(Standing(s, w, row, t1, AbandonIntent(h, again)), w, row,
                            if h.channel.Some? then AbandonRoom(h, again) else End(again)))
  {
    var t0 := Dequeued(s.t, row);
    HeldMarks(t0, row, h, Cancelled);
    RequestStep(s, w, row, s.t, AbandonJoin(h, again), AbandonIntent(h, again));
    MarkStep(s, w, row, t0, AbandonIntent(h, again), Cancelled,
             if h.channel.Some? then AbandonRoom(h, again) else End(again));
    hide JoinNext, SetPhase, Standing, Goto, CancelJoin, WithPhase, HeldOk;
  }

  lemma AbandonLeaves(s: State, w: nat, row: Join, i: IntentId, c: Option<Channel>, again: Option<real>)
    requires i in s.t.intents
    ensures Leaves(s, Some(Ended(s, w, row, Abandoned(s.t, row, i, c), again)), w, row, map[i := Cancelled], Gone, c)
  {
    AbandonedIs(s.t, row, i, c);
    hide TablesAre, Leaves, Ended, CancelJoin, Abandoned;
    GoneLeaves(s, w, row, Abandoned(s.t, row, i, c), again, map[i := Cancelled], c);
  }

  /** Then the request is gone, the intent is cancelled, and its room, if it has
      one, is handed to the cleanups. */
  lemma GivingUpEndsTheJoin(s: State, w: nat, row: Join, pc: JoinPc, r: Reply)
    requires AtJoin(s, w, row, pc) && GivesUp(s, row, pc, r)
    ensures Leaves(s, After(s, [JoinStep(w, r)] + Dones(w, if pc.h.channel.Some? then 4 else 3)), w, row,
                   map[pc.h.id := Cancelled], Gone, pc.h.channel)
  {
    var again := if pc.Moving? then Some(60.0) else None;
    GivenUpOk(s, w, row, pc, r);
    assert pc.h.id in s.t.intents && w in s.runs && s.runs[w] == JoinRun(row, pc);
    GivingUpStep(s, w, row, pc, r);
    hide JoinNext, Next, After, Leaves, Ended, HeldOk, Standing, Goto, AtJoin, Abandoned;
    AbandonReaches(s, w, row, pc.h, again);
    AbandonLeaves(s, w, row, pc.h.id, pc.h.channel, again);
    AnswerIs(s, w, row, pc, r, s, AbandonJoin(pc.h, again), if pc.h.channel.Some? then 4 else 3);
  }

  // ---- joins that are out of date, or aimed elsewhere --------------------------------

  /** The request was replaced or withdrawn while the worker looked: it touches
      nothing and leaves the new request alone. */
  lemma OutdatedJoinChangesNothing(s: State, w: nat, row: Join, h: Held, present: bool, ok: bool)
    requires w in s.runs && s.runs[w] == JoinRun(row, Recheck(h, present)) && !Current(s.t, row)
    ensures Leaves(s, After(s, [JoinStep(w, Config(ok))] + Dones(w, 1)), w, row, map[], Kept, None)
  {
    assert JoinNext(s, w, row, Recheck(h, present), Config(ok)) == Some(Goto(s, w, row, End(None)));
    assert Leaves(s, Some(Ended(s, w, row, s.t, None)), w, row, map[], Kept, None);
    hide JoinNext, Next, After, Leaves, Ended, Standing, Goto, Current;
    AnswerIs(s, w, row, Recheck(h, present), Config(ok), s, End(None), 1);
    Ends(s, w, row, s.t, None);
  }

  lemma RetargetSteps(s: State, w: nat, row: Join, h: Held)
    requires Current(s.t, row) && (h.lobby != row.lobby || h.profile != row.profile)
    ensures JoinNext(s, w, row, Recheck(h, true), Config(true)) == Some(Goto(s, w, row, Retarget(h)))
    ensures forall t | h.channel.Some? ::
              JoinNext(Standing(s, w, row, t, RetargetCleanup(h)), w, row, RetargetCleanup(h), Done)
              == Some(Goto(Standing(s, w, row, AddCleanup(t, row.guild, h.channel.value, None), RetargetCleanup(h)),
                           w, row, End(Some(5.0))))
  {
    hide Current, AddCleanup;
  }

  function Redirected(t: Tables, row: Join, i: IntentId, c: Channel): Tables
    requires i in t.intents
  {
    AddCleanup(Marked(t, i, Cancelled), row.guild, c, None)
  }

  lemma RedirectedIs(t: Tables, row: Join, i: IntentId, c: Channel)
    requires i in t.intents
    ensures TablesAre(t, Redirected(t, row, i, c), map[i := Cancelled], Some(c)) && Redirected(t, row, i, c).joins == t.joins
  {
  }

  lemma RedirectReaches(s: State, w: nat, row: Join, h: Held)
    requires HeldOk(s.t.intents, row, h) && h.channel.Some? && Current(s.t, row) && (h.lobby != row.lobby || h.profile != row.profile)
    ensures After(Standing(s, w, row, s.t, Retarget(h)), Dones(w, 3))
            == Some(Ended(s, w, row, Redirected(s.t, row, h.id, h.channel.value), Some(5.0)))
  {
    var t1 := Marked(s.t, h.id, Cancelled);
    var t2 := Redirected(s.t, row, h.id, h.channel.value);
    HeldMarks(s.t, row, h, Cancelled);
    RetargetSteps(s, w, row, h);
    MarkStep(s, w, row, s.t, Retarget(h), Cancelled, RetargetCleanup(h));
    hide JoinNext, Next, After, Ended, HeldOk, Standing, Goto, AddCleanup, Current, SetPhase, WithPhase;
    TwoToEnd(s, w, row, t1, RetargetCleanup(h), t2, Some(5.0));
    OneMore(s, w, row, s.t, Retarget(h), t1, RetargetCleanup(h), 2, Ended(s, w, row, t2, Some(5.0)));
  }

  lemma RedirectLeaves(s: State, w: nat, row: Join, i: IntentId, c: Channel)
    requires i in s.t.intents
    ensures Leaves(s, Some(Ended(s, w, row, Redirected(s.t, row, i, c), Some(5.0))), w, row, map[i := Cancelled], Due(5.0), Some(c))
  {
    RedirectedIs(s.t, row, i, c);
    hide TablesAre, Leaves, Ended, Redirected;
    DelayedLeaves(s, w, row, Redirected(s.t, row, i, c), 5.0, map[i := Cancelled], Some(c));
  }

  lemma RecheckHeld(s: State, w: nat, row: Join, h: Held, present: bool)
    requires AtJoin(s, w, row, Recheck(h, present))
    ensures HeldOk(s.t.intents, row, h) && h.id in s.t.intents && h.id < s.t.minted
    ensures w in s.runs && s.runs[w] == JoinRun(row, Recheck(h, present))
  {
    AtJoinOk(s, w, row, Recheck(h, present));
    CoreTables(s);
    hide Core;
  }

  /** The member waits for another lobby while a room of the old target exists:
      the old intent is cancelled, the room is handed to the cleanups, and the
      request waits 5 seconds. */
  lemma RetargetedRoomIsCleaned(s: State, w: nat, row: Join, h: Held)
    requires AtJoin(s, w, row, Recheck(h, true)) && Current(s.t, row) && h.channel.Some?
    requires h.lobby != row.lobby || h.profile != row.profile
    ensures Leaves(s, After(s, [JoinStep(w, Config(true))] + Dones(w, 3)), w, row, map[h.id := Cancelled], Due(5.0), h.channel)
  {
    RecheckHeld(s, w, row, h, true);
    RetargetSteps(s, w, row, h);
    hide JoinNext, Next, After, Leaves, Ended, HeldOk, Standing, Goto, AtJoin, Redirected, Current;
    RedirectReaches(s, w, row, h);
    RedirectLeaves(s, w, row, h.id, h.channel.value);
    AnswerIs(s, w, row, Recheck(h, true), Config(true), s, Retarget(h), 3);
  }

  /** Without a room the old intent is cancelled, and the very same run goes on
      with a fresh one for the new target. */
  lemma RetargetedJoinStartsOver(s: State, w: nat, row: Join, h: Held)
    requires AtJoin(s, w, row, Recheck(h, true)) && Current(s.t, row) && h.channel.None?
    requires h.lobby != row.lobby || h.profile != row.profile
    ensures var t := s.t.(intents := WithPhase(s.t.intents, h.id, Cancelled)
                                     [s.t.minted := Intent(row.guild, row.user, row.lobby, row.profile, Prepared, None, s.clock, None)],
                          minted := s.t.minted + 1);
            After(s, [JoinStep(w, Config(true))] + ([JoinStep(w, Done)] + ([JoinStep(w, Inserted)] + [])))
            == Some(Goto(s.(t := t), w, row, Preflight(Held(s.t.minted, row.lobby, row.profile, Prepared, None))))
  {
    RecheckHeld(s, w, row, h, true);
    hide After, HeldOk, AtJoin, Current, Goto, WithPhase;
    HeldStartsOver(s, w, row, h);
  }

  lemma HeldStartsOver(s: State, w: nat, row: Join, h: Held)
    requires w in s.runs && s.runs[w] == JoinRun(row, Recheck(h, true)) && HeldOk(s.t.intents, row, h) && h.channel.None?
    requires Current(s.t, row) && (h.lobby != row.lobby || h.profile != row.profile)
    ensures var t := s.t.(intents := WithPhase(s.t.intents, h.id, Cancelled)
                                     [s.t.minted := Intent(row.guild, row.user, row.lobby, row.profile, Prepared, None, s.clock, None)],
                          minted := s.t.minted + 1);
            After(s, [JoinStep(w, Config(true))] + ([JoinStep(w, Done)] + ([JoinStep(w, Inserted)] + [])))
            == Some(Goto(s.(t := t), w, row, Preflight(Held(s.t.minted, row.lobby, row.profile, Prepared, None))))
  {
    RetargetSteps(s, w, row, h);
    hide JoinNext, Next, After, HeldOk, Current, Goto, Standing, WithPhase;
    StartsOver(s, w, row, h);
    RetargetAnswered(s, w, row, h, [JoinStep(w, Done)] + ([JoinStep(w, Inserted)] + []));
  }

  lemma RetargetAnswered(s: State, w: nat, row: Join, h: Held, rest: seq<Action>)
    requires w in s.runs && s.runs[w] == JoinRun(row, Recheck(h, true))
    requires JoinNext(s, w, row, Recheck(h, true), Config(true)) == Some(Goto(s, w, row, Retarget(h)))
    ensures After(s, [JoinStep(w, Config(true))] + rest) == After(Standing(s, w, row, s.t, Retarget(h)), rest)
  {
    assert Standing(s, w, row, s.t, Retarget(h)) == Goto(s, w, row, Retarget(h));
    hide JoinNext, After;
    Runs(s, JoinStep(w, Config(true)), Goto(s, w, row, Retarget(h)), rest);
  }

  lemma StartsOver(s: State, w: nat, row: Join, h: Held)
    requires HeldOk(s.t.intents, row, h) && h.channel.None?
    ensures var t := s.t.(intents := WithPhase(s.t.intents, h.id, Cancelled)
                                     [s.t.minted := Intent(row.guild, row.user, row.lobby, row.profile, Prepared, None, s.clock, None)],
                          minted := s.t.minted + 1);
            After(Standing(s, w, row, s.t, Retarget(h)), [JoinStep(w, Done)] + ([JoinStep(w, Inserted)] + []))
            == Some(Goto(s.(t := t), w, row, Preflight(Held(s.t.minted, row.lobby, row.profile, Prepared, None))))
  {
    var t1 := Marked(s.t, h.id, Cancelled);
    HeldMarks(s.t, row, h, Cancelled);
    MarkStep(s, w, row, s.t, Retarget(h), Cancelled, Reread);
    hide JoinNext, Next, After, HeldOk, Goto, SetPhase, Standing;
    InsertsNext(s, w, row, h);
    StepAndRest(s, w, row, s.t, Retarget(h), Done, t1, Reread, [JoinStep(w, Inserted)] + []);
  }

  lemma InsertsNext(s: State, w: nat, row: Join, h: Held)
    requires HeldOk(s.t.intents, row, h)
    ensures var t := s.t.(intents := WithPhase(s.t.intents, h.id, Cancelled)
                                     [s.t.minted := Intent(row.guild, row.user, row.lobby, row.profile, Prepared, None, s.clock, None)],
                          minted := s.t.minted + 1);
            After(Standing(s, w, row, Marked(s.t, h.id, Cancelled), Reread), [JoinStep(w, Inserted)] + [])
            == Some(Goto(s.(t := t), w, row, Preflight(Held(s.t.minted, row.lobby, row.profile, Prepared, None))))
  {
    var s1 := Standing(s, w, row, Marked(s.t, h.id, Cancelled), Reread);
    RereadInserts(s, w, row, h);
    var end := Next(s1, JoinStep(w, Inserted)).value;
    assert After(end, []) == Some(end);
    hide JoinNext, Next, After, HeldOk, Goto, Standing;
    Runs(s1, JoinStep(w, Inserted), end, []);
  }

  lemma StepAndRest(s: State, w: nat, row: Join, t: Tables, pc: JoinPc, r: Reply, t': Tables, pc': JoinPc, rest: seq<Action>)
    requires JoinNext(Standing(s, w, row, t, pc), w, row, pc, r) == Some(Goto(Standing(s, w, row, t', pc), w, row, pc'))
    ensures After(Standing(s, w, row, t, pc), [JoinStep(w, r)] + rest) == After(Standing(s, w, row, t', pc'), rest)
  {
    hide JoinNext, After;
    assert s.runs[w := JoinRun(row, pc)][w := JoinRun(row, pc')] == s.runs[w := JoinRun(row, pc')];
    Runs(Standing(s, w, row, t, pc), JoinStep(w, r), Standing(s, w, row, t', pc'), rest);
  }

  lemma RereadInserts(s: State, w: nat, row: Join, h: Held)
    requires HeldOk(s.t.intents, row, h)
    ensures var t := Marked(s.t, h.id, Cancelled);
            Next(Standing(s, w, row, t, Reread), JoinStep(w, Inserted))
            == Some(Goto(s.(t := InsertIntent(t, row, s.clock)), w, row,
                         Preflight(Held(s.t.minted, row.lobby, row.profile, Prepared, None))))
  {
    var t := Marked(s.t, h.id, Cancelled);
    assert forall i :: !OpenFor(t, i, row.guild, row.user);
    assert s.runs[w := JoinRun(row, Reread)][w := JoinRun(row, Preflight(Held(s.t.minted, row.lobby, row.profile, Prepared, None)))]
        == s.runs[w := JoinRun(row, Preflight(Held(s.t.minted, row.lobby, row.profile, Prepared, None)))];
  }

  // ---- rooms that are found, or gone ---------------------------------------------------

  /** An answer that leads to state s1 and there to the end of the run. */
  lemma EndedAfter(s: State, w: nat, row: Join, at: JoinPc, r: Reply, s1: State, delay: real)
    requires w in s.runs && s.runs[w] == JoinRun(row, at)
    requires JoinNext(s, w, row, at, r) == Some(Goto(s1, w, row, End(Some(delay)))) && s1.t.joins == s.t.joins
    ensures Leaves(s1, After(s, [JoinStep(w, r)] + Dones(w, 1)), w, row, map[], Due(delay), None)
  {
    assert TablesAre(s1.t, s1.t, map[], None);
    hide JoinNext, Next, After, Leaves, Ended, Standing, Goto, TablesAre;
    DelayedLeaves(s1, w, row, s1.t, delay, map[], None);
    AnswerIs(s, w, row, at, r, s1, End(Some(delay)), 1);
    Ends(s1, w, row, s1.t, Some(delay));
  }

  lemma StepBetween(s: State, w: nat, row: Join, pc: JoinPc, s1: State, pc': JoinPc, n: nat)
    requires s1.runs == s.runs
    requires JoinNext(Standing(s, w, row, s.t, pc), w, row, pc, Done) == Some(Goto(Standing(s1, w, row, s1.t, pc), w, row, pc'))
    ensures After(Standing(s, w, row, s.t, pc), Dones(w, n + 1)) == After(Standing(s1, w, row, s1.t, pc'), Dones(w, n))
  {
    hide JoinNext, After;
    assert s.runs[w := JoinRun(row, pc)][w := JoinRun(row, pc')] == s.runs[w := JoinRun(row, pc')];
    Return(Standing(s, w, row, s.t, pc), w, Standing(s1, w, row, s1.t, pc'), n);
  }

  /** The same with one write on the way. */
  lemma EndedAfterWrite(s: State, w: nat, row: Join, at: JoinPc, r: Reply, pc: JoinPc, s1: State, delay: real)
    requires w in s.runs && s.runs[w] == JoinRun(row, at) && JoinNext(s, w, row, at, r) == Some(Goto(s, w, row, pc))
    requires s1.runs == s.runs && s1.t.joins == s.t.joins
    requires JoinNext(Standing(s, w, row, s.t, pc), w, row, pc, Done)
             == Some(Goto(Standing(s1, w, row, s1.t, pc), w, row, End(Some(delay))))
    ensures Leaves(s1, After(s, [JoinStep(w, r)] + Dones(w, 2)), w, row, map[], Due(delay), None)
  {
    assert TablesAre(s1.t, s1.t, map[], None);
    hide JoinNext, Next, After, Leaves, Ended, Standing, Goto, TablesAre;
    DelayedLeaves(s1, w, row, s1.t, delay, map[], None);
    AnswerIs(s, w, row, at, r, s, pc, 2);
    StepBetween(s, w, row, pc, s1, End(Some(delay)), 1);
    Ends(s1, w, row, s1.t, Some(delay));
  }

  /** The member's other room is empty: it is handed to the cleanups, and the
      request waits 5 seconds. */
  lemma EmptyOtherRoomIsCleaned(s: State, w: nat, row: Join, h: Held, c: Channel)
    requires w in s.runs && s.runs[w] == JoinRun(row, FetchOther(h, c)) && Vacated(s, c)
    ensures Leaves(s, After(s, [JoinStep(w, Vacant)] + Dones(w, 2)), w, row, map[], Due(5.0), Some(c))
  {
    var t := AddCleanup(s.t, row.guild, c, None);
    OtherRoomSteps(s, w, row, h, c);
    assert TablesAre(s.t, t, map[], Some(c));
    hide JoinNext, Next, After, Leaves, Ended, Standing, Goto, TablesAre, AddCleanup, Vacated;
    DelayedLeaves(s, w, row, t, 5.0, map[], Some(c));
    AnswerIs(s, w, row, FetchOther(h, c), Vacant, s, OtherEmpty(c), 2);
    TwoToEnd(s, w, row, s.t, OtherEmpty(c), t, Some(5.0));
  }

  /** What is left once the record of a channel that is gone is dropped. */
  function Unlisted(s: State, c: Channel): State {
    s.(t := s.t.(rooms := s.t.rooms - {c}), tracked := s.tracked - {c})
  }

  lemma OtherRoomSteps(s: State, w: nat, row: Join, h: Held, c: Channel)
    ensures Vacated(s, c) ==> JoinNext(s, w, row, FetchOther(h, c), Vacant) == Some(Goto(s, w, row, OtherEmpty(c)))
    ensures c !in s.world.live ==> JoinNext(s, w, row, FetchOther(h, c), Missing) == Some(Goto(s, w, row, OtherGone(c)))
    ensures JoinNext(Standing(s, w, row, s.t, OtherEmpty(c)), w, row, OtherEmpty(c), Done)
            == Some(Goto(Standing(s, w, row, AddCleanup(s.t, row.guild, c, None), OtherEmpty(c)), w, row, End(Some(5.0))))
    ensures var s1 := Unlisted(s, c);
            JoinNext(Standing(s, w, row, s.t, OtherGone(c)), w, row, OtherGone(c), Done)
            == Some(Goto(Standing(s1, w, row, s1.t, OtherGone(c)), w, row, End(Some(1.0))))
  {
    hide AddCleanup, Vacated;
  }

  /** It is gone: its record is dropped, and the request comes back at once. */
  lemma GoneOtherRoomIsForgotten(s: State, w: nat, row: Join, h: Held, c: Channel)
    requires w in s.runs && s.runs[w] == JoinRun(row, FetchOther(h, c)) && c !in s.world.live
    ensures Leaves(Unlisted(s, c), After(s, [JoinStep(w, Missing)] + Dones(w, 2)), w, row, map[], Due(1.0), None)
  {
    OtherRoomSteps(s, w, row, h, c);
    hide JoinNext, After, Leaves, Goto, Standing;
    EndedAfterWrite(s, w, row, FetchOther(h, c), Missing, OtherGone(c), Unlisted(s, c), 1.0);
  }

  /** The intents of channel c that are closed because it is gone. */
  function ClosedWith(n: map<IntentId, Intent>, c: Channel): map<IntentId, Phase> {
    map i | i in n && n[i].channel == Some(c) && n[i].phase != Completed :: Cancelled
  }

  lemma OwnRoomSteps(s: State, w: nat, row: Join, h: Held, c: Channel)
    requires h.channel == Some(c)
    ensures c !in s.world.live ==> JoinNext(s, w, row, FetchOwn(h), Missing) == Some(Goto(s, w, row, OwnGone(h)))
    ensures var s1 := Unlisted(s, c);
            && JoinNext(Standing(s, w, row, s.t, OwnGone(h)), w, row, OwnGone(h), Done)
               == Some(Goto(Standing(s1, w, row, s1.t, OwnGone(h)), w, row, OwnGoneIntent(h)))
            && JoinNext(Standing(s1, w, row, s1.t, OwnGoneIntent(h)), w, row, OwnGoneIntent(h), Done)
               == Some(Goto(Standing(s1, w, row, Deleted(s1.t, c), OwnGoneIntent(h)), w, row, End(Some(1.0))))
  {
    hide Deleted;
  }

  lemma DeletedIs(t: Tables, c: Channel)
    ensures TablesAre(t, Deleted(t, c), ClosedWith(t.intents, c), None) && Deleted(t, c).joins == t.joins
  {
  }

  /** The own room is gone: its record is dropped, its intents are closed, and
      the request comes back at once, to start over. */
  lemma GoneOwnRoomIsForgotten(s: State, w: nat, row: Join, h: Held, c: Channel)
    requires w in s.runs && s.runs[w] == JoinRun(row, FetchOwn(h)) && h.channel == Some(c) && c !in s.world.live
    ensures Leaves(Unlisted(s, c), After(s, [JoinStep(w, Missing)] + Dones(w, 3)), w, row, ClosedWith(s.t.intents, c), Due(1.0), None)
  {
    var s1 := Unlisted(s, c);
    OwnRoomSteps(s, w, row, h, c);
    DeletedIs(s1.t, c);
    hide JoinNext, Next, After, Leaves, Ended, Standing, Goto, TablesAre, Deleted, ClosedWith;
    DelayedLeaves(s1, w, row, Deleted(s1.t, c), 1.0, ClosedWith(s1.t.intents, c), None);
    AnswerIs(s, w, row, FetchOwn(h), Missing, s, OwnGone(h), 3);
    StepBetween(s, w, row, OwnGone(h), s1, OwnGoneIntent(h), 2);
    TwoToEnd(s1, w, row, s1.t, OwnGoneIntent(h), Deleted(s1.t, c), Some(1.0));
  }

  // ---- the audit ------------------------------------------------------------------------

  /** The audit log has no entry of the intent: it stays in doubt, and this
      process does not ask again. */
  lemma NoEvidenceKeepsTheDoubt(s: State, w: nat, row: Join, h: Held)
    requires w in s.runs && s.runs[w] == JoinRun(row, Audit(h)) && h.id !in s.audited
    ensures Leaves(s.(audited := s.audited + {h.id}), After(s, [JoinStep(w, NoEvidence)] + Dones(w, 1)), w, row,
                   map[], Due(60.0), None)
  {
    var s1 := s.(audited := s.audited + {h.id});
    assert JoinNext(s, w, row, Audit(h), NoEvidence) == Some(Goto(s1, w, row, End(Some(60.0))));
    hide JoinNext, After, Leaves, Goto;
    EndedAfter(s, w, row, Audit(h), NoEvidence, s1, 60.0);
  }

  /** With the room of the audit entry attached. */
  function Recovered(s: State, row: Join, h: Held, c: Channel): State
    requires h.id in s.t.intents
  {
    s.(audited := s.audited + {h.id}, tracked := s.tracked + {c},
       t := s.t.(rooms := if c in s.t.rooms then s.t.rooms else s.t.rooms[c := Room(row.guild, h.profile, row.user, None)],
                 intents := s.t.intents[h.id := s.t.intents[h.id].(channel := Some(c), phase := Created)]))
  }

  lemma AuditSteps(s: State, w: nat, row: Join, h: Held, c: Channel)
    requires h.id in s.t.intents && h.id !in s.audited && c in s.world.made && s.world.made[c] == h.id
    requires Attach(s.t, h.id, row.guild, row.user, h.profile, c).Some?
    ensures var s0, s1 := s.(audited := s.audited + {h.id}), Recovered(s, row, h, c);
            && JoinNext(s, w, row, Audit(h), Evidence(c)) == Some(Goto(s0, w, row, AuditAttach(h, c)))
            && JoinNext(Standing(s0, w, row, s0.t, AuditAttach(h, c)), w, row, AuditAttach(h, c), Done)
               == Some(Goto(Standing(s1, w, row, s1.t, AuditAttach(h, c)), w, row, End(Some(60.0))))
  {
    hide OthersClosed, OwnerFree;
  }

  /** It has one: the room is tracked for its owner, the intent has it, and the
      next run goes on from there. */
  lemma EvidenceRecoversTheRoom(s: State, w: nat, row: Join, h: Held, c: Channel)
    requires w in s.runs && s.runs[w] == JoinRun(row, Audit(h)) && h.id in s.t.intents && h.id !in s.audited
    requires c in s.world.made && s.world.made[c] == h.id && Attach(s.t, h.id, row.guild, row.user, h.profile, c).Some?
    ensures Leaves(Recovered(s, row, h, c), After(s, [JoinStep(w, Evidence(c))] + Dones(w, 2)), w, row, map[], Due(60.0), None)
  {
    var s0, s1 := s.(audited := s.audited + {h.id}), Recovered(s, row, h, c);
    AuditSteps(s, w, row, h, c);
    assert TablesAre(s1.t, s1.t, map[], None) && s1.t.joins == s.t.joins;
    hide JoinNext, Next, After, Leaves, Ended, Standing, Goto, TablesAre, Attach, Recovered;
    DelayedLeaves(s1, w, row, s1.t, 60.0, map[], None);
    AnswerIs(s, w, row, Audit(h), Evidence(c), s0, AuditAttach(h, c), 2);
    StepBetween(s0, w, row, AuditAttach(h, c), s1, End(Some(60.0)), 1);
    Ends(s1, w, row, s1.t, Some(60.0));
  }
}
