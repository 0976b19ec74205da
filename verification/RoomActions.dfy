/** Lock, hide, permit and block over the life of a room
    (services/room_actions.py, services/temp_channels.py): what the permit and
    block lists promise, whichever calls fail half-way. */
module RoomActions {
  import opened Common
  import opened Permissions
  import opened VoiceChannel

  datatype Room = Room(m: Overwrites, permits: set<nat>, blocks: set<nat>)

  // ---- list actions, part by part --------------------------------------------

  datatype Moderation = Permit | Unpermit | Block | Unblock | Kick

  /** One awaited part of a list action. */
  datatype Part = RemoveBlock | AddPermit | RemovePermit | AddBlock | Grants | Denies | Clears

  /** The parts in the order of the awaits. A disconnect that fails before a
      kick's first part is no event at all. */
  function Parts(act: Moderation): seq<Part> {
    match act
    case Permit => [RemoveBlock, AddPermit, Grants]
    case Unpermit => [RemovePermit, Clears]
    case Block => [Denies, RemovePermit, AddBlock]
    case Unblock => [RemoveBlock, Clears]
    case Kick => [RemovePermit, Clears]
  }

  function PartDone(r: Room, part: Part, x: nat): Room {
    var t := Member(x);
    match part
    case RemoveBlock => r.(blocks := r.blocks - {x})
    case AddPermit => r.(permits := r.permits + {x})
    case RemovePermit => r.(permits := r.permits - {x})
    case AddBlock => r.(blocks := r.blocks + {x})
    case Grants => r.(m := Put(r.m, t, Both(For(r.m, t), Allow)))
    case Denies => r.(m := Put(r.m, t, Both(For(r.m, t), Deny)))
    case Clears => r.(m := Cleared(r.m, x))
  }

  function PartsDone(r: Room, parts: seq<Part>, x: nat): Room
    decreases |parts|
  {
    if parts == [] then r else PartsDone(PartDone(r, parts[0], x), parts[1..], x)
  }

  /** An action whose part number `done` raised, or that went through. */
  function Stopped(r: Room, act: Moderation, x: nat, done: nat): Room
    requires done <= |Parts(act)|
  {
    PartsDone(r, Parts(act)[..done], x)
  }

  // ---- events ------------------------------------------------------------------

  /** `known` are the members the cache resolves; `complete` tells a call whose
      every write went through from one that failed somewhere, `done` how many
      parts of a list action did. */
  datatype Event =
    | Restricts(a: Attr, owner: Option<nat>, occupants: set<nat>, known: set<nat>, complete: bool)
    | Lifts(a: Attr, known: set<nat>, category: Option<Overwrites>, complete: bool)
    | Departs(member: nat, owner: Option<nat>, complete: bool)
    | Moderates(act: Moderation, member: nat, done: nat)

  function ChangeOf(r: Room, e: Event, me: Option<nat>): Change
    requires e.Restricts? || e.Lifts?
  {
    match e
    case Restricts(_, owner, occupants, known, _) =>
      Tighten(Plan(me, (r.permits * known) + (if owner.Some? then {owner.value} else {}) + occupants, r.blocks * known))
    case Lifts(_, known, category, _) => Loosen(Ease(me, r.permits * known, known, category))
  }

  /** One member's overwrite is replaced. */
  ghost predicate Sets(m: Overwrites, m': Overwrites, member: nat, o: Overwrite) {
    forall t :: For(m', t) == if t == Member(member) then o else For(m, t)
  }

  /** A departure that revokes: not the owner's, not of anyone on a list, and
      the bot's own moves are ignored. */
  predicate Revokes(r: Room, e: Event, me: Option<nat>) {
    e.Departs? && e.complete && e.owner.Some? && e.member != e.owner.value
    && e.member !in r.permits && e.member !in r.blocks && me != Some(e.member)
  }

  /** Bots can be neither permitted nor blocked; nothing keeps the other list
      actions from naming one. */
  predicate Refused(e: Event, me: Option<nat>) {
    e.Moderates? && (e.act == Permit || e.act == Block) && me == Some(e.member)
  }

  /** A restriction or lift leaves what its writes leave. */
  ghost predicate Happens(r: Room, r': Room, e: Event, me: Option<nat>) {
    if e.Moderates? then
      e.done <= |Parts(e.act)| && r' == if Refused(e, me) then r else Stopped(r, e.act, e.member, e.done)
    else
      && r'.permits == r.permits && r'.blocks == r.blocks
      && if e.Departs? then
           r'.m == if Revokes(r, e, me) then Cleared(r.m, e.member) else r.m
         else Leaves(r.m, r'.m, ChangeOf(r, e, me), e.a, me, e.complete)
  }

  /** Members in a voice channel, and resolved owners, are in the cache. */
  predicate Resolved(e: Event) {
    e.Restricts? ==> e.occupants <= e.known && (e.owner.Some? ==> e.owner.value in e.known)
  }

  // ---- the parts, in closed form -------------------------------------------------

  /** The first `done` parts of an action on member x. */
  function Effect(r: Room, act: Moderation, x: nat, done: nat): Room {
    var o := For(r.m, Member(x));
    match act
    case Permit =>
      Room(if done >= 3 then Put(r.m, Member(x), Both(o, Allow)) else r.m,
           if done >= 2 then r.permits + {x} else r.permits, if done >= 1 then r.blocks - {x} else r.blocks)
    case Block =>
      Room(if done >= 1 then Put(r.m, Member(x), Both(o, Deny)) else r.m,
           if done >= 2 then r.permits - {x} else r.permits, if done >= 3 then r.blocks + {x} else r.blocks)
    case Unblock =>
      Room(if done >= 2 then Cleared(r.m, x) else r.m,
           r.permits, if done >= 1 then r.blocks - {x} else r.blocks)
    case _ =>
      Room(if done >= 2 then Cleared(r.m, x) else r.m,
           if done >= 1 then r.permits - {x} else r.permits, r.blocks)
  }

  lemma {:induction false} OneMorePart(r: Room, parts: seq<Part>, part: Part, x: nat)
    ensures PartsDone(r, parts + [part], x) == PartDone(PartsDone(r, parts, x), part, x)
    decreases |parts|
  {
    if parts == [] {
      assert parts + [part] == [part] && [part][1..] == [];
    } else {
      assert (parts + [part])[1..] == parts[1..] + [part];
      OneMorePart(PartDone(r, parts[0], x), parts[1..], part, x);
    }
  }

  lemma {:induction false} StoppedIs(r: Room, act: Moderation, x: nat, done: nat)
    requires done <= |Parts(act)|
    ensures Stopped(r, act, x, done) == Effect(r, act, x, done)
    decreases done
  {
    if done > 0 {
      StoppedIs(r, act, x, done - 1);
      assert Parts(act)[..done] == Parts(act)[..done - 1] + [Parts(act)[done - 1]];
      OneMorePart(r, Parts(act)[..done - 1], Parts(act)[done - 1], x);
    }
  }

  // ---- the lists and the overwrites ---------------------------------------------

  ghost predicate Standing(m: Overwrites, x: nat, p: Perm) {
    forall a :: At(m, Member(x), a) == p
  }

  /** The lists are disjoint and the overwrites say what they say. */
  ghost predicate Agrees(r: Room) {
    && r.permits !! r.blocks
    && (forall x | x in r.permits :: Standing(r.m, x, Allow))
    && (forall x | x in r.blocks :: Standing(r.m, x, Deny))
  }

  /** What an action, or the part of it that went through, must not meet: a
      permit stops before its grant only where nothing was to grant, a block
      stops before its unpermit only for members without a permit, nobody
      unpermits or kicks a blocked member and nobody unblocks a permitted one. */
  ghost predicate Keeps(r: Room, act: Moderation, x: nat, done: nat) {
    match act
    case Permit => done == 2 ==> Standing(r.m, x, Allow)
    case Block => done == 1 ==> x !in r.permits
    case Unblock => done == 2 ==> x !in r.permits
    case Unpermit => done == 2 ==> x !in r.blocks
    case Kick => done == 2 ==> x !in r.blocks
  }

  lemma MembersKeepStanding(m: Overwrites, m': Overwrites, x: nat, y: nat, o: Overwrite, p: Perm)
    requires Sets(m, m', x, o) && y != x
    ensures Standing(m', y, p) <==> Standing(m, y, p)
  {
    assert For(m', Member(y)) == For(m, Member(y));
    assert forall b :: At(m', Member(y), b) == At(m, Member(y), b);
  }

  lemma BothStands(m: Overwrites, m': Overwrites, x: nat, p: Perm)
    requires Sets(m, m', x, Both(For(m, Member(x)), p))
    ensures Standing(m', x, p) && forall q | q != p :: !Standing(m', x, q)
  {
    assert For(m', Member(x)) == Both(For(m, Member(x)), p);
    assert At(m', Member(x), Connect) == p;
  }

  lemma ClearedSets(m: Overwrites, x: nat)
    ensures Sets(m, Cleared(m, x), x, Without(For(m, Member(x))))
  {
  }

  /** The overwrite the parts leave, if they write it. */
  function Written(act: Moderation, done: nat): Option<Perm> {
    match act
    case Permit => if done >= 3 then Some(Allow) else None
    case Block => if done >= 1 then Some(Deny) else None
    case _ => if done >= 2 then Some(Unset) else None
  }

  lemma EffectStands(r: Room, act: Moderation, x: nat, done: nat)
    ensures var r', w := Effect(r, act, x, done), Written(act, done);
            && (forall y, p | y != x :: Standing(r'.m, y, p) <==> Standing(r.m, y, p))
            && (w.None? ==> r'.m == r.m)
            && (w.Some? ==> Standing(r'.m, x, w.value) && forall q | q != w.value :: !Standing(r'.m, x, q))
  {
    var r', w := Effect(r, act, x, done), Written(act, done);
    if w.Some? {
      assert Without(For(r.m, Member(x))) == Both(For(r.m, Member(x)), Unset);
      forall t ensures For(r'.m, t) == if t == Member(x) then Both(For(r.m, Member(x)), w.value) else For(r.m, t) {
        PutIsFor(r.m, Member(x), Both(For(r.m, Member(x)), w.value), t);
        ClearedIsFor(r.m, x, t);
      }
      BothStands(r.m, r'.m, x, w.value);
      forall y, p | y != x ensures Standing(r'.m, y, p) <==> Standing(r.m, y, p) {
        MembersKeepStanding(r.m, r'.m, x, y, Both(For(r.m, Member(x)), w.value), p);
      }
    }
  }

  /** An action keeps lists and overwrites in agreement, wherever it stops, if
      and only if it meets none of what Keeps rules out. */
  lemma AgreementKeptExactly(r: Room, act: Moderation, x: nat, done: nat)
    requires Agrees(r) && done <= |Parts(act)|
    ensures Agrees(Stopped(r, act, x, done)) <==> Keeps(r, act, x, done)
  {
    StoppedIs(r, act, x, done);
    EffectStands(r, act, x, done);
    var r' := Effect(r, act, x, done);
    hide Standing, For, Put;
    assert forall y | y != x :: (y in r'.permits <==> y in r.permits) && (y in r'.blocks <==> y in r.blocks);
    assert Agrees(r') <==> !(x in r'.permits && x in r'.blocks)
                           && (x in r'.permits ==> Standing(r'.m, x, Allow)) && (x in r'.blocks ==> Standing(r'.m, x, Deny));
  }

  /** No action, wherever it stops, puts a member on both lists. */
  lemma ListsStayDisjoint(r: Room, r': Room, e: Event, me: Option<nat>)
    requires r.permits !! r.blocks && Happens(r, r', e, me)
    ensures r'.permits !! r'.blocks
  {
    if e.Moderates? && !Refused(e, me) {
      StoppedIs(r, e.act, e.member, e.done);
    }
  }

  // ---- whole lives -------------------------------------------------------------

  /** What a restriction or lift does, failed or not, to someone on a list. */
  lemma ListedKeepStanding(r: Room, r': Room, e: Event, me: Option<nat>, x: nat, p: Perm)
    requires Happens(r, r', e, me) && (e.Restricts? || e.Lifts?) && Resolved(e) && me != Some(x)
    requires Standing(r.m, x, p) && ((p == Allow && x in r.permits) || (p == Deny && x in r.blocks))
    ensures Standing(r'.m, x, p)
  {
    var t, c := Member(x), ChangeOf(r, e, me);
    assert Changed(c, t, e.a, At(r.m, t, e.a)) == p;
    forall b ensures At(r'.m, t, b) == p {
      assert At(r.m, t, b) == p;
      assert For(r'.m, t) == For(r.m, t) || For(r'.m, t) == Wanted(r.m, c, e.a, t);
    }
  }

  ghost predicate AvoidsBot(r: Room, me: Option<nat>) {
    forall x | x in r.permits + r.blocks :: me != Some(x)
  }

  lemma StepKeepsAgreement(r: Room, r': Room, e: Event, me: Option<nat>)
    requires Agrees(r) && AvoidsBot(r, me) && Happens(r, r', e, me) && Resolved(e)
    requires e.Moderates? ==> Keeps(r, e.act, e.member, e.done)
    ensures Agrees(r') && AvoidsBot(r', me)
  {
    if e.Moderates? {
      StoppedIs(r, e.act, e.member, e.done);
      AgreementKeptExactly(r, e.act, e.member, e.done);
    } else {
      forall x, p | (p == Allow && x in r.permits) || (p == Deny && x in r.blocks) ensures Standing(r'.m, x, p) {
        if !e.Departs? {
          ListedKeepStanding(r, r', e, me, x, p);
        } else if Revokes(r, e, me) {
          ClearedSets(r.m, e.member);
          MembersKeepStanding(r.m, r'.m, e.member, x, Without(For(r.m, Member(e.member))), p);
        }
      }
    }
  }

  ghost predicate Life(rooms: seq<Room>, events: seq<Event>, me: Option<nat>) {
    && |rooms| == |events| + 1
    && (forall i | 0 <= i < |events| ::
          && Happens(rooms[i], rooms[i + 1], events[i], me) && Resolved(events[i])
          && (events[i].Moderates? ==> Keeps(rooms[i], events[i].act, events[i].member, events[i].done)))
  }

  /** Whatever locks, unlocks, hides, unhides, departures and list actions come,
      complete or stopped at any write, as long as the list actions meet the
      condition above: each blocked member stays denied and each permit holder
      allowed, on both permissions. */
  lemma {:induction false} ListsAreKept(rooms: seq<Room>, events: seq<Event>, me: Option<nat>)
    requires Life(rooms, events, me) && Agrees(rooms[0]) && AvoidsBot(rooms[0], me)
    ensures Agrees(rooms[|events|]) && AvoidsBot(rooms[|events|], me)
    decreases |events|
  {
    hide Agrees, AvoidsBot, Happens, Keeps;
    if events != [] {
      var n := |events| - 1;
      ListsAreKept(rooms[..n + 1], events[..n], me);
      StepKeepsAgreement(rooms[n], rooms[n + 1], events[n], me);
    }
  }

  /** A blocked member is shut out of every room state, locked or open. */
  lemma BlockedNeverGetIn(r: Room, x: nat, a: Attr, base: bool, roles: set<nat>)
    requires Agrees(r)
    ensures x in r.blocks ==> !Resolve(r.m, a, base, x, roles)
    ensures x in r.permits ==> Resolve(r.m, a, base, x, roles)
  {
    if x in r.blocks {
      assert At(r.m, Member(x), a) == Deny;
    } else if x in r.permits {
      assert At(r.m, Member(x), a) == Allow;
    }
  }

  // ---- the bot -----------------------------------------------------------------

  /** An unpermit, unblock or kick that names the bot itself, and clears its
      overwrite while @everyone is denied. */
  predicate Evicts(r: Room, e: Event, me: Option<nat>, a: Attr) {
    e.Moderates? && me == Some(e.member) && e.act !in {Permit, Block} && e.done == 2 && At(r.m, EVERYONE, a) == Deny
  }

  /** The bot is never shut out of its room, by any event that fails anywhere:
      except exactly by such an action. */
  lemma BotStaysExactly(r: Room, r': Room, e: Event, me: Option<nat>, a: Attr)
    requires Happens(r, r', e, me) && BotSafe(r.m, me, a)
    ensures BotSafe(r'.m, me, a) <==> !Evicts(r, e, me, a)
  {
    if e.Restricts? || e.Lifts? {
      CallsKeepBotSafe(r.m, r'.m, ChangeOf(r, e, me), e.a, me, e.complete, a);
    } else if e.Moderates? && !Refused(e, me) {
      StoppedIs(r, e.act, e.member, e.done);
      hide Stopped;
      if me.Some? {
        BotUnderModeration(r, e.act, e.member, e.done, me.value, a);
      }
    } else if me.Some? {
      ClearedSets(r.m, e.member);
      assert For(r'.m, Member(me.value)) == For(r.m, Member(me.value)) && For(r'.m, EVERYONE) == For(r.m, EVERYONE);
    }
  }

  lemma BotUnderModeration(r: Room, act: Moderation, x: nat, done: nat, me: nat, a: Attr)
    ensures var r' := Effect(r, act, x, done);
            && At(r'.m, EVERYONE, a) == At(r.m, EVERYONE, a)
            && (x != me ==> At(r'.m, Member(me), a) == At(r.m, Member(me), a))
            && (x == me && act !in {Permit, Block} ==>
                  At(r'.m, Member(me), a) == if done >= 2 then Unset else At(r.m, Member(me), a))
  {
  }

  // ---- overlapping actions --------------------------------------------------------

  /** Part i adds to a list and none after it removes. */
  ghost predicate AddsLast(parts: seq<Part>, adds: Part, removes: Part, i: nat) {
    i < |parts| && parts[i] == adds && forall j | i < j < |parts| :: parts[j] != removes
  }

  /** Some part adds and none after it removes, or the member was on the list
      and none removes. */
  ghost predicate EndsOn(parts: seq<Part>, adds: Part, removes: Part, was: bool) {
    (exists i :: AddsLast(parts, adds, removes, i)) || (was && removes !in parts)
  }

  lemma AddsLastMore(parts: seq<Part>, part: Part, adds: Part, removes: Part, i: nat)
    ensures AddsLast(parts + [part], adds, removes, i)
            <==> (i == |parts| && part == adds) || (part != removes && AddsLast(parts, adds, removes, i))
  {
    var all := parts + [part];
    assert all[|parts|] == part && forall k | 0 <= k < |parts| :: all[k] == parts[k];
  }

  lemma EndsOnMore(parts: seq<Part>, part: Part, adds: Part, removes: Part, was: bool)
    requires adds != removes
    ensures EndsOn(parts + [part], adds, removes, was)
            <==> part == adds || (part != removes && EndsOn(parts, adds, removes, was))
  {
    hide AddsLast;
    forall i ensures AddsLast(parts + [part], adds, removes, i)
                     <==> (i == |parts| && part == adds) || (part != removes && AddsLast(parts, adds, removes, i)) {
      AddsLastMore(parts, part, adds, removes, i);
    }
    assert AddsLast(parts + [part], adds, removes, |parts|) || part != adds;
  }

  /** With one part of each kind, the order of the two decides. */
  lemma EndsOnByOrder(parts: seq<Part>, adds: Part, removes: Part, was: bool, a: nat, k: nat)
    requires adds != removes && a < |parts| && k < |parts|
    requires forall i | 0 <= i < |parts| :: (parts[i] == adds <==> i == a) && (parts[i] == removes <==> i == k)
    ensures EndsOn(parts, adds, removes, was) <==> k < a
  {
    if k < a {
      assert AddsLast(parts, adds, removes, a);
    } else {
      assert parts[k] == removes;
    }
  }

  /** However the parts of any actions interleave, the lists end up with what
      their last parts say. */
  lemma {:induction false} ListsAfter(r: Room, parts: seq<Part>, x: nat)
    ensures x in PartsDone(r, parts, x).permits <==> EndsOn(parts, AddPermit, RemovePermit, x in r.permits)
    ensures x in PartsDone(r, parts, x).blocks <==> EndsOn(parts, AddBlock, RemoveBlock, x in r.blocks)
    decreases |parts|
  {
    hide EndsOn;
    if parts == [] {
      NoPartsEndOn(AddPermit, RemovePermit, x in r.permits);
      NoPartsEndOn(AddBlock, RemoveBlock, x in r.blocks);
    } else {
      var n := |parts| - 1;
      var before, last := parts[..n], parts[n];
      assert before + [last] == parts;
      ListsAfter(r, before, x);
      OneMorePart(r, before, last, x);
      EndsOnMore(before, last, AddPermit, RemovePermit, x in r.permits);
      EndsOnMore(before, last, AddBlock, RemoveBlock, x in r.blocks);
    }
  }

  lemma NoPartsEndOn(adds: Part, removes: Part, was: bool)
    ensures EndsOn([], adds, removes, was) <==> was
  {
  }

  /** A permit and a block of one member that overlap leave them on both lists
      exactly when each adds after the other has removed. */
  lemma OverlapContradictsExactly(r: Room, parts: seq<Part>, x: nat, rb: nat, ap: nat, rp: nat, ab: nat)
    requires rb < |parts| && ap < |parts| && rp < |parts| && ab < |parts|
    requires forall i | 0 <= i < |parts| ::
               && (parts[i] == RemoveBlock <==> i == rb) && (parts[i] == AddPermit <==> i == ap)
               && (parts[i] == RemovePermit <==> i == rp) && (parts[i] == AddBlock <==> i == ab)
    ensures var r' := PartsDone(r, parts, x);
            x in r'.permits && x in r'.blocks <==> rp < ap && rb < ab
  {
    ListsAfter(r, parts, x);
    EndsOnByOrder(parts, AddPermit, RemovePermit, x in r.permits, ap, rp);
    EndsOnByOrder(parts, AddBlock, RemoveBlock, x in r.blocks, ab, rb);
  }

  /** Such as: the permit removes the block, the block denies and removes the
      permit, and then both go on. */
  lemma OverlapContradicts(r: Room, x: nat)
    ensures var r' := PartsDone(r, [RemoveBlock, Denies, RemovePermit, AddBlock, AddPermit, Grants], x);
            x in r'.permits && x in r'.blocks
  {
    OverlapContradictsExactly(r, [RemoveBlock, Denies, RemovePermit, AddBlock, AddPermit, Grants], x, 0, 4, 2, 3);
  }

  // ---- the actions as they are called ------------------------------------------------

  /** An unlock or unhide: @everyone is unset, a member keeps everything but an
      allow that no permit backs, a role that was denied has the category's value. */
  ghost predicate Lifted(m: Overwrites, m': Overwrites, a: Attr, me: Option<nat>, permits: set<nat>, known: set<nat>,
                         category: Option<Overwrites>)
  {
    && At(m', EVERYONE, a) == Unset
    && (forall u: nat :: At(m', Member(u), a) == if At(m, Member(u), a) == Allow && u in known && u !in permits && me != Some(u)
                                                 then Unset else At(m, Member(u), a))
    && (forall r: nat | r != EVERYONE.id ::
          At(m', Role(r), a) == if At(m, Role(r), a) != Deny then At(m, Role(r), a)
                                else if category.Some? then At(category.value, Role(r), a) else Unset)
    && (forall t, b | b != a :: At(m', t, b) == At(m, t, b)) && (forall t :: For(m', t).rest == For(m, t).rest)
  }

  lemma LiftMeans(m: Overwrites, m': Overwrites, a: Attr, me: Option<nat>, permits: set<nat>, known: set<nat>,
                  category: Option<Overwrites>)
    requires Does(m, m', Loosen(Ease(me, permits * known, known, category)), a)
    ensures Lifted(m, m', a, me, permits, known, category)
  {
  }

  /** One member's two permissions are set, nobody else's change. */
  ghost predicate StandsAlone(m: Overwrites, m': Overwrites, x: nat, p: Perm) {
    forall t :: For(m', t) == if t == Member(x) then For(m, t).(connect := p, view := p) else For(m, t)
  }

  lemma PutStandsAlone(m: Overwrites, x: nat, p: Perm)
    ensures StandsAlone(m, Put(m, Member(x), Both(For(m, Member(x)), p)), x, p)
  {
  }

  lemma ClearedStandsAlone(m: Overwrites, x: nat)
    ensures StandsAlone(m, Cleared(m, x), x, Unset)
  {
  }

  /** A room's channel and its two lists. Each action is an event of its life. */
  class RoomAccess {
    const channel: VoiceChannel
    var permits: set<nat>
    var blocks: set<nat>

    constructor (channel: VoiceChannel)
      ensures this.channel == channel && permits == {} && blocks == {}
    {
      this.channel := channel;
      permits, blocks := {}, {};
    }

    ghost function View(): Room
      reads this, channel
    {
      Room(channel.server, permits, blocks)
    }

    /** apply_lock and apply_hide: the sequences are what the cache resolves of
        the lists and of the channel's occupants. */
    method Restrict(a: Attr, me: Option<nat>, owner: Option<nat>, permitted: seq<nat>, occupants: seq<nat>,
                    blocked: seq<nat>, known: set<nat>, fails: nat -> bool, lag: nat -> nat)
      returns (ok: bool)
      requires channel.CaughtUp() && Ids(occupants) <= known
      requires Ids(permitted) == permits * known && Ids(blocked) == blocks * known
      modifies channel
      ensures var who := if owner.Some? && owner.value in known then owner else None;
              var e := Restricts(a, who, Ids(occupants), known, ok);
              Happens(old(View()), View(), e, me) && Resolved(e)
      ensures permits == old(permits) && blocks == old(blocks)
      ensures ok ==> forall x: nat, base, roles :: Resolve(channel.server, a, base, x, roles) <==>
                || me == Some(x)
                || (!(x in blocks && x in known) && (x in occupants || (x in known && (owner == Some(x) || x in permits))))
                || At(old(channel.server), Member(x), a) == Allow
      ensures ok ==> forall t, b | b != a :: At(channel.server, t, b) == At(old(channel.server), t, b)
    {
      ghost var m := channel.server;
      ok := RestrictFor(a, me, owner, permitted, occupants, blocked, known, fails, lag);
      var who := if owner.Some? && owner.value in known then owner else None;
      if ok {
        ghost var plan := Plan(me, (permits * known) + (if who.Some? then {who.value} else {}) + Ids(occupants), blocks * known);
        forall x: nat, base, roles ensures Resolve(channel.server, a, base, x, roles) <==>
            || me == Some(x)
            || (!(x in blocks && x in known) && (x in occupants || (x in known && (owner == Some(x) || x in permits))))
            || At(m, Member(x), a) == Allow
        {
          WhoKeepsAccess(m, channel.server, plan, a, base, x, roles);
          hide Resolve, Does;
        }
      }
    }

    /** The call itself, with the lists as they are. */
    method RestrictFor(a: Attr, me: Option<nat>, owner: Option<nat>, permitted: seq<nat>, occupants: seq<nat>,
                       blocked: seq<nat>, known: set<nat>, fails: nat -> bool, lag: nat -> nat)
      returns (ok: bool)
      requires channel.CaughtUp() && Ids(occupants) <= known
      requires Ids(permitted) == permits * known && Ids(blocked) == blocks * known
      modifies channel
      ensures var who := if owner.Some? && owner.value in known then owner else None;
              var e := Restricts(a, who, Ids(occupants), known, ok);
              Happens(old(View()), View(), e, me) && Resolved(e)
    {
      hide Leaves;
      var who := if owner.Some? && owner.value in known then owner else None;
      assert Ids(Candidates(who, permitted, occupants))
          == (permits * known) + (if who.Some? then {who.value} else {}) + Ids(occupants);
      ok := channel.Restrict(a, me, who, permitted, occupants, blocked, fails, lag);
    }

    /** apply_unlock and apply_unhide */
    method Lift(a: Attr, me: Option<nat>, permitted: seq<nat>, known: set<nat>, category: Option<Overwrites>,
                fails: nat -> bool, lag: nat -> nat)
      returns (ok: bool)
      requires channel.CaughtUp() && Ids(permitted) == permits * known
      modifies channel
      ensures Happens(old(View()), View(), Lifts(a, known, category, ok), me)
      ensures permits == old(permits) && blocks == old(blocks)
      ensures ok ==> Lifted(old(channel.server), channel.server, a, me, permits, known, category)
    {
      ghost var m := channel.server;
      hide Leaves;
      ok := channel.Lift(a, me, permitted, known, category, fails, lag);
      if ok {
        LiftMeans(m, channel.server, a, me, permits, known, category);
      }
    }

    /** A departure from a room that is still in use (cleanup_temp_channel): the
        access of a guest goes with them, that of the owner and of anyone on a list
        stays; a failed write is only logged. */
    method Depart(x: nat, me: Option<nat>, owner: Option<nat>, fails: nat -> bool, lag: nat -> nat) returns (ok: bool)
      requires channel.CaughtUp()
      modifies channel
      ensures permits == old(permits) && blocks == old(blocks)
      ensures Happens(old(View()), View(), Departs(x, owner, ok), me)
      ensures var guest := owner.Some? && owner.value != x && x !in permits && x !in blocks && me != Some(x);
              forall t :: For(channel.server, t) == if guest && ok && t == Member(x)
                                                    then For(old(channel.server), t).(connect := Unset, view := Unset)
                                                    else For(old(channel.server), t)
      ensures !fails(1) ==> ok
    {
      ok := true;
      if me != Some(x) && owner.Some? && owner.value != x && x !in permits && x !in blocks {
        ghost var m := channel.server;
        ok := channel.Revoke(x, fails, lag);
        forall t ensures For(Cleared(m, x), t) == if t == Member(x) then For(m, t).(connect := Unset, view := Unset) else For(m, t) {
          ClearedIsFor(m, x, t);
        }
      }
    }

    /** apply_permit; `stop` is the part whose await raises, if any. */
    method Permit(x: nat, me: Option<nat>, stop: nat, lag: nat -> nat)
      requires channel.CaughtUp()
      modifies this`permits, this`blocks, channel
      ensures Happens(old(View()), View(), Moderates(Moderation.Permit, x, if stop < 3 then stop else 3), me)
      ensures me != Some(x) && stop >= 3 ==>
                && permits == old(permits) + {x} && blocks == old(blocks) - {x}
                && StandsAlone(old(channel.server), channel.server, x, Allow)
    {
      if me == Some(x) {
        return;
      }
      StoppedIs(View(), Moderation.Permit, x, if stop < 3 then stop else 3);
      hide Stopped;
      if stop == 0 {
        return;
      }
      blocks := blocks - {x};
      if stop == 1 {
        return;
      }
      permits := permits + {x};
      PutStandsAlone(channel.server, x, Allow);
      var _ := channel.SetBoth(x, Allow, _ => stop == 2, lag);
    }

    /** apply_unpermit; apply_kick once the member is disconnected; there a
        failed revoke is only logged. */
    method Unpermit(act: Moderation, x: nat, me: Option<nat>, stop: nat, lag: nat -> nat)
      requires channel.CaughtUp() && (act == Moderation.Unpermit || act == Kick)
      modifies this`permits, channel
      ensures Happens(old(View()), View(), Moderates(act, x, if stop < 2 then stop else 2), me)
      ensures blocks == old(blocks) && (stop >= 1 ==> permits == old(permits) - {x})
      ensures stop >= 2 ==> StandsAlone(old(channel.server), channel.server, x, Unset)
    {
      StoppedIs(View(), act, x, if stop < 2 then stop else 2);
      hide Stopped;
      if stop == 0 {
        return;
      }
      permits := permits - {x};
      ClearedStandsAlone(channel.server, x);
      var _ := channel.Revoke(x, _ => stop == 1, lag);
    }

    /** apply_block: the deny comes first, and nothing is recorded without it. */
    method Block(x: nat, me: Option<nat>, stop: nat, lag: nat -> nat)
      requires channel.CaughtUp()
      modifies this`permits, this`blocks, channel
      ensures Happens(old(View()), View(), Moderates(Moderation.Block, x, if stop < 3 then stop else 3), me)
      ensures me != Some(x) && stop >= 3 ==>
                && permits == old(permits) - {x} && blocks == old(blocks) + {x}
                && StandsAlone(old(channel.server), channel.server, x, Deny)
      ensures stop == 0 ==> View() == old(View())
    {
      if me == Some(x) {
        return;
      }
      StoppedIs(View(), Moderation.Block, x, if stop < 3 then stop else 3);
      hide Stopped;
      PutStandsAlone(channel.server, x, Deny);
      var denied := channel.SetBoth(x, Deny, _ => stop == 0, lag);
      if !denied || stop == 1 {
        return;
      }
      permits := permits - {x};
      if stop == 2 {
        return;
      }
      blocks := blocks + {x};
    }

    /** apply_unblock */
    method Unblock(x: nat, me: Option<nat>, stop: nat, lag: nat -> nat)
      requires channel.CaughtUp()
      modifies this`blocks, channel
      ensures Happens(old(View()), View(), Moderates(Moderation.Unblock, x, if stop < 2 then stop else 2), me)
      ensures permits == old(permits) && (stop >= 1 ==> blocks == old(blocks) - {x})
      ensures stop >= 2 ==> StandsAlone(old(channel.server), channel.server, x, Unset)
    {
      StoppedIs(View(), Moderation.Unblock, x, if stop < 2 then stop else 2);
      hide Stopped;
      if stop == 0 {
        return;
      }
      blocks := blocks - {x};
      ClearedStandsAlone(channel.server, x);
      var _ := channel.Revoke(x, _ => stop == 1, lag);
    }
  }
}
