/** Room overwrites as an access-control algebra (services/permissions.py),
    judged by Discord's resolution order: @everyone, then roles with an allow
    beating a deny, then the member. */
module Permissions {
  import opened Common

  datatype Perm = Allow | Deny | Unset
  datatype Attr = Connect | View
  datatype Target = Role(id: nat) | Member(id: nat)

  /** `rest` stands for all other permissions; 0 is none set. */
  datatype Overwrite = Overwrite(connect: Perm, view: Perm, rest: nat)

  type Overwrites = map<Target, Overwrite>

  const BLANK := Overwrite(Unset, Unset, 0)
  const EVERYONE := Role(0)

  /** overwrites_for: an absent overwrite reads as a blank one. */
  function For(m: Overwrites, t: Target): Overwrite {
    if t in m then m[t] else BLANK
  }

  function Get(o: Overwrite, a: Attr): Perm {
    if a.Connect? then o.connect else o.view
  }

  function Set(o: Overwrite, a: Attr, p: Perm): Overwrite {
    if a.Connect? then o.(connect := p) else o.(view := p)
  }

  function At(m: Overwrites, t: Target, a: Attr): Perm {
    Get(For(m, t), a)
  }

  /** set_permissions; an empty overwrite is removed. */
  function Put(m: Overwrites, t: Target, o: Overwrite): Overwrites {
    if o == BLANK then m - {t} else m[t := o]
  }

  // ---- resolution ------------------------------------------------------------

  /** Whether a member who is no administrator has the permission; `base` is
      what the server grants, `roles` are the member's roles but @everyone. */
  predicate Resolve(m: Overwrites, a: Attr, base: bool, member: nat, roles: set<nat>) {
    var p0 := if At(m, EVERYONE, a) == Unset then base else At(m, EVERYONE, a) == Allow;
    var p1 := if exists r :: r in roles && r != EVERYONE.id && At(m, Role(r), a) == Allow then true
              else if exists r :: r in roles && r != EVERYONE.id && At(m, Role(r), a) == Deny then false
              else p0;
    if At(m, Member(member), a) == Unset then p1 else At(m, Member(member), a) == Allow
  }

  // ---- the two transformations -----------------------------------------------

  /** Who a restriction is for. `me` is the bot, `wanted` the owner, the permit
      holders and the occupants. */
  datatype Plan = Plan(me: Option<nat>, wanted: set<nat>, denied: set<nat>)

  predicate IsBot(me: Option<nat>, t: Target) {
    t.Member? && me == Some(t.id)
  }

  predicate Granted(plan: Plan, t: Target) {
    t.Member? && t.id in plan.wanted && t.id !in plan.denied && plan.me != Some(t.id)
  }

  /** What restricting does to the permission of one target. */
  function Tightened(plan: Plan, t: Target, p: Perm): Perm {
    if IsBot(plan.me, t) then Allow
    else if t == EVERYONE then Deny
    else if t.Role? then (if p == Allow then Deny else p)
    else if Granted(plan, t) then Allow
    else p
  }

  /** Who a lift keeps, which members the cache resolves, the category. */
  datatype Ease = Ease(me: Option<nat>, preserve: set<nat>, known: set<nat>, category: Option<Overwrites>)

  function Desired(ease: Ease, t: Target, a: Attr): Perm {
    if ease.category.Some? then At(ease.category.value, t, a) else Unset
  }

  /** What lifting does to the permission of one target. */
  function Loosened(ease: Ease, t: Target, a: Attr, p: Perm): Perm {
    if t == EVERYONE then Unset
    else if t.Role? then (if p == Deny then Desired(ease, t, a) else p)
    else if p == Allow && t.id in ease.known && t.id !in ease.preserve && ease.me != Some(t.id) then Unset
    else p
  }

  datatype Change = Tighten(plan: Plan) | Loosen(ease: Ease)

  function Changed(change: Change, t: Target, a: Attr, p: Perm): Perm {
    match change
    case Tighten(plan) => Tightened(plan, t, p)
    case Loosen(ease) => Loosened(ease, t, a, p)
  }

  /** The overwrites after a call: one write per target it changes. */
  ghost predicate Does(m: Overwrites, m': Overwrites, change: Change, a: Attr) {
    forall t :: For(m', t) == Set(For(m, t), a, Changed(change, t, a, At(m, t, a)))
  }

  ghost predicate Same(m: Overwrites, n: Overwrites) {
    forall t :: For(m, t) == For(n, t)
  }

  // ---- restriction is complete -----------------------------------------------

  /** After restricting, a non-administrator has the permission exactly when
      their own overwrite allows it: no base permission and no combination of
      roles gets around it. */
  lemma RestrictionIsComplete(m: Overwrites, m': Overwrites, plan: Plan, a: Attr, base: bool, member: nat, roles: set<nat>)
    requires Does(m, m', Tighten(plan), a)
    ensures Resolve(m', a, base, member, roles) <==> At(m', Member(member), a) == Allow
  {
  }

  /** So it is the bot, whoever was wanted and is not denied, and whoever had an
      allow of their own before. */
  lemma WhoKeepsAccess(m: Overwrites, m': Overwrites, plan: Plan, a: Attr, base: bool, member: nat, roles: set<nat>)
    requires Does(m, m', Tighten(plan), a)
    ensures Resolve(m', a, base, member, roles) <==>
            || plan.me == Some(member)
            || (member in plan.wanted && member !in plan.denied)
            || At(m, Member(member), a) == Allow
  {
  }

  /** A change of one permission leaves the other, and all the rest, alone. */
  lemma OtherAttributeKept(m: Overwrites, m': Overwrites, change: Change, a: Attr, b: Attr, t: Target)
    requires Does(m, m', change, a) && a != b
    ensures At(m', t, b) == At(m, t, b) && For(m', t).rest == For(m, t).rest
  {
  }

  // ---- restrict, then lift -----------------------------------------------------

  /** When restricting and then lifting gives one target back what it had. */
  predicate Returns(m: Overwrites, plan: Plan, ease: Ease, a: Attr, t: Target) {
    var p := At(m, t, a);
    if t == EVERYONE then p == Unset
    else if t.Role? then p == Unset || p == Desired(ease, t, a)
    else
      var cleared := t.id in ease.known && t.id !in ease.preserve && ease.me != Some(t.id);
      if IsBot(plan.me, t) || Granted(plan, t) then (if cleared then p == Unset else p == Allow)
      else !(cleared && p == Allow)
  }

  /** The exact condition, target by target. */
  lemma RestrictThenLiftExactly(m: Overwrites, m1: Overwrites, m2: Overwrites, plan: Plan, ease: Ease, a: Attr, t: Target)
    requires Does(m, m1, Tighten(plan), a) && Does(m1, m2, Loosen(ease), a)
    ensures For(m2, t) == For(m, t) <==> Returns(m, plan, ease, a, t)
  {
  }

  /** A room as the bot leaves it between restrictions: @everyone unset, roles
      in sync with the category, allows exactly for the permit holders, denies
      only for blocked members. */
  ghost predicate Open(m: Overwrites, a: Attr, me: Option<nat>, permits: set<nat>, blocks: set<nat>,
                       category: Option<Overwrites>) {
    && At(m, EVERYONE, a) == Unset
    && (forall r: nat | r != EVERYONE.id ::
          At(m, Role(r), a) == if category.Some? then At(category.value, Role(r), a) else Unset)
    && (forall u: nat | me != Some(u) :: At(m, Member(u), a) == Allow <==> u in permits)
    && (forall u: nat | me != Some(u) :: At(m, Member(u), a) == Deny ==> u in blocks)
  }

  /** Then a lock and unlock, or a hide and unhide, leave everyone but the bot
      with what they had. Owner and occupants may be anyone. */
  lemma RestrictThenLiftIsIdentity(m: Overwrites, m1: Overwrites, m2: Overwrites, a: Attr, me: Option<nat>,
                                   permits: set<nat>, blocks: set<nat>, others: set<nat>, known: set<nat>,
                                   category: Option<Overwrites>, t: Target)
    requires Open(m, a, me, permits, blocks, category) && others <= known
    requires Does(m, m1, Tighten(Plan(me, (permits * known) + others, blocks * known)), a)
    requires Does(m1, m2, Loosen(Ease(me, permits * known, known, category)), a)
    requires !IsBot(me, t)
    ensures For(m2, t) == For(m, t)
  {
  }

  /** Lifting clears @everyone outright: a value of its own, such as one copied
      from the category, does not come back. */
  lemma LiftDoesNotRestoreEveryone(m: Overwrites, m1: Overwrites, m2: Overwrites, plan: Plan, ease: Ease, a: Attr)
    requires Does(m, m1, Tighten(plan), a) && Does(m1, m2, Loosen(ease), a)
    ensures At(m2, EVERYONE, a) == At(m, EVERYONE, a) <==> At(m, EVERYONE, a) == Unset
  {
  }

  // ---- the two permissions are independent -----------------------------------------

  /** Changes of different permissions commute: lock or unlock with hide or
      unhide, whatever their plans. */
  lemma ChangesCommute(m: Overwrites, x: Overwrites, xy: Overwrites, y: Overwrites, yx: Overwrites,
                       c: Change, a: Attr, d: Change, b: Attr)
    requires a != b
    requires Does(m, x, c, a) && Does(x, xy, d, b)
    requires Does(m, y, d, b) && Does(y, yx, c, a)
    ensures Same(xy, yx)
  {
  }
}
