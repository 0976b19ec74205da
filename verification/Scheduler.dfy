/** The shared rotation of the join and cleanup queues: choose and the start of
    tick (services/lifecycle_recovery.py). */
module Scheduler {
  import opened Common

  /** A due row of either queue; `id` stands for the rest of it. */
  datatype Work = Work(guild: Guild, due: real, id: nat)

  const MAX_JOIN_TURNS := 3

  predicate Eligible(row: Work, now: real, busy: set<Guild>) {
    row.due <= now && row.guild !in busy
  }

  function Eligibles(rows: seq<Work>, now: real, busy: set<Guild>): (r: seq<Work>)
    ensures forall x :: x in r <==> x in rows && Eligible(x, now, busy)
  {
    if rows == [] then []
    else (if Eligible(rows[0], now, busy) then [rows[0]] else []) + Eligibles(rows[1..], now, busy)
  }

  function Guilds(rows: seq<Work>): set<Guild> {
    set r | r in rows :: r.guild
  }

  ghost predicate Distinct(s: seq<Guild>) {
    forall i, j | 0 <= i < j < |s| :: s[i] != s[j]
  }

  /** Newcomers join the rotation at its end, in listing order. */
  function Joined(rotation: seq<Guild>, listing: seq<Guild>): seq<Guild>
    decreases |listing|
  {
    if listing == [] then rotation
    else Joined(if listing[0] in rotation then rotation else rotation + [listing[0]], listing[1..])
  }

  /** Where the first guild of `guilds` stands, or the length if there is none. */
  function First(rotation: seq<Guild>, guilds: set<Guild>): (k: nat)
    ensures k <= |rotation|
    ensures k < |rotation| ==> rotation[k] in guilds
    ensures forall i | 0 <= i < k :: rotation[i] !in guilds
  {
    if rotation == [] then 0
    else if rotation[0] in guilds then 0
    else 1 + First(rotation[1..], guilds)
  }

  function Turned(rotation: seq<Guild>, k: nat): seq<Guild>
    requires k <= |rotation|
  {
    rotation[k..] + rotation[..k]
  }

  /** The rotation after one call. */
  function After(rotation: seq<Guild>, guilds: set<Guild>, listing: seq<Guild>): seq<Guild> {
    var all := Joined(rotation, listing);
    var k := First(all, guilds);
    if k < |all| then Turned(all, k + 1) else all
  }

  function Picked(rotation: seq<Guild>, guilds: set<Guild>, listing: seq<Guild>): Option<Guild> {
    var all := Joined(rotation, listing);
    var k := First(all, guilds);
    if k < |all| then Some(all[k]) else None
  }

  /** sorted(guilds), in whatever order the ids sort. */
  ghost predicate Lists(listing: seq<Guild>, guilds: set<Guild>) {
    Distinct(listing) && forall g :: g in listing <==> g in guilds
  }

  // ---- the rotation itself ---------------------------------------------------

  lemma {:induction false} JoinedHolds(rotation: seq<Guild>, listing: seq<Guild>)
    requires Distinct(rotation)
    ensures Distinct(Joined(rotation, listing))
    ensures rotation <= Joined(rotation, listing)
    ensures forall g :: g in Joined(rotation, listing) <==> g in rotation || g in listing
    decreases |listing|
  {
    if listing != [] {
      var next := if listing[0] in rotation then rotation else rotation + [listing[0]];
      JoinedHolds(next, listing[1..]);
      forall g ensures g in listing <==> g == listing[0] || g in listing[1..] {
      }
    }
  }

  lemma TurnedHolds(rotation: seq<Guild>, k: nat)
    requires Distinct(rotation) && k <= |rotation|
    ensures Distinct(Turned(rotation, k)) && |Turned(rotation, k)| == |rotation|
    ensures forall p | 0 <= p < |rotation| ::
              Turned(rotation, k)[if p >= k then p - k else p + |rotation| - k] == rotation[p]
  {
  }

  /** A guild never stands in the rotation twice. */
  lemma NoDuplicates(rotation: seq<Guild>, guilds: set<Guild>, listing: seq<Guild>)
    requires Distinct(rotation)
    ensures Distinct(After(rotation, guilds, listing))
  {
    JoinedHolds(rotation, listing);
    var all := Joined(rotation, listing);
    if First(all, guilds) < |all| {
      TurnedHolds(all, First(all, guilds) + 1);
    }
  }

  /** Someone is picked exactly when someone is eligible. */
  lemma PicksWhenItCan(rotation: seq<Guild>, guilds: set<Guild>, listing: seq<Guild>)
    requires Distinct(rotation) && Lists(listing, guilds)
    ensures Picked(rotation, guilds, listing).Some? <==> guilds != {}
    ensures Picked(rotation, guilds, listing).Some? ==> Picked(rotation, guilds, listing).value in guilds
  {
    JoinedHolds(rotation, listing);
    var all := Joined(rotation, listing);
    if guilds != {} {
      var g :| g in guilds;
      assert g in all;
    }
  }

  /** Where the guild at position p, newcomers included, stands after a call,
      in every case. Only a guild that is passed over while someone behind it is
      picked falls back. */
  lemma PositionAfter(rotation: seq<Guild>, guilds: set<Guild>, listing: seq<Guild>, p: nat)
    requires Distinct(rotation) && p < |Joined(rotation, listing)|
    ensures var all := Joined(rotation, listing);
            var k := First(all, guilds);
            var q := if k == |all| then p else if p > k then p - k - 1 else p + |all| - k - 1;
            q < |After(rotation, guilds, listing)| && After(rotation, guilds, listing)[q] == all[p]
    ensures Picked(rotation, guilds, listing) == Some(Joined(rotation, listing)[p]) <==>
            First(Joined(rotation, listing), guilds) == p
  {
    hide Joined, First, Turned;
    JoinedHolds(rotation, listing);
    var all := Joined(rotation, listing);
    var k := First(all, guilds);
    if k < |all| {
      TurnedHolds(all, k + 1);
      assert Turned(all, k + 1)[if p >= k + 1 then p - k - 1 else p + |all| - k - 1] == all[p];
    }
  }

  // ---- bounded waiting -------------------------------------------------------

  datatype Call = Call(guilds: set<Guild>, listing: seq<Guild>)

  /** The picks of a series of calls; busy and due may change freely between. */
  function Picks(rotation: seq<Guild>, calls: seq<Call>): (r: seq<Option<Guild>>)
    ensures |r| == |calls|
    decreases |calls|
  {
    if calls == [] then []
    else [Picked(rotation, calls[0].guilds, calls[0].listing)]
         + Picks(After(rotation, calls[0].guilds, calls[0].listing), calls[1..])
  }

  /** A guild at position p, counting those that join with the first call, is
      picked by one of p + 1 successive calls if it is eligible in each. */
  lemma {:induction false} BoundedWaiting(rotation: seq<Guild>, calls: seq<Call>, p: nat)
    requires Distinct(rotation) && |calls| == p + 1 && p < |Joined(rotation, calls[0].listing)|
    requires forall c | c in calls :: Joined(rotation, calls[0].listing)[p] in c.guilds
    ensures Some(Joined(rotation, calls[0].listing)[p]) in Picks(rotation, calls)
    decreases |calls|
  {
    var c0 := calls[0];
    var all, next := Joined(rotation, c0.listing), After(rotation, c0.guilds, c0.listing);
    PositionAfter(rotation, c0.guilds, c0.listing, p);
    var k := First(all, c0.guilds);
    assert c0 in calls && k <= p;
    if k == p {
      assert Picks(rotation, calls)[0] == Some(all[p]);
    } else {
      NoDuplicates(rotation, c0.guilds, c0.listing);
      var rest := calls[1..];
      var some := rest[..p - k];
      assert forall c | c in some :: c in calls;
      JoinedHolds(next, some[0].listing);
      assert Joined(next, some[0].listing)[p - k - 1] == next[p - k - 1] == all[p];
      BoundedWaiting(next, some, p - k - 1);
      PicksPrefix(next, rest, p - k);
      assert Some(all[p]) in Picks(next, rest);
    }
  }

  lemma {:induction false} PicksPrefix(rotation: seq<Guild>, calls: seq<Call>, n: nat)
    requires n <= |calls|
    ensures Picks(rotation, calls[..n]) == Picks(rotation, calls)[..n]
    decreases n
  {
    hide After, Picked;
    if n > 0 {
      var next := After(rotation, calls[0].guilds, calls[0].listing);
      assert calls[..n][1..] == calls[1..][..n - 1] && calls[..n][0] == calls[0];
      PicksPrefix(next, calls[1..], n - 1);
    }
  }

  /** How often guild g could have been picked. */
  function Chances(calls: seq<Call>, g: Guild): nat {
    if calls == [] then 0 else (if g in calls[0].guilds then 1 else 0) + Chances(calls[1..], g)
  }

  /** Guild g is not eligible and someone behind it is picked. */
  predicate PassesOver(all: seq<Guild>, guilds: set<Guild>, g: Guild) {
    g !in guilds && First(all, guilds) < |all| && g in all[..First(all, guilds)]
  }

  ghost predicate NeverPassedOver(rotation: seq<Guild>, calls: seq<Call>, g: Guild)
    decreases |calls|
  {
    calls == []
    || (!PassesOver(Joined(rotation, calls[0].listing), calls[0].guilds, g)
        && NeverPassedOver(After(rotation, calls[0].guilds, calls[0].listing), calls[1..], g))
  }

  /** The bound over the mixed calls of both queues: a guild at position p that
      is never passed over while ineligible is picked by its (p + 1)-th chance. */
  lemma {:induction false} BoundedChances(rotation: seq<Guild>, calls: seq<Call>, g: Guild, p: nat)
    requires Distinct(rotation) && calls != []
    requires p < |Joined(rotation, calls[0].listing)| && Joined(rotation, calls[0].listing)[p] == g
    requires NeverPassedOver(rotation, calls, g) && Chances(calls, g) >= p + 1
    ensures Some(g) in Picks(rotation, calls)
    decreases |calls|
  {
    var c0, rest := calls[0], calls[1..];
    var all, next := Joined(rotation, c0.listing), After(rotation, c0.guilds, c0.listing);
    var k := First(all, c0.guilds);
    PositionAfter(rotation, c0.guilds, c0.listing, p);
    if k == p {
      assert Picks(rotation, calls)[0] == Some(g);
    } else {
      NoDuplicates(rotation, c0.guilds, c0.listing);
      var q := if k == |all| then p else p - k - 1;
      assert p < k ==> all[..k][p] == g;
      JoinedHolds(next, rest[0].listing);
      assert Joined(next, rest[0].listing)[q] == next[q] == g;
      BoundedChances(next, rest, g, q);
      assert Picks(rotation, calls)[1..] == Picks(next, rest);
    }
  }

  /** Over both queues the bound fails: join calls that find {a, b} due and
      cleanup calls that find only {c} due never pick b, however long. */
  function Alternating(a: Guild, b: Guild, c: Guild, rounds: nat): seq<Call> {
    if rounds == 0 then []
    else [Call({a, b}, [a, b])] + [Call({c}, [c])] + Alternating(a, b, c, rounds - 1)
  }

  lemma {:induction false} MixedQueuesCanStarve(a: Guild, b: Guild, c: Guild, rounds: nat)
    requires a != b && b != c && a != c
    ensures Some(b) !in Picks([a, b, c], Alternating(a, b, c, rounds))
  {
    hide After, Picked;
    if rounds > 0 {
      var rest := Alternating(a, b, c, rounds - 1);
      JoinCallPicksA(a, b, c);
      CleanCallPicksC(a, b, c);
      TwoCalls([a, b, c], Call({a, b}, [a, b]), Call({c}, [c]), rest);
      MixedQueuesCanStarve(a, b, c, rounds - 1);
    }
  }

  lemma TwoCalls(rotation: seq<Guild>, first: Call, second: Call, rest: seq<Call>)
    ensures var mid := After(rotation, first.guilds, first.listing);
            Picks(rotation, [first] + [second] + rest)
            == [Picked(rotation, first.guilds, first.listing)] + [Picked(mid, second.guilds, second.listing)]
               + Picks(After(mid, second.guilds, second.listing), rest)
  {
    hide After, Picked;
    var calls := [first] + [second] + rest;
    assert calls[1..] == [second] + rest && calls[1..][1..] == rest;
  }

  lemma JoinCallPicksA(a: Guild, b: Guild, c: Guild)
    requires a != b && b != c && a != c
    ensures Picked([a, b, c], {a, b}, [a, b]) == Some(a) && After([a, b, c], {a, b}, [a, b]) == [b, c, a]
  {
    assert [a, b][1..] == [b];
    assert [b][1..] == [];
    assert Joined([a, b, c], [b]) == Joined([a, b, c], []);
    assert Joined([a, b, c], [a, b]) == Joined([a, b, c], [b]);
  }

  lemma CleanCallPicksC(a: Guild, b: Guild, c: Guild)
    requires a != b && b != c && a != c
    ensures Picked([b, c, a], {c}, [c]) == Some(c) && After([b, c, a], {c}, [c]) == [a, b, c]
  {
    assert [c][1..] == [];
    assert Joined([b, c, a], [c]) == [b, c, a];
    assert [b, c, a][1..] == [c, a];
  }

  // ---- join turns ------------------------------------------------------------

  function TurnsOf(turns: map<Guild, nat>, g: Guild): nat {
    if g in turns then turns[g] else 0
  }

  /** The join rows a tick still considers. */
  function Rationed(rows: seq<Work>, turns: map<Guild, nat>, due: set<Guild>): (r: seq<Work>)
    ensures forall x :: x in r <==> x in rows && (TurnsOf(turns, x.guild) < MAX_JOIN_TURNS || x.guild !in due)
  {
    if rows == [] then []
    else (if TurnsOf(turns, rows[0].guild) < MAX_JOIN_TURNS || rows[0].guild !in due then [rows[0]] else [])
         + Rationed(rows[1..], turns, due)
  }

  /** What one tick starts: a join of guild g while the guilds in `due` have
      cleanup due, a cleanup of guild g, or nothing. */
  datatype Turn = JoinTurn(g: Guild, due: set<Guild>) | CleanTurn(g: Guild) | NoTurn

  predicate Allowed(turns: map<Guild, nat>, turn: Turn) {
    turn.JoinTurn? ==> TurnsOf(turns, turn.g) < MAX_JOIN_TURNS || turn.g !in turn.due
  }

  function TurnsAfter(turns: map<Guild, nat>, turn: Turn): map<Guild, nat> {
    match turn
    case JoinTurn(g, _) => turns[g := TurnsOf(turns, g) + 1]
    case CleanTurn(g) => turns[g := 0]
    case NoTurn => turns
  }

  ghost predicate AllowedAll(turns: map<Guild, nat>, run: seq<Turn>)
    decreases |run|
  {
    run == [] || (Allowed(turns, run[0]) && AllowedAll(TurnsAfter(turns, run[0]), run[1..]))
  }

  function JoinsOf(run: seq<Turn>, g: Guild): nat {
    if run == [] then 0
    else (if run[0].JoinTurn? && run[0].g == g then 1 else 0) + JoinsOf(run[1..], g)
  }

  /** While a guild's cleanup stays due, at most three of its joins start
      before its cleanup does, whatever it had before. */
  lemma {:induction false} AtMostThreeJoins(turns: map<Guild, nat>, run: seq<Turn>, g: Guild)
    requires AllowedAll(turns, run)
    requires forall i | 0 <= i < |run| :: run[i] != CleanTurn(g) && (run[i].JoinTurn? ==> g in run[i].due)
    ensures JoinsOf(run, g) <= MAX_JOIN_TURNS
    ensures JoinsOf(run, g) + TurnsOf(turns, g) <= MAX_JOIN_TURNS || JoinsOf(run, g) == 0
    decreases |run|
  {
    if run != [] {
      assert run[0] != CleanTurn(g) && (run[0].JoinTurn? ==> g in run[0].due);
      AtMostThreeJoins(TurnsAfter(turns, run[0]), run[1..], g);
    }
  }

  /** The rows a tick hands to choose. */
  function Considered(cleanup: bool, rows: seq<Work>, cleanups: seq<Work>, turns: map<Guild, nat>, now: real): seq<Work> {
    if cleanup then cleanups else Rationed(rows, turns, Guilds(Eligibles(cleanups, now, {})))
  }

  function TurnOf(cleanup: bool, row: Work, cleanups: seq<Work>, now: real): Turn {
    if cleanup then CleanTurn(row.guild) else JoinTurn(row.guild, Guilds(Eligibles(cleanups, now, {})))
  }

  /** No row of its guild comes before it. */
  ghost predicate IsFirst(row: Work, rows: seq<Work>) {
    exists i :: 0 <= i < |rows| && rows[i] == row && forall j | 0 <= j < i :: rows[j].guild != row.guild
  }

  /** No row of the same guild that is due comes before it. */
  ghost predicate NoneDueBefore(rows: seq<Work>, row: Work, now: real) {
    exists i :: 0 <= i < |rows| && rows[i] == row && forall j | 0 <= j < i :: rows[j].guild != row.guild || rows[j].due > now
  }

  lemma FirstOfRest(rows: seq<Work>, row: Work)
    requires rows != [] && IsFirst(row, rows)
    ensures rows[0].guild == row.guild ==> rows[0] == row
    ensures rows[0].guild != row.guild ==> IsFirst(row, rows[1..])
  {
    var i :| 0 <= i < |rows| && rows[i] == row && forall j | 0 <= j < i :: rows[j].guild != row.guild;
    if i > 0 {
      var rest := rows[1..];
      assert rest[i - 1] == row && forall j | 0 <= j < i - 1 :: rest[j] == rows[j + 1];
    }
  }

  lemma EligiblesNext(rows: seq<Work>, now: real, busy: set<Guild>)
    requires rows != []
    ensures var e, rest := Eligibles(rows, now, busy), Eligibles(rows[1..], now, busy);
            if Eligible(rows[0], now, busy) then e != [] && e[0] == rows[0] && e[1..] == rest else e == rest
  {
  }

  lemma {:induction false} FirstDue(rows: seq<Work>, now: real, busy: set<Guild>, row: Work)
    requires IsFirst(row, Eligibles(rows, now, busy)) && row.guild !in busy
    ensures NoneDueBefore(rows, row, now)
    decreases |rows|
  {
    if rows != [] {
      EligiblesNext(rows, now, busy);
      var e := Eligibles(rows, now, busy);
      if Eligible(rows[0], now, busy) {
        FirstOfRest(e, row);
      }
      hide IsFirst, Eligibles;
      if Eligible(rows[0], now, busy) && rows[0].guild == row.guild {
        assert rows[0] == row;
      } else {
        FirstDue(rows[1..], now, busy, row);
        OneBefore(rows, row, now);
      }
    }
  }

  lemma OneBefore(rows: seq<Work>, row: Work, now: real)
    requires rows != [] && (rows[0].guild != row.guild || rows[0].due > now) && NoneDueBefore(rows[1..], row, now)
    ensures NoneDueBefore(rows, row, now)
  {
    var rest := rows[1..];
    var i :| 0 <= i < |rest| && rest[i] == row && forall j | 0 <= j < i :: rest[j].guild != row.guild || rest[j].due > now;
    assert rows[i + 1] == row;
    forall j | 0 <= j < i + 1 ensures rows[j].guild != row.guild || rows[j].due > now {
      assert j > 0 ==> rows[j] == rest[j - 1];
    }
  }

  lemma SomeGuild(rows: seq<Work>, now: real, busy: set<Guild>)
    ensures Guilds(Eligibles(rows, now, busy)) != {} <==> exists r :: r in rows && r.due <= now && r.guild !in busy
  {
    var e := Eligibles(rows, now, busy);
    if r :| r in rows && r.due <= now && r.guild !in busy {
      assert r in e && r.guild in Guilds(e);
    }
    if g :| g in Guilds(e) {
      var r :| r in e && r.guild == g;
      assert r in rows;
    }
  }

  lemma DueGuilds(cleanups: seq<Work>, now: real)
    ensures forall g :: g in Guilds(Eligibles(cleanups, now, {})) <==> exists c :: c in cleanups && c.guild == g && c.due <= now
  {
    var e := Eligibles(cleanups, now, {});
    forall g ensures g in Guilds(e) <==> exists c :: c in cleanups && c.guild == g && c.due <= now {
      if c :| c in cleanups && c.guild == g && c.due <= now {
        assert c in e;
      }
      if g in Guilds(e) {
        var c :| c in e && c.guild == g;
        assert c in cleanups;
      }
    }
  }

  /** Which rows a tick passes over: joins of a guild that has had its three turns
      while cleanup is due there. */
  lemma ConsideredMeans(cleanup: bool, rows: seq<Work>, cleanups: seq<Work>, turns: map<Guild, nat>, now: real)
    ensures forall x :: x in Considered(cleanup, rows, cleanups, turns, now) <==>
              if cleanup then x in cleanups
              else x in rows && !(x.guild in turns && turns[x.guild] >= 3
                                  && exists c :: c in cleanups && c.guild == x.guild && c.due <= now)
  {
    DueGuilds(cleanups, now);
    hide Guilds, Eligibles;
  }

  // ---- the object --------------------------------------------------------------

  class Scheduler {
    var busy: set<Guild>
    var rotation: seq<Guild>
    var turns: map<Guild, nat>

    ghost predicate Valid()
      reads this
    {
      Distinct(rotation)
    }

    constructor ()
      ensures Valid() && busy == {} && rotation == [] && turns == map[]
    {
      busy, rotation, turns := {}, [], map[];
    }

    /** The newcomers' loop of choose. */
    method Admit(listing: seq<Guild>)
      modifies this`rotation
      ensures rotation == Joined(old(rotation), listing)
    {
      var n := 0;
      while n < |listing|
        invariant 0 <= n <= |listing|
        invariant Joined(rotation, listing[n..]) == Joined(old(rotation), listing)
      {
        if listing[n] !in rotation {
          rotation := rotation + [listing[n]];
        }
        n := n + 1;
      }
    }

    /** The turning loop of choose: popleft and append until a guild fits. */
    method TurnTo(guilds: set<Guild>) returns (guild: Option<Guild>)
      modifies this`rotation
      ensures var all := old(rotation);
              var k := First(all, guilds);
              && rotation == (if k < |all| then Turned(all, k + 1) else all)
              && guild == (if k < |all| then Some(all[k]) else None)
    {
      ghost var all := rotation;
      for i := 0 to |rotation|
        invariant |rotation| == |all| && rotation == Turned(all, i)
        invariant forall j | 0 <= j < i :: all[j] !in guilds
      {
        var front := rotation[0];
        rotation := rotation[1..] + [front];
        assert front == all[i] && rotation == Turned(all, i + 1);
        if front in guilds {
          FirstIs(all, guilds, i);
          return Some(front);
        }
      }
      FirstIs(all, guilds, |all|);
      return None;
    }

    /** Claims the guild of the row it returns. */
    method Choose(rows: seq<Work>, now: real, listing: seq<Guild>) returns (row: Option<Work>)
      requires Valid() && Lists(listing, Guilds(Eligibles(rows, now, busy)))
      modifies this`busy, this`rotation
      ensures Valid()
      ensures var guilds := Guilds(Eligibles(rows, now, old(busy)));
              && rotation == After(old(rotation), guilds, listing)
              && Picked(old(rotation), guilds, listing) == (if row.Some? then Some(row.value.guild) else None)
              && (row.Some? <==> guilds != {})
      ensures row.Some? ==> row.value in rows && Eligible(row.value, now, old(busy))
      ensures row.Some? ==> IsFirst(row.value, Eligibles(rows, now, old(busy)))
      ensures busy == old(busy) + (if row.Some? then {row.value.guild} else {})
      ensures row.Some? ==> row.value.due <= now && row.value.guild !in old(busy)
                            && NoneDueBefore(rows, row.value, now)
      ensures row.None? <==> forall r | r in rows :: r.due > now || r.guild in old(busy)
    {
      hide Distinct, Lists, Joined, Turned;
      SomeGuild(rows, now, busy);
      var eligible := Eligibles(rows, now, busy);
      var guilds := Guilds(eligible);
      NoDuplicates(rotation, guilds, listing);
      PicksWhenItCan(rotation, guilds, listing);
      Admit(listing);
      var guild := TurnTo(guilds);
      if guild.None? {
        return None;
      }
      busy := busy + {guild.value};
      var found := FindOf(eligible, guild.value);
      FirstDue(rows, now, old(busy), found);
      return Some(found);
    }

    /** The synchronous start of tick, up to the run it hands the row to. */
    method StartTick(cleanup: bool, rows: seq<Work>, cleanups: seq<Work>, now: real, listing: seq<Guild>)
      returns (row: Option<Work>)
      requires Valid()
      requires Lists(listing, Guilds(Eligibles(Considered(cleanup, rows, cleanups, turns, now), now, busy)))
      modifies this
      ensures Valid()
      ensures rotation == After(old(rotation),
                                Guilds(Eligibles(Considered(cleanup, rows, cleanups, old(turns), now), now, old(busy))),
                                listing)
      ensures row.None? ==> busy == old(busy) && turns == old(turns)
      ensures row.Some? ==>
                && row.value in (if cleanup then cleanups else rows) && Eligible(row.value, now, old(busy))
                && busy == old(busy) + {row.value.guild}
                && var turn := TurnOf(cleanup, row.value, cleanups, now);
                   Allowed(old(turns), turn) && turns == TurnsAfter(old(turns), turn)
      ensures row.Some? ==>
                var g := row.value.guild;
                var had := if g in old(turns) then old(turns)[g] else 0;
                && row.value.due <= now && g !in old(busy)
                && (!cleanup ==> had < 3 || forall c | c in cleanups :: c.guild != g || c.due > now)
                && turns == old(turns)[g := if cleanup then 0 else had + 1]
      ensures row.None? ==>
                forall r | r in (if cleanup then cleanups else rows) ::
                  || r.due > now || r.guild in old(busy)
                  || (!cleanup && r.guild in old(turns) && old(turns)[r.guild] >= 3
                      && exists c :: c in cleanups && c.guild == r.guild && c.due <= now)
    {
      hide Distinct, Lists, After, Picked, Guilds;
      ConsideredMeans(cleanup, rows, cleanups, turns, now);
      DueGuilds(cleanups, now);
      hide Considered, Eligibles, NoneDueBefore, IsFirst;
      row := Choose(Considered(cleanup, rows, cleanups, turns, now), now, listing);
      if row.Some? {
        turns := turns[row.value.guild := if cleanup then 0 else TurnsOf(turns, row.value.guild) + 1];
      }
    }

    /** tick's `finally`. */
    method Release(g: Guild)
      requires Valid()
      modifies this`busy
      ensures Valid() && busy == old(busy) - {g}
    {
      busy := busy - {g};
    }
  }

  lemma FirstIs(rotation: seq<Guild>, guilds: set<Guild>, k: nat)
    requires k <= |rotation| && (k < |rotation| ==> rotation[k] in guilds)
    requires forall j | 0 <= j < k :: rotation[j] !in guilds
    ensures First(rotation, guilds) == k
  {
  }

  /** The first row of a guild. */
  method FindOf(rows: seq<Work>, guild: Guild) returns (row: Work)
    requires guild in Guilds(rows)
    ensures row in rows && row.guild == guild && IsFirst(row, rows)
  {
    var i := 0;
    while rows[i].guild != guild
      invariant 0 <= i < |rows| && guild in Guilds(rows[i..])
      invariant forall j | 0 <= j < i :: rows[j].guild != guild
      decreases |rows| - i
    {
      assert rows[i..] == [rows[i]] + rows[i + 1..];
      i := i + 1;
    }
    return rows[i];
  }
}
