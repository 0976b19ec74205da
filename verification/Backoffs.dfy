/** The two retry gates beside the API gate: room creation
    (services/create_backoff.py) and login (services/login_backoff.py). */
module Backoffs {
  import opened Common

  // ---- room creation ---------------------------------------------------------

  const UNKNOWN_RETRY_PAUSE := 60.0

  /** How the create request came back, if it was sent. `header` is the
      Retry-After value if that is a positive finite number; `local` tells a 429
      that bears every mark of a limit of the guild. */
  datatype Reply = Made | Rejected(header: Option<real>, local: bool) | OtherError

  datatype Outcome = Paused(remaining: real) | Sent(reply: Reply)

  function DeadlineIn(m: map<Guild, real>, g: Guild): real {
    if g in m then m[g] else 0.0
  }

  /** How long a create of guild g still has to wait. */
  function Wait(until: real, guilds: map<Guild, real>, g: Guild, now: real): real {
    Max(until, DeadlineIn(guilds, g)) - now
  }

  function Pause(reply: Reply): (d: real)
    requires reply.Rejected? && (reply.header.Some? ==> reply.header.value > 0.0)
    ensures d > 0.0
  {
    if reply.header.Some? then reply.header.value else UNKNOWN_RETRY_PAUSE
  }

  /** The gate as a value: what Create does to until and to every deadline. */
  datatype Gate = Gate(until: real, ever: map<Guild, real>)

  datatype Call = Call(g: Guild, now: real, later: real, reply: Reply)

  predicate Sends(s: Gate, c: Call) {
    Wait(s.until, s.ever, c.g, c.now) <= 0.0
  }

  function After(s: Gate, c: Call): Gate
    requires c.reply.Rejected? && c.reply.header.Some? ==> c.reply.header.value > 0.0
  {
    if !Sends(s, c) || !c.reply.Rejected? then s
    else if c.reply.local then s.(ever := s.ever[c.g := Max(DeadlineIn(s.ever, c.g), c.later + Pause(c.reply))])
    else s.(until := Max(s.until, c.later + Pause(c.reply)))
  }

  class CreateBackoff {
    var until: real
    var guildUntil: map<Guild, real>
    /** Every guild deadline there ever was, never pruned. */
    ghost var ever: map<Guild, real>

    /** From `now` on, the pruned deadlines decide like all of them. */
    ghost predicate Valid(now: real)
      reads this
    {
      && now >= 0.0
      && (forall g | g in guildUntil :: g in ever && ever[g] == guildUntil[g])
      && (forall g | g in ever && g !in guildUntil :: ever[g] <= now)
    }

    constructor ()
      ensures Valid(0.0) && until == 0.0 && ever == map[]
    {
      until, guildUntil, ever := 0.0, map[], map[];
    }

    /** One create under the lock: `now` when it got the lock, `later` when the
        reply came. */
    method Create(g: Guild, now: real, later: real, reply: Reply) returns (outcome: Outcome)
      requires Valid(now) && now <= later
      requires reply.Rejected? && reply.header.Some? ==> reply.header.value > 0.0
      modifies this
      ensures Valid(later)
      ensures var s, c := Gate(old(until), old(ever)), Call(g, now, later, reply);
              Gate(until, ever) == After(s, c) && (outcome.Sent? <==> Sends(s, c))
      ensures var wait := Wait(old(until), old(ever), g, now);
              outcome == if wait > 0.0 then Paused(wait) else Sent(reply)
      ensures outcome.Sent? && reply.Rejected? ==>
                if reply.local
                then until == old(until)
                     && ever == old(ever)[g := Max(DeadlineIn(old(ever), g), later + Pause(reply))]
                else ever == old(ever) && until == Max(old(until), later + Pause(reply))
      ensures outcome.Paused? || !reply.Rejected? ==> until == old(until) && ever == old(ever)
    {
      ghost var kept := guildUntil;
      guildUntil := map k | k in guildUntil && guildUntil[k] > now :: guildUntil[k];
      assert forall k | k in kept && k !in guildUntil :: kept[k] <= now;
      var remaining := Max(until, DeadlineIn(guildUntil, g)) - now;
      if remaining > 0.0 {
        return Paused(remaining);
      }
      if reply.Rejected? {
        var deadline := later + Pause(reply);
        if reply.local {
          guildUntil := guildUntil[g := Max(DeadlineIn(guildUntil, g), deadline)];
          ever := ever[g := Max(DeadlineIn(ever, g), deadline)];
        } else {
          until := Max(until, deadline);
        }
      }
      return Sent(reply);
    }
  }

  predicate Sound(calls: seq<Call>) {
    forall i | 0 <= i < |calls| ::
      calls[i].reply.Rejected? && calls[i].reply.header.Some? ==> calls[i].reply.header.value > 0.0
  }

  function AfterAll(s: Gate, calls: seq<Call>): Gate
    requires Sound(calls)
    decreases |calls|
  {
    if calls == [] then s else AfterAll(After(s, calls[0]), calls[1..])
  }

  lemma {:induction false} DeadlinesOnlyGrow(s: Gate, calls: seq<Call>, g: Guild)
    requires Sound(calls)
    ensures AfterAll(s, calls).until >= s.until
    ensures DeadlineIn(AfterAll(s, calls).ever, g) >= DeadlineIn(s.ever, g)
    decreases |calls|
  {
    if calls != [] {
      assert calls[0].reply.Rejected? && calls[0].reply.header.Some? ==> calls[0].reply.header.value > 0.0;
      assert forall i | 0 <= i < |calls[1..]| :: calls[1..][i] == calls[i + 1];
      DeadlinesOnlyGrow(After(s, calls[0]), calls[1..], g);
    }
  }

  /** After a 429, no create of its scope is sent before the pause is over:
      one guild for a limit that is certainly local, every guild otherwise. */
  lemma NoCreateBeforeThePause(s: Gate, first: Call, calls: seq<Call>, next: Call)
    requires Sound([first] + calls) && Sends(s, first) && first.reply.Rejected?
    requires first.reply.header.Some? ==> first.reply.header.value > 0.0
    requires Sound(calls) && Sends(AfterAll(After(s, first), calls), next)
    requires first.reply.local ==> next.g == first.g
    ensures next.now >= first.later + Pause(first.reply)
  {
    DeadlinesOnlyGrow(After(s, first), calls, next.g);
  }

  /** Exactly what a 429 stops: the creates of its guild if it is certainly a limit
      of the guild, else every create, until the named pause, or a minute, is over.
      Any other answer, and a create that was not sent, stops nothing. */
  lemma PauseIsExact(s: Gate, first: Call, next: Call)
    requires first.reply.Rejected? && first.reply.header.Some? ==> first.reply.header.value > 0.0
    ensures var pause := if first.reply.Rejected? && first.reply.header.Some? then first.reply.header.value else 60.0;
            var stops := Sends(s, first) && first.reply.Rejected? && (first.reply.local ==> next.g == first.g);
            Sends(After(s, first), next) <==> Sends(s, next) && (stops ==> next.now >= first.later + pause)
    ensures Sends(s, next) <==> next.now >= s.until && next.now >= (if next.g in s.ever then s.ever[next.g] else 0.0)
  {
  }

  // ---- login -------------------------------------------------------------------

  const FIRST_PAUSE := 60.0
  const LONGEST_PAUSE := 900.0

  /** How one login attempt ended. */
  datatype Login = LoggedIn | Deferred(delay: real) | TooMany(header: Option<real>) | Fatal

  datatype Result = Up | Raised | Waiting

  /** The local pause after n rejections. */
  function Backoff(n: nat): (d: real)
    ensures FIRST_PAUSE <= d <= LONGEST_PAUSE
  {
    if n == 0 then FIRST_PAUSE else Min(2.0 * Backoff(n - 1), LONGEST_PAUSE)
  }

  function Rejections(replies: seq<Login>): nat {
    if replies == [] then 0
    else Rejections(replies[..|replies| - 1]) + (if replies[|replies| - 1].TooMany? then 1 else 0)
  }

  /** What is slept after the attempt that follows `before`. */
  function Sleep(before: seq<Login>, reply: Login): real
    requires reply.Deferred? || reply.TooMany?
  {
    if reply.Deferred? then reply.delay
    else if reply.header.Some? then reply.header.value
    else Backoff(Rejections(before))
  }

  predicate Retries(reply: Login) {
    reply.Deferred? || reply.TooMany?
  }

  /** The login loop over the attempts the environment answers. */
  method LoginWithBackoff(replies: seq<Login>) returns (slept: seq<real>, result: Result)
    ensures |slept| <= |replies|
    ensures forall i | 0 <= i < |slept| :: Retries(replies[i]) && slept[i] == Sleep(replies[..i], replies[i])
    ensures forall i | 0 <= i < |slept| ::
              match replies[i]
              case Deferred(delay) => slept[i] == delay
              case TooMany(Some(named)) => slept[i] == named
              case TooMany(None) => slept[i] == Min(60.0 * (Pow2(Rejections(replies[..i])) as real), 900.0)
              case _ => false
    ensures result == Up <==> |slept| < |replies| && replies[|slept|] == LoggedIn
    ensures result == Raised <==> |slept| < |replies| && replies[|slept|] == Fatal
    ensures result == Waiting <==> |slept| == |replies|
  {
    forall n ensures Backoff(n) == Min(60.0 * (Pow2(n) as real), LONGEST_PAUSE) {
      BackoffIsCappedDoubling(n);
    }
    var fallback := FIRST_PAUSE;
    slept := [];
    for i := 0 to |replies|
      invariant |slept| == i && fallback == Backoff(Rejections(replies[..i]))
      invariant forall j | 0 <= j < i :: Retries(replies[j]) && slept[j] == Sleep(replies[..j], replies[j])
    {
      assert replies[..i + 1][..i] == replies[..i];
      match replies[i] {
        case LoggedIn => return slept, Up;
        case Fatal => return slept, Raised;
        case Deferred(delay) => slept := slept + [delay];
        case TooMany(header) =>
          slept := slept + [if header.Some? then header.value else fallback];
          fallback := Min(fallback * 2.0, LONGEST_PAUSE);
      }
    }
    return slept, Waiting;
  }

  function Pow2(n: nat): nat {
    if n == 0 then 1 else 2 * Pow2(n - 1)
  }

  /** The loop's fallback is the doubling sequence, capped: 60, 120, 240, 480
      and then 900 for good. */
  lemma {:induction false} BackoffIsCappedDoubling(n: nat)
    ensures Backoff(n) == Min(60.0 * (Pow2(n) as real), LONGEST_PAUSE)
    ensures n >= 4 ==> Backoff(n) == LONGEST_PAUSE
  {
    if n > 0 {
      BackoffIsCappedDoubling(n - 1);
      if n == 4 {
        assert Pow2(4) == 2 * Pow2(3) && Pow2(3) == 2 * Pow2(2) && Pow2(2) == 2 * Pow2(1) && Pow2(1) == 2 * Pow2(0);
      }
    }
  }
}
