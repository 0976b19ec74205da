/** The gateway events and the start of the process, over the recovery store
    (bot.py, services/lifecycle_recovery.py). */
module Bot {
  import opened Common
  import opened Tables
  import opened Handlers
  import opened RecoveryStore

  /** Only the join queue changed, and only by losing the requests of `gone`. */
  ghost predicate Dequeued(t: Tables, t': Tables, gone: set<(Guild, User)>) {
    t' == t.(joins := t.joins - gone)
  }

  /** Every listed room has a cleanup without leaver that is due now. */
  ghost predicate Asked(t: Tables, cleanups: map<CleanupKey, Cleanup>, rooms: set<Channel>) {
    forall k: CleanupKey ::
      if k.leaver == None && k.channel in rooms
      then k in cleanups && cleanups[k].due == 0.0
      else (k in cleanups <==> k in t.cleanups) && (k in cleanups ==> cleanups[k] == t.cleanups[k])
  }

  lemma NoneDequeued(t: Tables)
    ensures Dequeued(t, t, {})
  {
    assert t.joins - {} == t.joins;
  }

  lemma OneDequeued(t: Tables, t1: Tables, done: set<(Guild, User)>, k: (Guild, User))
    requires Dequeued(t, t1, done)
    ensures Dequeued(t, CancelJoin(t1, k.0, k.1, None), done + {k})
  {
    assert k == (k.0, k.1);
    assert (t.joins - done) - {k} == t.joins - (done + {k});
    if k !in t1.joins {
      assert t.joins - done == t.joins - (done + {k});
    }
  }

  datatype Voice = Voice(g: Guild, u: User, isBot: bool, before: Option<Channel>, after: Option<Channel>)

  /** No intent of another member changes, and no cleanup but those that name
      member u as the leaver. */
  ghost predicate OthersKept(t: Tables, t': Tables, g: Guild, u: User) {
    && t'.intents.Keys == t.intents.Keys
    && (forall i | i in t.intents && (t.intents[i].guild != g || t.intents[i].user != u) :: t'.intents[i] == t.intents[i])
    && (forall k: CleanupKey | k.leaver != Some(u) ::
          (k in t'.cleanups <==> k in t.cleanups) && (k in t'.cleanups ==> t'.cleanups[k] == t.cleanups[k]))
    && t'.created == t.created
  }

  lemma ReleasedKeepsOthers(t: Tables, t': Tables, g: Guild, u: User)
    requires var ids := Abandonable(t.intents, g, u, true); Released(t, t', ids, ids, Some(u))
    ensures OthersKept(t, t', g, u)
  {
    hide RoomOf;
  }

  /** The member has left channel `before`. Unless they arrive in the room of a
      join of their own, each of their prepared, created,
      moved and blocked intents is cancelled, and its room has a cleanup that is due
      now. Their intents in other phases are as they were, and a remembered room
      that was left has its cleanup. */
  ghost predicate Departs(t: Tables, t': Tables, g: Guild, u: User, before: Channel, remembered: bool, after: Option<Channel>) {
    && t'.intents.Keys == t.intents.Keys && t'.rooms == t.rooms && t'.created == t.created
    && (remembered ==> var k := CleanupKey(before, Some(u)); k in t'.cleanups && t'.cleanups[k].due == 0.0)
    && (if ArrivesHome(t.intents, g, u, after) then t'.intents == t.intents
        else
          forall i | i in t.intents ::
               var n := t.intents[i];
               var ends := n.guild == g && n.user == u && n.phase in {Prepared, Created, Moved, PanelBlocked};
               && t'.intents[i] == (if ends then n.(phase := Cancelled) else n)
               && (ends && n.channel.Some? ==>
                     var k := CleanupKey(n.channel.value, Some(u)); k in t'.cleanups && t'.cleanups[k].due == 0.0))
  }

  lemma LeavingDeparts(t: Tables, t1: Tables, g: Guild, u: User, before: Channel, remembered: bool, after: Option<Channel>)
    requires ArrivesHome(t.intents, g, u, after) ==> t1 == t
    requires !ArrivesHome(t.intents, g, u, after) ==>
               EndsWork(t, t1, g, u, {Prepared, Created, Moved, PanelBlocked}, Some(u))
    ensures Departs(t, if remembered then AddCleanup(t1, before.guild, before, Some(u)) else t1, g, u, before, remembered, after)
  {
    hide RoomIn, ArrivesHome;
  }

  /** What a departure leaves, with the cleanup of a remembered room. */
  lemma LeaveMeans(t: Tables, t1: Tables, g: Guild, u: User, before: Channel, remembered: bool, after: Option<Channel>)
    requires MovedIn(t.intents, g, u, after) <==> ArrivesHome(t.intents, g, u, after)
    requires MovedIn(t.intents, g, u, after) ==> t1 == t
    requires !MovedIn(t.intents, g, u, after) ==>
               && t1.joins == t.joins - {(g, u)}
               && (var ids := Abandonable(t.intents, g, u, true); Released(t, t1, ids, ids, Some(u)))
               && EndsWork(t, t1, g, u, {Prepared, Created, Moved, PanelBlocked}, Some(u))
    ensures var t2 := if remembered then AddCleanup(t1, before.guild, before, Some(u)) else t1;
            && OthersKept(t, t2, g, u) && Departs(t, t2, g, u, before, remembered, after) && t2.rooms == t.rooms
            && (!MovedIn(t.intents, g, u, after) ==>
                  forall i | i in Abandonable(t.intents, g, u, true) :: i in t2.intents && t2.intents[i].phase == Cancelled)
            && (remembered ==> CleanupKey(before, Some(u)) in t2.cleanups)
            && t2.joins == (if MovedIn(t.intents, g, u, after) then t.joins else t.joins - {(g, u)})
  {
    if !MovedIn(t.intents, g, u, after) {
      ReleasedKeepsOthers(t, t1, g, u);
    }
    LeavingDeparts(t, t1, g, u, before, remembered, after);
    hide EndsWork, ArrivesHome, MovedIn, CleanupsFor, Departs;
  }

  class YapHub {
    const recovery: LifecycleRecovery
    var profiles: map<Channel, Profile>
    var active: set<Channel>

    constructor (recovery: LifecycleRecovery)
      ensures this.recovery == recovery && profiles == map[] && active == {}
    {
      this.recovery := recovery;
      profiles, active := map[], {};
    }

    ghost predicate Valid()
      reads this, recovery, recovery.store
    {
      recovery.store.Valid()
    }

    /** Cancels each listed request, in whatever revision it is by then. */
    method CancelAll(gone: set<(Guild, User)>)
      requires Valid()
      modifies recovery.store
      ensures Valid() && Dequeued(old(recovery.store.View()), recovery.store.View(), gone)
    {
      hide WellFormed, Dequeued, CancelJoin;
      ghost var t := recovery.store.View();
      var todo := gone;
      NoneDequeued(t);
      assert gone - todo == {};
      while todo != {}
        invariant todo <= gone && Valid() && Dequeued(t, recovery.store.View(), gone - todo)
        decreases |todo|
      {
        var k :| k in todo;
        OneDequeued(t, recovery.store.View(), gone - todo, k);
        var _ := recovery.store.Cancel(k.0, k.1, None);
        assert gone - (todo - {k}) == (gone - todo) + {k};
        todo := todo - {k};
      }
      assert gone - todo == gone;
    }

    /** load_runtime_cache: what the process remembers is what the tables hold,
        and requests whose profile is gone are dropped. */
    method LoadRuntimeCache(all: map<Channel, Profile>)
      requires Valid()
      modifies this, recovery.store
      ensures Valid() && profiles == all && active == old(recovery.store.rooms).Keys
      ensures var t := old(recovery.store.View());
              Dequeued(t, recovery.store.View(), set k | k in t.joins && t.joins[k].profile !in all.Values)
      ensures forall k :: k in recovery.store.joins <==>
                            k in old(recovery.store.joins) && old(recovery.store.joins)[k].profile in all.Values
      ensures forall k | k in recovery.store.joins :: recovery.store.joins[k] == old(recovery.store.joins)[k]
    {
      profiles, active := all, recovery.store.rooms.Keys;
      var joins := recovery.store.joins;
      CancelAll(set k | k in joins.Keys && joins[k].profile !in all.Values);
      assert (set k | k in joins.Keys && joins[k].profile !in all.Values)
          == (set k | k in old(recovery.store.View()).joins && old(recovery.store.View()).joins[k].profile !in all.Values);
    }

    method OnGuildRemove(g: Guild)
      requires Valid()
      modifies recovery.store
      ensures Valid()
      ensures Dequeued(old(recovery.store.View()), recovery.store.View(), GuildQueue(old(recovery.store.joins), g))
      ensures forall k :: k in recovery.store.joins <==> k in old(recovery.store.joins) && k.0 != g
      ensures forall k | k in recovery.store.joins :: recovery.store.joins[k] == old(recovery.store.joins)[k]
    {
      CancelAll(GuildQueue(recovery.store.joins, g));
    }

    /** A deletion the gateway confirms drops the record of a remembered room of
        that guild, and closes its intents; any other is ignored. */
    method OnGuildChannelDelete(c: Channel)
      requires Valid()
      modifies this`active, recovery.store
      ensures Valid()
      ensures var t := old(recovery.store.View());
              if c in old(active) && c in t.rooms && t.rooms[c].guild == c.guild
              then recovery.store.View() == Deleted(DropRoom(t, c), c) && active == old(active) - {c}
              else recovery.store.View() == t && active == old(active)
    {
      hide WellFormed;
      if c in active && c in recovery.store.rooms && recovery.store.rooms[c].guild == c.guild {
        recovery.store.DeleteRoom(c);
        active := active - {c};
        recovery.store.ChannelDeleted(c);
      }
    }

    /** schedule_reconcile: every tracked room is looked at again. */
    method ScheduleReconcile()
      requires Valid()
      modifies recovery.store
      ensures Valid()
      ensures var t := old(recovery.store.View());
              && recovery.store.View() == t.(cleanups := recovery.store.cleanups)
              && Asked(t, recovery.store.cleanups, t.rooms.Keys)
    {
      hide WellFormed;
      ghost var t := recovery.store.View();
      var rooms, todo := recovery.store.rooms, recovery.store.rooms.Keys;
      while todo != {}
        invariant todo <= rooms.Keys && Valid() && recovery.store.View() == t.(cleanups := recovery.store.cleanups)
        invariant Asked(t, recovery.store.cleanups, rooms.Keys - todo)
        decreases |todo|
      {
        var c :| c in todo;
        recovery.store.QueueCleanup(rooms[c].guild, c, None);
        todo := todo - {c};
      }
    }

    /** The departing half of on_voice_state_update. */
    method OnLeave(g: Guild, u: User, before: Channel, after: Option<Channel>)
      requires Valid()
      modifies recovery.store
      ensures Valid()
      ensures forall k | k != (g, u) ::
                (k in recovery.store.joins <==> k in old(recovery.store.joins))
                && (k in recovery.store.joins ==> recovery.store.joins[k] == old(recovery.store.joins)[k])
      ensures recovery.store.rooms == old(recovery.store.rooms)
      ensures !MovedIn(old(recovery.store.intents), g, u, after) ==>
                && (g, u) !in recovery.store.joins
                && forall i | i in Abandonable(old(recovery.store.intents), g, u, true) ::
                     i in recovery.store.intents && recovery.store.intents[i].phase == Cancelled
      ensures before in active ==> CleanupKey(before, Some(u)) in recovery.store.cleanups
      ensures OthersKept(old(recovery.store.View()), recovery.store.View(), g, u)
      ensures Departs(old(recovery.store.View()), recovery.store.View(), g, u, before, before in active, after)
      ensures recovery.store.joins == (if ArrivesHome(old(recovery.store.intents), g, u, after) then old(recovery.store.joins)
                                       else old(recovery.store.joins) - {(g, u)})
    {
      MovedInMeans(recovery.store.intents, g, u, after);
      ghost var t := recovery.store.View();
      hide WellFormed, CleanupsFor, MovedIn, ArrivesHome, EndsWork;
      recovery.CancelDeparture(g, u, after);
      ghost var t1 := recovery.store.View();
      LeaveMeans(t, t1, g, u, before, before in active, after);
      hide Released, Abandonable, Departs, OthersKept;
      if before in active {
        recovery.store.QueueCleanup(before.guild, before, Some(u));
      }
    }

    /** The arriving half: a request, counted as overflow if it finds no space. */
    method OnEnter(g: Guild, u: User, lobby: Channel, profile: Profile, now: real)
      requires Valid()
      modifies recovery, recovery.store
      ensures Valid()
      ensures recovery.store.View() == Enqueue(old(recovery.store.View()), g, u, lobby, profile, now)
      ensures recovery.overflow == old(recovery.overflow) + 1 || SameTarget(recovery.store.joins, g, u, lobby, profile)
    {
      hide WellFormed, Full;
      var _ := recovery.EnqueueMember(g, u, lobby, profile, now);
    }

    /** on_voice_state_update: a departure first, then the cleanup of a
        remembered room, then the request of a lobby. Nobody else's request,
        intent or cleanup and no tracked room is touched; a move into a lobby ends in its queue, a
        move elsewhere ends every request, every departure but the one into the
        own room ends all certain work of the member, and a room that was left
        gets its cleanup. */
    method OnVoiceStateUpdate(v: Voice, now: real)
      requires Valid()
      modifies recovery, recovery.store
      ensures Valid()
      ensures OthersKept(old(recovery.store.View()), recovery.store.View(), v.g, v.u)
      ensures v.isBot || (v.before.Some? && v.before == v.after) ==>
                recovery.store.View() == old(recovery.store.View()) && recovery.overflow == old(recovery.overflow)
      ensures forall k | k != (v.g, v.u) ::
                (k in recovery.store.joins <==> k in old(recovery.store.joins))
                && (k in recovery.store.joins ==> recovery.store.joins[k] == old(recovery.store.joins)[k])
      ensures recovery.store.rooms == old(recovery.store.rooms)
      ensures !v.isBot && v.after.Some? && v.before != v.after && v.after.value in profiles ==>
                recovery.overflow == old(recovery.overflow) + 1
                || SameTarget(recovery.store.joins, v.g, v.u, v.after.value, profiles[v.after.value])
      ensures !v.isBot && v.before != v.after && v.before.Some? && !MovedIn(old(recovery.store.intents), v.g, v.u, v.after) ==>
                && (!(v.after.Some? && v.after.value in profiles) ==> (v.g, v.u) !in recovery.store.joins)
                && forall i | i in Abandonable(old(recovery.store.intents), v.g, v.u, true) ::
                     i in recovery.store.intents && recovery.store.intents[i].phase == Cancelled
      ensures !v.isBot && v.before.Some? && v.before != v.after ==>
                Departs(old(recovery.store.View()), recovery.store.View(), v.g, v.u, v.before.value,
                        v.before.value in active, v.after)
      ensures !v.isBot && v.before.Some? && v.before != v.after && !(v.after.Some? && v.after.value in profiles) ==>
                recovery.store.joins == (if ArrivesHome(old(recovery.store.intents), v.g, v.u, v.after)
                                         then old(recovery.store.joins) else old(recovery.store.joins) - {(v.g, v.u)})
      ensures !v.isBot && v.before.None? ==>
                recovery.store.intents == old(recovery.store.intents) && recovery.store.cleanups == old(recovery.store.cleanups)
      ensures !v.isBot && v.before != v.after && v.before.Some? && v.before.value in active ==>
                CleanupKey(v.before.value, Some(v.u)) in recovery.store.cleanups
    {
      hide WellFormed, Full, MovedIn;
      if v.isBot {
        return;
      }
      if v.before.Some? && v.before == v.after {
        return;
      }
      if v.before.Some? {
        OnLeave(v.g, v.u, v.before.value, v.after);
      }
      if v.after.Some? && v.after.value in profiles {
        OnEnter(v.g, v.u, v.after.value, profiles[v.after.value], now);
      }
    }
  }
}
