/** The store as an object: each method is one transaction that reassigns the
    tables in place, and each one keeps the queue bounds and unique indexes. */
module RecoveryStore {
  import opened Common
  import opened Tables
  import StoreRuns

  class RecoveryStore {
    var joins: map<(Guild, User), Join>
    var intents: map<IntentId, Intent>
    var rooms: map<Channel, Room>
    var cleanups: map<CleanupKey, Cleanup>
    var created: nat
    var minted: nat
    /** temp_channel_permits and temp_channel_blocks, which no transaction of
        the protocol but the deletion of a room touches. */
    var permits: set<(Channel, User)>
    var blocks: set<(Channel, User)>

    ghost function View(): Tables
      reads this
    {
      Tables(joins, intents, rooms, cleanups, created, minted)
    }

    ghost predicate Valid()
      reads this
    {
      WellFormed(View())
    }

    constructor ()
      ensures Valid() && View() == EMPTY && permits == {} && blocks == {}
    {
      joins, intents, rooms, cleanups, created, minted := map[], map[], map[], map[], 0, 0;
      permits, blocks := {}, {};
      new;
      StoreRuns.EmptyIsWellFormed();
    }

    method EnqueueJoin(g: Guild, u: User, lobby: Channel, profile: Profile, now: real) returns (accepted: bool)
      requires Valid()
      modifies this`joins, this`minted
      ensures Valid() && View() == Enqueue(old(View()), g, u, lobby, profile, now)
      ensures accepted == Accepts(old(View()), g, u)
      ensures accepted ==> SameTarget(joins, g, u, lobby, profile)
      ensures accepted <==> (g, u) in old(joins)
                            || (|old(joins)| < 500 && |set k | k in old(joins).Keys && k.0 == g| < 50)
      ensures var was := old(joins);
              if !accepted || ((g, u) in was && was[(g, u)].lobby == lobby && was[(g, u)].profile == profile)
              then joins == was && minted == old(minted)
              else joins == was[(g, u) := Join(g, u, lobby, profile, old(minted),
                                               if (g, u) in was then was[(g, u)].enqueued else now, 0.0)]
                   && minted == old(minted) + 1
    {
      hide WellFormed;
      StoreRuns.CommitKeepsWellFormed(View(), StoreRuns.OpEnqueue(g, u, lobby, profile), now);
      assert (set k | k in joins.Keys && k.0 == g) == GuildQueue(joins, g);
      if (g, u) in joins && joins[(g, u)].lobby == lobby && joins[(g, u)].profile == profile {
        return true;
      }
      var enqueued := now;
      if (g, u) in joins {
        enqueued := joins[(g, u)].enqueued;
      } else {
        var total, local := |joins|, |set k | k in joins.Keys && k.0 == g|;
        if total >= MAX_PENDING || local >= MAX_PENDING_PER_GUILD {
          return false;
        }
      }
      joins := joins[(g, u) := Join(g, u, lobby, profile, minted, enqueued, 0.0)];
      minted := minted + 1;
      return true;
    }

    /** `rows` is the number of rows deleted. */
    method Cancel(g: Guild, u: User, revision: Option<Revision>) returns (rows: nat)
      requires Valid()
      modifies this`joins
      ensures Valid() && View() == CancelJoin(old(View()), g, u, revision)
      ensures rows == |old(joins)| - |joins|
      ensures var gone := (g, u) in old(joins) && (revision.None? || old(joins)[(g, u)].revision == revision.value);
              joins == if gone then old(joins) - {(g, u)} else old(joins)
    {
      hide WellFormed;
      StoreRuns.CommitKeepsWellFormed(View(), StoreRuns.OpCancel(g, u, revision), 0.0);
      if (g, u) in joins && (revision == None || joins[(g, u)].revision == revision.value) {
        assert |joins| == |joins.Keys|;
        assert (joins - {(g, u)}).Keys == joins.Keys - {(g, u)};
        joins := joins - {(g, u)};
        assert |joins| == |joins.Keys|;
        return 1;
      }
      return 0;
    }

    method DeferJoin(row: Join, delay: real, now: real)
      requires Valid()
      modifies this`joins
      ensures Valid() && View() == Defer(old(View()), row, delay, now)
      ensures var k, was := (row.guild, row.user), old(joins);
              joins == if k in was && was[k].revision == row.revision
                       then was[k := was[k].(due := now + if delay > 1.0 then delay else 1.0)] else was
    {
      hide WellFormed;
      StoreRuns.CommitKeepsWellFormed(View(), StoreRuns.OpDefer(row, delay), now);
      if (row.guild, row.user) in joins && joins[(row.guild, row.user)].revision == row.revision {
        var due := now + Max(1.0, delay);
        joins := joins[(row.guild, row.user) := joins[(row.guild, row.user)].(due := due)];
      }
    }

    /** Whether the holder of the row may still end or delay the request. */
    method IsCurrent(row: Join) returns (yes: bool)
      ensures yes == Current(View(), row)
      ensures yes <==> (row.guild, row.user) in joins && joins[(row.guild, row.user)].revision == row.revision
      ensures yes <==> CancelJoin(View(), row.guild, row.user, Some(row.revision)) != View()
      ensures !yes ==> forall delay, now :: Defer(View(), row, delay, now) == View()
    {
      yes := (row.guild, row.user) in joins && joins[(row.guild, row.user)].revision == row.revision;
      StoreRuns.CurrentMayCancel(View(), row);
    }

    /** Reads the owner's open intent, or inserts a prepared one. */
    method IntentFor(row: Join, now: real) returns (id: IntentId)
      requires Valid()
      modifies this`intents, this`minted
      ensures Valid() && OpenFor(View(), id, row.guild, row.user)
      ensures forall j :: OpenFor(View(), j, row.guild, row.user) ==> j == id
      ensures OpenFor(old(View()), id, row.guild, row.user) ==> View() == old(View())
      ensures !OpenFor(old(View()), id, row.guild, row.user) ==>
                && (forall j :: !OpenFor(old(View()), j, row.guild, row.user))
                && id == old(minted) && View() == InsertIntent(old(View()), row, now)
      ensures intents == old(intents)
              || (id !in old(intents)
                  && intents == old(intents)[id := Intent(row.guild, row.user, row.lobby, row.profile, Prepared, None, now, None)])
    {
      StoreRuns.CommitKeepsWellFormed(View(), StoreRuns.OpIntent(row), now);
      var open := set i | i in intents.Keys && intents[i].guild == row.guild && intents[i].user == row.user
                          && Open(intents[i].phase);
      assert forall i :: i in open <==> OpenFor(View(), i, row.guild, row.user);
      if open != {} {
        id :| id in open;
      } else {
        id := minted;
        intents := intents[id := Intent(row.guild, row.user, row.lobby, row.profile, Prepared, None, now, None)];
        minted := minted + 1;
      }
    }

    /** False is an integrity error: the update would open a second intent. */
    method WritePhase(i: IntentId, p: Phase) returns (ok: bool)
      requires Valid()
      modifies this`intents
      ensures Valid()
      ensures ok == SetPhase(old(View()), i, p).Some?
      ensures ok <==> i !in old(intents) || p in {Completed, Cancelled}
                      || forall j | j in old(intents) && j != i && old(intents)[j].guild == old(intents)[i].guild
                                    && old(intents)[j].user == old(intents)[i].user ::
                           old(intents)[j].phase in {Completed, Cancelled}
      ensures intents == if ok && i in old(intents) then old(intents)[i := old(intents)[i].(phase := p)] else old(intents)
      ensures View() == if ok then SetPhase(old(View()), i, p).value else old(View())
    {
      hide WellFormed;
      StoreRuns.CommitKeepsWellFormed(View(), StoreRuns.OpPhase(i, p), 0.0);
      if i !in intents {
        return true;
      }
      if Open(p) && !OthersClosed(intents, i) {
        return false;
      }
      intents := intents[i := intents[i].(phase := p)];
      return true;
    }

    /** A plain insert, so an existing owner's room is never displaced; both
        rows commit together, and a refusal changes neither. */
    method AttachRoom(i: IntentId, g: Guild, u: User, profile: Profile, c: Channel) returns (ok: bool)
      requires Valid()
      modifies this`intents, this`rooms
      ensures Valid()
      ensures ok == Attach(old(View()), i, g, u, profile, c).Some?
      ensures rooms == (if ok && c !in old(rooms) then old(rooms)[c := Room(g, profile, u, None)] else old(rooms))
      ensures intents == if ok && i in old(intents)
                         then old(intents)[i := old(intents)[i].(channel := Some(c), phase := Created)] else old(intents)
      ensures View() == if ok then Attach(old(View()), i, g, u, profile, c).value else old(View())
    {
      hide WellFormed;
      ghost var t, want := View(), Attach(View(), i, g, u, profile, c);
      // A check that fails after the room row was inserted rolls it back, so
      // the order of the checks does not show.
      var taken := if c in rooms then rooms[c].guild != g || rooms[c].owner != u else !OwnerFree(rooms, c, g, u);
      ok := !taken && (i in intents ==> OthersClosed(intents, i));
      assert ok == want.Some?;
      if ok {
        if c !in rooms {
          rooms := rooms[c := Room(g, profile, u, None)];
        }
        if i in intents {
          intents := intents[i := intents[i].(channel := Some(c), phase := Created)];
        }
        assert View() == want.value;
      }
      StoreRuns.CommitKeepsWellFormed(t, StoreRuns.OpAttach(i, g, u, profile, c), 0.0);
    }

    method CompleteIntent(i: IntentId, now: real) returns (changed: bool)
      requires Valid()
      modifies this`intents, this`created
      ensures Valid() && View() == Complete(old(View()), i, now)
      ensures changed <==> created == old(created) + 1
      ensures changed <==> i in old(intents) && old(intents)[i].phase == Moved
      ensures intents == if changed then old(intents)[i := old(intents)[i].(phase := Completed, completed := Some(now))]
                         else old(intents)
      ensures !changed ==> View() == old(View())
    {
      hide WellFormed;
      StoreRuns.CommitKeepsWellFormed(View(), StoreRuns.OpComplete(i), now);
      changed := i in intents && intents[i].phase == Moved;
      if changed {
        intents := intents[i := intents[i].(phase := Completed, completed := Some(now))];
        created := created + 1;
      }
    }

    method QueueCleanup(g: Guild, c: Channel, leaver: Option<User>)
      requires Valid()
      modifies this`cleanups
      ensures Valid() && View() == AddCleanup(old(View()), g, c, leaver)
      ensures var k := CleanupKey(c, leaver);
              cleanups == old(cleanups)[k := Cleanup(if k in old(cleanups) then old(cleanups)[k].guild else g, 0.0)]
    {
      hide WellFormed;
      StoreRuns.CommitKeepsWellFormed(View(), StoreRuns.OpAddCleanup(g, c, leaver), 0.0);
      var k := CleanupKey(c, leaver);
      cleanups := cleanups[k := if k in cleanups then cleanups[k].(due := 0.0) else Cleanup(g, 0.0)];
    }

    method RecordCleanup(k: CleanupKey, delay: Option<real>, now: real)
      requires Valid()
      modifies this`cleanups
      ensures Valid() && View() == CleanupResult(old(View()), k, delay, now)
      ensures cleanups == if k !in old(cleanups) then old(cleanups)
                          else if delay.None? then old(cleanups) - {k}
                          else old(cleanups)[k := old(cleanups)[k].(due := now + if delay.value > 1.0 then delay.value else 1.0)]
    {
      hide WellFormed;
      StoreRuns.CommitKeepsWellFormed(View(), StoreRuns.OpCleanupResult(k, delay), now);
      if k in cleanups {
        if delay == None {
          cleanups := cleanups - {k};
        } else {
          cleanups := cleanups[k := cleanups[k].(due := now + Max(1.0, delay.value))];
        }
      }
    }

    /** On start, a create whose reply was never recorded is ambiguous. */
    method RestoreSent()
      requires Valid()
      modifies this`intents
      ensures Valid() && View() == Restore(old(View()))
      ensures forall i | i in intents :: intents[i].phase != Sent
      ensures intents.Keys == old(intents).Keys
      ensures forall i | i in intents ::
                intents[i] == if old(intents)[i].phase == Sent then old(intents)[i].(phase := Unresolved) else old(intents)[i]
    {
      hide WellFormed;
      StoreRuns.CommitKeepsWellFormed(View(), StoreRuns.OpRestore, 0.0);
      intents := map i | i in intents :: if intents[i].phase == Sent then intents[i].(phase := Unresolved) else intents[i];
    }

    /** Whether deleting the room would cut an intent short. */
    method IsProtected(c: Channel) returns (yes: bool)
      ensures yes == Protects(View(), c)
      ensures yes <==> exists i :: i in intents && intents[i].channel == Some(c) && intents[i].phase in {Created, Moved, Unresolved}
      ensures yes ==> Deleted(View(), c) != View()
    {
      yes := exists i :: i in intents.Keys && intents[i].channel == Some(c) && Guarded(intents[i].phase);
      assert forall i :: i in intents.Keys <==> i in intents;
      if yes {
        StoreRuns.DeletingCutsProtected(View(), c);
      }
    }

    method ChannelDeleted(c: Channel)
      requires Valid()
      modifies this`intents
      ensures Valid() && View() == Deleted(old(View()), c)
      ensures !Protects(View(), c)
      ensures intents.Keys == old(intents).Keys
      ensures forall i | i in intents ::
                intents[i] == if old(intents)[i].channel == Some(c) && old(intents)[i].phase != Completed
                              then old(intents)[i].(phase := Cancelled) else old(intents)[i]
    {
      hide WellFormed;
      StoreRuns.CommitKeepsWellFormed(View(), StoreRuns.OpDeleted(c), 0.0);
      intents := map i | i in intents :: if intents[i].channel == Some(c) && intents[i].phase != Completed
                                         then intents[i].(phase := Cancelled) else intents[i];
    }

    /** With the room go its permits and blocks. */
    method DeleteRoom(c: Channel)
      requires Valid()
      modifies this`rooms, this`permits, this`blocks
      ensures Valid() && View() == DropRoom(old(View()), c) && rooms == old(rooms) - {c}
      ensures permits == set p | p in old(permits) && p.0 != c
      ensures blocks == set p | p in old(blocks) && p.0 != c
    {
      hide WellFormed;
      StoreRuns.CommitKeepsWellFormed(View(), StoreRuns.OpDropRoom(c), 0.0);
      rooms := rooms - {c};
      permits := set p | p in permits && p.0 != c;
      blocks := set p | p in blocks && p.0 != c;
    }

    method TransferRoom(c: Channel, u: User) returns (ok: bool)
      requires Valid()
      modifies this`rooms
      ensures Valid()
      ensures ok == Transfer(old(View()), c, u).Some?
      ensures ok <==> c !in old(rooms)
                      || forall r | r in old(rooms) && r != c && old(rooms)[r].guild == old(rooms)[c].guild :: old(rooms)[r].owner != u
      ensures rooms == if ok && c in old(rooms) then old(rooms)[c := old(rooms)[c].(owner := u)] else old(rooms)
      ensures View() == if ok then Transfer(old(View()), c, u).value else old(View())
    {
      hide WellFormed;
      StoreRuns.CommitKeepsWellFormed(View(), StoreRuns.OpTransfer(c, u), 0.0);
      if c !in rooms {
        return true;
      }
      if !OwnerFree(rooms, c, rooms[c].guild, u) {
        return false;
      }
      rooms := rooms[c := rooms[c].(owner := u)];
      return true;
    }
  }
}
