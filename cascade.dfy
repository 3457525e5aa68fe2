/** What each delete does to the whole store, as one batch: gather the ids
    every cascade step would delete, then filter every collection once. The
    store's delete methods, which walk the children one delete call at a
    time, are proved to end in exactly these states. */
module Cascade {
  import opened Model
  import opened Collections

  /** No dangling reference: every entry's fencer and tournament, every
      pool's and DE bout's entry, and every bout's pool is present. */
  ghost predicate Integrity(db: Db) {
    && (forall e :: e in db.entries ==>
          e.data.fencerId in Keys(db.fencers, IdOf) && e.data.tournamentId in Keys(db.tournaments, IdOf))
    && (forall p :: p in db.pools ==> p.data.entryId in Keys(db.entries, IdOf))
    && (forall b :: b in db.bouts ==> b.data.poolId in Keys(db.pools, IdOf))
    && (forall d :: d in db.deBouts ==> d.data.entryId in Keys(db.entries, IdOf))
  }

  /** Ids of the pools that belong to one of the entries `es`. */
  function PoolsOfEntries(db: Db, es: set<Id>): set<Id> {
    Keys(Keep(db.pools, PoolEntry, es), IdOf)
  }

  /** Ids of the entries whose `key` reference is `id`: the fencer's or
      the tournament's entries. */
  function EntriesOf(db: Db, key: Entry -> Id, id: Id): set<Id> {
    Keys(Keep(db.entries, key, {id}), IdOf)
  }

  /** deletePool for each id in `ps`: the pools and their bouts go, and
      nothing else. */
  function DropPools(db: Db, ps: set<Id>): (r: Db)
    ensures forall p :: p in r.pools <==> p in db.pools && p.id !in ps
    ensures forall b :: b in r.bouts <==> b in db.bouts && b.data.poolId !in ps
    ensures r.(pools := db.pools, bouts := db.bouts) == db
  {
    db.(pools := Drop(db.pools, IdOf, ps), bouts := Drop(db.bouts, BoutPool, ps))
  }

  /** deleteEntry for each id in `es`: the entries, their pools (with those
      pools' bouts) and their DE bouts go, and nothing else. */
  function DropEntries(db: Db, es: set<Id>): (r: Db)
    ensures r.fencers == db.fencers && r.tournaments == db.tournaments
    ensures forall e :: e in r.entries <==> e in db.entries && e.id !in es
    ensures forall p :: p in r.pools <==> p in db.pools && p.id !in PoolsOfEntries(db, es)
    ensures forall d :: d in r.deBouts <==> d in db.deBouts && d.data.entryId !in es
    ensures forall b :: b in r.bouts <==> b in db.bouts && b.data.poolId !in PoolsOfEntries(db, es)
    ensures forall p :: p in r.pools ==> p.data.entryId !in es
  {
    var ps := PoolsOfEntries(db, es);
    DropPools(db, ps).(entries := Drop(db.entries, IdOf, es), deBouts := Drop(db.deBouts, DEBoutEntry, es))
  }

  /** deleteBout: the bouts with this id go; every other bout stays, as
      often as it was stored, and the other collections are unchanged. */
  function DeleteBout(db: Db, id: Id): (r: Db)
    ensures forall b :: b in r.bouts <==> b in db.bouts && b.id != id
    ensures forall b :: multiset(r.bouts)[b] == if b.id == id then 0 else multiset(db.bouts)[b]
    ensures r.(bouts := db.bouts) == db
  {
    db.(bouts := Drop(db.bouts, IdOf, {id}))
  }

  function DeleteDEBout(db: Db, id: Id): (r: Db)
    ensures forall d :: d in r.deBouts <==> d in db.deBouts && d.id != id
    ensures forall d :: multiset(r.deBouts)[d] == if d.id == id then 0 else multiset(db.deBouts)[d]
    ensures r.(deBouts := db.deBouts) == db
  {
    db.(deBouts := Drop(db.deBouts, IdOf, {id}))
  }

  function DeletePool(db: Db, id: Id): (r: Db)
    ensures forall b :: b in r.bouts <==> b in db.bouts && b.data.poolId != id
    ensures forall p :: p in r.pools <==> p in db.pools && p.id != id
    ensures forall b :: multiset(r.bouts)[b] == if b.data.poolId == id then 0 else multiset(db.bouts)[b]
    ensures forall p :: multiset(r.pools)[p] == if p.id == id then 0 else multiset(db.pools)[p]
    ensures r.(pools := db.pools, bouts := db.bouts) == db
  {
    DropPools(db, {id})
  }

  function DeleteEntry(db: Db, id: Id): (r: Db)
    ensures forall e :: e in r.entries <==> e in db.entries && e.id != id
    ensures forall p :: p in r.pools <==> p in db.pools && p.id !in PoolsOfEntries(db, {id})
    ensures forall d :: d in r.deBouts <==> d in db.deBouts && d.data.entryId != id
    ensures forall b :: b in r.bouts <==> b in db.bouts && b.data.poolId !in PoolsOfEntries(db, {id})
    ensures forall p :: p in r.pools ==> p.data.entryId != id
    ensures r.fencers == db.fencers && r.tournaments == db.tournaments
  {
    DropEntries(db, {id})
  }

  function DeleteFencer(db: Db, id: Id): (r: Db)
    ensures forall f :: f in r.fencers <==> f in db.fencers && f.id != id
    ensures r.tournaments == db.tournaments
    ensures forall e :: e in r.entries <==> e in db.entries && e.id !in EntriesOf(db, EntryFencer, id)
    ensures forall p :: p in r.pools <==>
              p in db.pools && p.id !in PoolsOfEntries(db, EntriesOf(db, EntryFencer, id))
    ensures forall b :: b in r.bouts <==>
              b in db.bouts && b.data.poolId !in PoolsOfEntries(db, EntriesOf(db, EntryFencer, id))
    ensures forall d :: d in r.deBouts <==> d in db.deBouts && d.data.entryId !in EntriesOf(db, EntryFencer, id)
    ensures forall e :: e in r.entries ==> e.data.fencerId != id
  {
    DropEntries(db.(fencers := Drop(db.fencers, IdOf, {id})), EntriesOf(db, EntryFencer, id))
  }

  function DeleteTournament(db: Db, id: Id): (r: Db)
    ensures forall t :: t in r.tournaments <==> t in db.tournaments && t.id != id
    ensures r.fencers == db.fencers
    ensures forall e :: e in r.entries <==> e in db.entries && e.id !in EntriesOf(db, EntryTournament, id)
    ensures forall p :: p in r.pools <==>
              p in db.pools && p.id !in PoolsOfEntries(db, EntriesOf(db, EntryTournament, id))
    ensures forall b :: b in r.bouts <==>
              b in db.bouts && b.data.poolId !in PoolsOfEntries(db, EntriesOf(db, EntryTournament, id))
    ensures forall d :: d in r.deBouts <==> d in db.deBouts && d.data.entryId !in EntriesOf(db, EntryTournament, id)
    ensures forall e :: e in r.entries ==> e.data.tournamentId != id
  {
    DropEntries(db.(tournaments := Drop(db.tournaments, IdOf, {id})), EntriesOf(db, EntryTournament, id))
  }

  // ---- The cascade leaves nothing behind ----

  /** Deleting a fencer removes everything reachable from it: its entries,
      the pools and DE bouts of those entries, and the bouts of those pools. */
  lemma DeleteFencerComplete(db: Db, id: Id, e: Entry, p: Pool)
    requires e in db.entries && e.data.fencerId == id
    requires p in db.pools && p.data.entryId == e.id
    ensures forall x :: x in DeleteFencer(db, id).entries ==> x.id != e.id
    ensures forall q :: q in DeleteFencer(db, id).pools ==> q.data.entryId != e.id && q.id != p.id
    ensures forall d :: d in DeleteFencer(db, id).deBouts ==> d.data.entryId != e.id
    ensures forall b :: b in DeleteFencer(db, id).bouts ==> b.data.poolId != p.id
  {
    var doomed := EntriesOf(db, EntryFencer, id);
    var db1 := db.(fencers := Drop(db.fencers, IdOf, {id}));
    assert e in Keep(db.entries, EntryFencer, {id});
    assert e.id in doomed;
    assert p in Keep(db1.pools, PoolEntry, doomed);
    assert p.id in PoolsOfEntries(db1, doomed);
  }

  /** Deleting a tournament removes its entries and everything below them. */
  lemma DeleteTournamentComplete(db: Db, id: Id, e: Entry, p: Pool)
    requires e in db.entries && e.data.tournamentId == id
    requires p in db.pools && p.data.entryId == e.id
    ensures forall x :: x in DeleteTournament(db, id).entries ==> x.id != e.id
    ensures forall q :: q in DeleteTournament(db, id).pools ==> q.data.entryId != e.id && q.id != p.id
    ensures forall d :: d in DeleteTournament(db, id).deBouts ==> d.data.entryId != e.id
    ensures forall b :: b in DeleteTournament(db, id).bouts ==> b.data.poolId != p.id
  {
    var doomed := EntriesOf(db, EntryTournament, id);
    var db1 := db.(tournaments := Drop(db.tournaments, IdOf, {id}));
    assert e in Keep(db.entries, EntryTournament, {id});
    assert e.id in doomed;
    assert p in Keep(db1.pools, PoolEntry, doomed);
    assert p.id in PoolsOfEntries(db1, doomed);
  }

  // ---- Every delete keeps the store free of dangling references ----

  /** Removing entries `es` with everything below them keeps every reference
      resolved, provided the entries that stay have their fencer and
      tournament. */
  lemma DropEntriesIntegrity(db: Db, es: set<Id>)
    requires forall e :: e in db.entries && e.id !in es ==>
               e.data.fencerId in Keys(db.fencers, IdOf) && e.data.tournamentId in Keys(db.tournaments, IdOf)
    requires forall p :: p in db.pools ==> p.data.entryId in Keys(db.entries, IdOf)
    requires forall b :: b in db.bouts ==> b.data.poolId in Keys(db.pools, IdOf)
    requires forall d :: d in db.deBouts ==> d.data.entryId in Keys(db.entries, IdOf)
    ensures Integrity(DropEntries(db, es))
  {
    var r := DropEntries(db, es);
    var ps := PoolsOfEntries(db, es);
    forall p | p in r.pools ensures p.data.entryId in Keys(r.entries, IdOf) {
      var e := KeyWitness(db.entries, IdOf, p.data.entryId);
      assert e.id in es ==> p in Keep(db.pools, PoolEntry, es);
      assert e in r.entries;
    }
    forall b | b in r.bouts ensures b.data.poolId in Keys(r.pools, IdOf) {
      var q := KeyWitness(db.pools, IdOf, b.data.poolId);
      assert q in r.pools;
    }
    forall d | d in r.deBouts ensures d.data.entryId in Keys(r.entries, IdOf) {
      var e := KeyWitness(db.entries, IdOf, d.data.entryId);
      assert e in r.entries;
    }
  }

  lemma DeleteEntryIntegrity(db: Db, id: Id)
    requires Integrity(db)
    ensures Integrity(DeleteEntry(db, id))
  {
    DropEntriesIntegrity(db, {id});
  }

  lemma DeleteFencerIntegrity(db: Db, id: Id)
    requires Integrity(db)
    ensures Integrity(DeleteFencer(db, id))
  {
    var doomed := EntriesOf(db, EntryFencer, id);
    var db1 := db.(fencers := Drop(db.fencers, IdOf, {id}));
    forall e | e in db1.entries && e.id !in doomed
      ensures e.data.fencerId in Keys(db1.fencers, IdOf)
    {
      assert e !in Keep(db.entries, EntryFencer, {id});
      var f := KeyWitness(db.fencers, IdOf, e.data.fencerId);
      assert f in db1.fencers;
    }
    DropEntriesIntegrity(db1, doomed);
  }

  lemma DeleteTournamentIntegrity(db: Db, id: Id)
    requires Integrity(db)
    ensures Integrity(DeleteTournament(db, id))
  {
    var doomed := EntriesOf(db, EntryTournament, id);
    var db1 := db.(tournaments := Drop(db.tournaments, IdOf, {id}));
    forall e | e in db1.entries && e.id !in doomed
      ensures e.data.tournamentId in Keys(db1.tournaments, IdOf)
    {
      assert e !in Keep(db.entries, EntryTournament, {id});
      var t := KeyWitness(db.tournaments, IdOf, e.data.tournamentId);
      assert t in db1.tournaments;
    }
    DropEntriesIntegrity(db1, doomed);
  }

  lemma DeletePoolIntegrity(db: Db, id: Id)
    requires Integrity(db)
    ensures Integrity(DeletePool(db, id))
  {
    var r := DeletePool(db, id);
    forall b | b in r.bouts ensures b.data.poolId in Keys(r.pools, IdOf) {
      var q := KeyWitness(db.pools, IdOf, b.data.poolId);
      assert q in r.pools;
    }
  }

  lemma DeleteLeafIntegrity(db: Db, id: Id)
    requires Integrity(db)
    ensures Integrity(DeleteBout(db, id)) && Integrity(DeleteDEBout(db, id))
  {
  }

  // ---- One delete at a time ends where the batch does ----

  lemma DropPoolsNone(db: Db)
    ensures DropPools(db, {}) == db
  {
    DropAbsent(db.pools, IdOf, {});
    DropAbsent(db.bouts, BoutPool, {});
  }

  lemma DropEntriesNone(db: Db)
    ensures DropEntries(db, {}) == db
  {
    KeepNone(db.pools, PoolEntry);
    DropPoolsNone(db);
    DropAbsent(db.entries, IdOf, {});
    DropAbsent(db.deBouts, DEBoutEntry, {});
  }

  /** deletePool(p) after deleting the pools `ps` deletes `ps + {p}`. */
  lemma DropPoolsStep(db: Db, ps: set<Id>, p: Id)
    ensures DeletePool(DropPools(db, ps), p) == DropPools(db, ps + {p})
  {
    DropDrop(db.pools, IdOf, ps, {p});
    DropDrop(db.bouts, BoutPool, ps, {p});
  }

  /** deleteEntry(e) after deleting the entries `es` deletes `es + {e}`:
      the pools it finds are those of `e` that the earlier deletes left. */
  lemma DropEntriesStep(db: Db, es: set<Id>, e: Id)
    ensures DeleteEntry(DropEntries(db, es), e) == DropEntries(db, es + {e})
  {
    var mid := DropEntries(db, es);
    var ps1 := PoolsOfEntries(db, es);
    var ps2 := PoolsOfEntries(mid, {e});
    var ps := PoolsOfEntries(db, es + {e});
    forall k | k in ps ensures k in ps1 + ps2 {
      var q := KeyWitness(Keep(db.pools, PoolEntry, es + {e}), IdOf, k);
      if q.data.entryId !in es && k !in ps1 {
        assert q in mid.pools;
        assert q in Keep(mid.pools, PoolEntry, {e});
      } else if q.data.entryId in es {
        assert q in Keep(db.pools, PoolEntry, es);
      }
    }
    forall k | k in ps1 + ps2 ensures k in ps {
      if k in ps1 {
        var q := KeyWitness(Keep(db.pools, PoolEntry, es), IdOf, k);
        assert q in Keep(db.pools, PoolEntry, es + {e});
      } else {
        var q := KeyWitness(Keep(mid.pools, PoolEntry, {e}), IdOf, k);
        assert q in Keep(db.pools, PoolEntry, es + {e});
      }
    }
    assert ps1 + ps2 == ps;
    DropDrop(db.entries, IdOf, es, {e});
    DropDrop(db.deBouts, DEBoutEntry, es, {e});
    DropDrop(db.pools, IdOf, ps1, ps2);
    DropDrop(db.bouts, BoutPool, ps1, ps2);
  }

  // ---- Deleting twice is deleting once ----

  lemma {:induction false} KeepAbsent<T(!new)>(s: seq<T>, key: T -> Id, a: set<Id>)
    requires forall x :: x in s ==> key(x) !in a
    ensures Keep(s, key, a) == []
  {
    if |s| > 0 {
      assert forall x :: x in s[1..] ==> x in s;
      KeepAbsent(s[1..], key, a);
    }
  }

  lemma DeleteEntryTwice(db: Db, id: Id)
    ensures DeleteEntry(DeleteEntry(db, id), id) == DeleteEntry(db, id)
  {
    var r := DeleteEntry(db, id);
    KeepAbsent(r.pools, PoolEntry, {id});
    DropAbsent(r.entries, IdOf, {id});
    DropAbsent(r.deBouts, DEBoutEntry, {id});
    DropAbsent(r.pools, IdOf, {});
    DropAbsent(r.bouts, BoutPool, {});
  }

  lemma DeleteFencerTwice(db: Db, id: Id)
    ensures DeleteFencer(DeleteFencer(db, id), id) == DeleteFencer(db, id)
  {
    var r := DeleteFencer(db, id);
    KeepAbsent(r.entries, EntryFencer, {id});
    DropIdempotent(r.fencers, IdOf, {id});
    DropAbsent(r.fencers, IdOf, {id});
    DropEntriesNone(r.(fencers := Drop(r.fencers, IdOf, {id})));
  }

  lemma DeleteTournamentTwice(db: Db, id: Id)
    ensures DeleteTournament(DeleteTournament(db, id), id) == DeleteTournament(db, id)
  {
    var r := DeleteTournament(db, id);
    KeepAbsent(r.entries, EntryTournament, {id});
    DropAbsent(r.tournaments, IdOf, {id});
    DropEntriesNone(r.(tournaments := Drop(r.tournaments, IdOf, {id})));
  }

  lemma DeletePoolTwice(db: Db, id: Id)
    ensures DeletePool(DeletePool(db, id), id) == DeletePool(db, id)
  {
    DropIdempotent(db.pools, IdOf, {id});
    DropIdempotent(db.bouts, BoutPool, {id});
  }

  lemma DeleteLeafTwice(db: Db, id: Id)
    ensures DeleteBout(DeleteBout(db, id), id) == DeleteBout(db, id)
    ensures DeleteDEBout(DeleteDEBout(db, id), id) == DeleteDEBout(db, id)
  {
    DropIdempotent(db.bouts, IdOf, {id});
    DropIdempotent(db.deBouts, IdOf, {id});
  }

  /** In a store without dangling references, deleting a fencer that is not
      there changes nothing: no entry can name it. */
  lemma DeleteAbsentFencer(db: Db, id: Id)
    requires Integrity(db) && id !in Keys(db.fencers, IdOf)
    ensures DeleteFencer(db, id) == db
  {
    KeepAbsent(db.entries, EntryFencer, {id});
    DropAbsent(db.fencers, IdOf, {id});
    DropEntriesNone(db);
  }

  // ---- Adds and updates keep the store free of dangling references
  //      when the references they bring resolve ----

  /** An optional reference in an update resolves when it is absent or
      names one of `keys`. */
  ghost predicate Resolves(keys: set<Id>, k: Option<Id>) {
    k.Some? ==> k.value in keys
  }

  lemma AddIntegrity(db: Db, r: Db)
    requires Integrity(db)
    requires Keys(db.fencers, IdOf) <= Keys(r.fencers, IdOf) && Keys(db.tournaments, IdOf) <= Keys(r.tournaments, IdOf)
    requires Keys(db.entries, IdOf) <= Keys(r.entries, IdOf) && Keys(db.pools, IdOf) <= Keys(r.pools, IdOf)
    requires forall e :: e in r.entries ==>
               (e in db.entries || (e.data.fencerId in Keys(db.fencers, IdOf) && e.data.tournamentId in Keys(db.tournaments, IdOf)))
    requires forall p :: p in r.pools ==> p in db.pools || p.data.entryId in Keys(db.entries, IdOf)
    requires forall b :: b in r.bouts ==> b in db.bouts || b.data.poolId in Keys(db.pools, IdOf)
    requires forall d :: d in r.deBouts ==> d in db.deBouts || d.data.entryId in Keys(db.entries, IdOf)
    ensures Integrity(r)
  {
  }

  lemma AddFencerIntegrity(db: Db, r: Fencer)
    requires Integrity(db)
    ensures Integrity(db.(fencers := db.fencers + [r]))
  {
    KeysAppend(db.fencers, [r], IdOf);
    AddIntegrity(db, db.(fencers := db.fencers + [r]));
  }

  lemma AddTournamentIntegrity(db: Db, r: Tournament)
    requires Integrity(db)
    ensures Integrity(db.(tournaments := db.tournaments + [r]))
  {
    KeysAppend(db.tournaments, [r], IdOf);
    AddIntegrity(db, db.(tournaments := db.tournaments + [r]));
  }

  lemma AddEntryIntegrity(db: Db, r: Entry)
    requires Integrity(db)
    requires r.data.fencerId in Keys(db.fencers, IdOf) && r.data.tournamentId in Keys(db.tournaments, IdOf)
    ensures Integrity(db.(entries := db.entries + [r]))
  {
    KeysAppend(db.entries, [r], IdOf);
    assert forall x :: x in db.entries + [r] ==> x in db.entries || x == r;
    AddIntegrity(db, db.(entries := db.entries + [r]));
  }

  lemma AddPoolIntegrity(db: Db, r: Pool)
    requires Integrity(db) && r.data.entryId in Keys(db.entries, IdOf)
    ensures Integrity(db.(pools := db.pools + [r]))
  {
    KeysAppend(db.pools, [r], IdOf);
    assert forall x :: x in db.pools + [r] ==> x in db.pools || x == r;
    AddIntegrity(db, db.(pools := db.pools + [r]));
  }

  lemma AddBoutIntegrity(db: Db, r: Bout)
    requires Integrity(db) && r.data.poolId in Keys(db.pools, IdOf)
    ensures Integrity(db.(bouts := db.bouts + [r]))
  {
    assert forall x :: x in db.bouts + [r] ==> x in db.bouts || x == r;
    AddIntegrity(db, db.(bouts := db.bouts + [r]));
  }

  lemma AddDEBoutIntegrity(db: Db, r: DEBout)
    requires Integrity(db) && r.data.entryId in Keys(db.entries, IdOf)
    ensures Integrity(db.(deBouts := db.deBouts + [r]))
  {
    assert forall x :: x in db.deBouts + [r] ==> x in db.deBouts || x == r;
    AddIntegrity(db, db.(deBouts := db.deBouts + [r]));
  }

  lemma UpdateEntryIntegrity(db: Db, id: Id, patch: EntryPatch, now: Stamp)
    requires Integrity(db)
    requires Resolves(Keys(db.fencers, IdOf), patch.fencerId) && Resolves(Keys(db.tournaments, IdOf), patch.tournamentId)
    ensures Integrity(db.(entries := UpdateWhere(db.entries, id, patch, MergeEntry, now)))
  {
    var r := db.(entries := UpdateWhere(db.entries, id, patch, MergeEntry, now));
    UpdateKeepsIds(db.entries, id, patch, MergeEntry, now);
    forall e | e in r.entries
      ensures e in db.entries || (e.data.fencerId in Keys(db.fencers, IdOf) && e.data.tournamentId in Keys(db.tournaments, IdOf))
    {
      UpdateMembers(db.entries, id, patch, MergeEntry, now, e);
    }
    AddIntegrity(db, r);
  }

  lemma UpdatePoolIntegrity(db: Db, id: Id, patch: PoolPatch, now: Stamp)
    requires Integrity(db) && Resolves(Keys(db.entries, IdOf), patch.entryId)
    ensures Integrity(db.(pools := UpdateWhere(db.pools, id, patch, MergePool, now)))
  {
    var r := db.(pools := UpdateWhere(db.pools, id, patch, MergePool, now));
    UpdateKeepsIds(db.pools, id, patch, MergePool, now);
    forall p | p in r.pools ensures p in db.pools || p.data.entryId in Keys(db.entries, IdOf) {
      UpdateMembers(db.pools, id, patch, MergePool, now, p);
    }
    AddIntegrity(db, r);
  }

  lemma UpdateBoutIntegrity(db: Db, id: Id, patch: BoutPatch, now: Stamp)
    requires Integrity(db) && Resolves(Keys(db.pools, IdOf), patch.poolId)
    ensures Integrity(db.(bouts := UpdateWhere(db.bouts, id, patch, MergeBout, now)))
  {
    var r := db.(bouts := UpdateWhere(db.bouts, id, patch, MergeBout, now));
    forall b | b in r.bouts ensures b in db.bouts || b.data.poolId in Keys(db.pools, IdOf) {
      UpdateMembers(db.bouts, id, patch, MergeBout, now, b);
    }
    AddIntegrity(db, r);
  }

  lemma UpdateDEBoutIntegrity(db: Db, id: Id, patch: DEBoutPatch, now: Stamp)
    requires Integrity(db) && Resolves(Keys(db.entries, IdOf), patch.entryId)
    ensures Integrity(db.(deBouts := UpdateWhere(db.deBouts, id, patch, MergeDEBout, now)))
  {
    var r := db.(deBouts := UpdateWhere(db.deBouts, id, patch, MergeDEBout, now));
    forall d | d in r.deBouts ensures d in db.deBouts || d.data.entryId in Keys(db.entries, IdOf) {
      UpdateMembers(db.deBouts, id, patch, MergeDEBout, now, d);
    }
    AddIntegrity(db, r);
  }

  // ---- deleteEntry as the component actually runs it ----

  /** In the component every nested delete filters the arrays captured when
      the event handler began, and of several calls to the same state setter
      only the last one takes effect. So deleteEntry removes the entry and
      its DE bouts, but of the entry's pools only the last one (with that
      pool's bouts) is removed. */
  function DeleteEntryAsWritten(db: Db, id: Id): (r: Db)
    ensures forall e :: e in r.entries <==> e in db.entries && e.id != id
    ensures forall d :: d in r.deBouts <==> d in db.deBouts && d.data.entryId != id
    ensures forall p :: p in r.pools ==> p in db.pools
    ensures r.fencers == db.fencers && r.tournaments == db.tournaments
  {
    var entryPools := Keep(db.pools, PoolEntry, {id});
    var db1 := if |entryPools| == 0 then db else DeletePool(db, entryPools[|entryPools| - 1].id);
    db1.(entries := Drop(db.entries, IdOf, {id}), deBouts := Drop(db.deBouts, DEBoutEntry, {id}))
  }

  /** A fencer in a tournament whose entry has two pools. */
  const TwoPools: Db := Db(
    [Rec("f", "s", None, FencerData("Alice", 0, "F", "", "F", "", "U"))],
    [Rec("t", "s", None, TournamentData("Open", "", 10, 10, "Local"))],
    [Rec("e", "s", None, EntryData("f", "t", "F", "Senior", 1, 1, ""))],
    [Rec("p1", "s", None, PoolData("e", 1, 7)), Rec("p2", "s", None, PoolData("e", 2, 6))],
    [], [])

  lemma TwoPoolsIntegrity()
    ensures Integrity(TwoPools)
  {
    var db := TwoPools;
    assert Keys(db.entries, IdOf) == {"e"};
    assert Keys(db.fencers, IdOf) == {"f"} && Keys(db.tournaments, IdOf) == {"t"};
  }

  /** What the as-written delete leaves of that store: the entry is gone,
      its first pool is not. */
  lemma AsWrittenOnTwoPools()
    ensures DeleteEntryAsWritten(TwoPools, "e") == TwoPools.(entries := [], pools := [TwoPools.pools[0]])
  {
    assert Keep(TwoPools.pools, PoolEntry, {"e"}) == TwoPools.pools;
    assert Drop(TwoPools.pools, IdOf, {"p2"}) == [TwoPools.pools[0]];
  }

  /** Deleting that entry as written leaves its first pool behind, naming
      an entry that no longer exists; the sequential cascade leaves nothing
      dangling. */
  lemma DeleteEntryAsWrittenOrphansPool()
    ensures Integrity(TwoPools)
    ensures !Integrity(DeleteEntryAsWritten(TwoPools, "e"))
    ensures Integrity(DeleteEntry(TwoPools, "e"))
  {
    TwoPoolsIntegrity();
    AsWrittenOnTwoPools();
    var r := DeleteEntryAsWritten(TwoPools, "e");
    assert r.pools[0] in r.pools && r.entries == [];
    DeleteEntryIntegrity(TwoPools, "e");
  }
}
