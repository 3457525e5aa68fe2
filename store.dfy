/** The data store: six collections that every operation replaces with a
    new value, as the application's state setters do. Each delete walks the
    children one nested delete call at a time, and every nested call sees
    the state the previous one left; each is proved to end in the state that
    the batch definitions of module Cascade describe. Persisting to the
    browser's storage after each change is not part of this model. */
module RecordStore {
  import opened Model
  import opened Collections
  import opened Cascade

  class DataStore {
    var fencers: seq<Fencer>
    var tournaments: seq<Tournament>
    var entries: seq<Entry>
    var pools: seq<Pool>
    var bouts: seq<Bout>
    var deBouts: seq<DEBout>

    /** A store whose six collections start empty (nothing saved yet). */
    constructor ()
      ensures Snapshot() == Db([], [], [], [], [], [])
      ensures Integrity(Snapshot())
    {
      fencers, tournaments, entries := [], [], [];
      pools, bouts, deBouts := [], [], [];
    }

    function Snapshot(): Db
      reads this
    {
      Db(fencers, tournaments, entries, pools, bouts, deBouts)
    }

    /** addFencer: appends the record with its new id and creation stamp and
        returns it. */
    method AddFencer(record: FencerData, id: Id, now: Stamp) returns (r: Fencer)
      modifies this
      ensures r == Rec(id, now, None, record)
      ensures fencers == old(fencers) + [r]
      ensures old(id !in Keys(fencers, IdOf)) ==> GetFencer(id) == Some(r)
      ensures Snapshot() == old(Snapshot()).(fencers := fencers)
      ensures old(Integrity(Snapshot())) ==> Integrity(Snapshot())
    {
      ghost var before := Snapshot();
      r := Rec(id, now, None, record);
      fencers := fencers + [r];
      if id !in Keys(before.fencers, IdOf) { FindFresh(before.fencers, IdOf, r); }
      if Integrity(before) { AddFencerIntegrity(before, r); }
    }

    /** updateFencer: merges `patch` into every record with this id and stamps
        it; the other records and collections stay as they were. */
    method UpdateFencer(id: Id, patch: FencerPatch, now: Stamp)
      modifies this
      ensures fencers == UpdateWhere(old(fencers), id, patch, MergeFencer, now)
      ensures Snapshot() == old(Snapshot()).(fencers := fencers)
      ensures old(Integrity(Snapshot())) ==> Integrity(Snapshot())
    {
      ghost var before := Snapshot();
      UpdateKeepsIds(fencers, id, patch, MergeFencer, now);
      fencers := UpdateWhere(fencers, id, patch, MergeFencer, now);
      if Integrity(before) { AddIntegrity(before, Snapshot()); }
    }

    /** getFencer: the first record with this id, if there is one. */
    function GetFencer(id: Id): (r: Option<Fencer>)
      reads this
      ensures r.Some? ==> r.value in fencers && r.value.id == id
      ensures r.Some? ==> exists i :: 0 <= i < |fencers| && fencers[i] == r.value &&
                                      forall j :: 0 <= j < i ==> fencers[j].id != id
      ensures r.None? <==> forall x :: x in fencers ==> x.id != id
    {
      Find(fencers, IdOf, id)
    }

    /** addTournament: appends the record with its new id and creation stamp and
        returns it. */
    method AddTournament(record: TournamentData, id: Id, now: Stamp) returns (r: Tournament)
      modifies this
      ensures r == Rec(id, now, None, record)
      ensures tournaments == old(tournaments) + [r]
      ensures old(id !in Keys(tournaments, IdOf)) ==> GetTournament(id) == Some(r)
      ensures Snapshot() == old(Snapshot()).(tournaments := tournaments)
      ensures old(Integrity(Snapshot())) ==> Integrity(Snapshot())
    {
      ghost var before := Snapshot();
      r := Rec(id, now, None, record);
      tournaments := tournaments + [r];
      if id !in Keys(before.tournaments, IdOf) { FindFresh(before.tournaments, IdOf, r); }
      if Integrity(before) { AddTournamentIntegrity(before, r); }
    }

    /** updateTournament: merges `patch` into every record with this id and stamps
        it; the other records and collections stay as they were. */
    method UpdateTournament(id: Id, patch: TournamentPatch, now: Stamp)
      modifies this
      ensures tournaments == UpdateWhere(old(tournaments), id, patch, MergeTournament, now)
      ensures Snapshot() == old(Snapshot()).(tournaments := tournaments)
      ensures old(Integrity(Snapshot())) ==> Integrity(Snapshot())
    {
      ghost var before := Snapshot();
      UpdateKeepsIds(tournaments, id, patch, MergeTournament, now);
      tournaments := UpdateWhere(tournaments, id, patch, MergeTournament, now);
      if Integrity(before) { AddIntegrity(before, Snapshot()); }
    }

    /** getTournament: the first record with this id, if there is one. */
    function GetTournament(id: Id): (r: Option<Tournament>)
      reads this
      ensures r.Some? ==> r.value in tournaments && r.value.id == id
      ensures r.Some? ==> exists i :: 0 <= i < |tournaments| && tournaments[i] == r.value &&
                                      forall j :: 0 <= j < i ==> tournaments[j].id != id
      ensures r.None? <==> forall x :: x in tournaments ==> x.id != id
    {
      Find(tournaments, IdOf, id)
    }

    /** addEntry: appends the record with its new id and creation stamp and
        returns it. */
    method AddEntry(record: EntryData, id: Id, now: Stamp) returns (r: Entry)
      modifies this
      ensures r == Rec(id, now, None, record)
      ensures entries == old(entries) + [r]
      ensures old(id !in Keys(entries, IdOf)) ==> GetEntry(id) == Some(r)
      ensures Snapshot() == old(Snapshot()).(entries := entries)
      ensures old(Integrity(Snapshot()) && record.fencerId in Keys(fencers, IdOf) && record.tournamentId in Keys(tournaments, IdOf)) ==> Integrity(Snapshot())
    {
      ghost var before := Snapshot();
      r := Rec(id, now, None, record);
      entries := entries + [r];
      if id !in Keys(before.entries, IdOf) { FindFresh(before.entries, IdOf, r); }
      if Integrity(before) && record.fencerId in Keys(before.fencers, IdOf) && record.tournamentId in Keys(before.tournaments, IdOf) { AddEntryIntegrity(before, r); }
    }

    /** updateEntry: merges `patch` into every record with this id and stamps
        it; the other records and collections stay as they were. */
    method UpdateEntry(id: Id, patch: EntryPatch, now: Stamp)
      modifies this
      ensures entries == UpdateWhere(old(entries), id, patch, MergeEntry, now)
      ensures Snapshot() == old(Snapshot()).(entries := entries)
      ensures old(Integrity(Snapshot()) && Resolves(Keys(fencers, IdOf), patch.fencerId)
                  && Resolves(Keys(tournaments, IdOf), patch.tournamentId))
              ==> Integrity(Snapshot())
    {
      ghost var before := Snapshot();
      entries := UpdateWhere(entries, id, patch, MergeEntry, now);
      if Integrity(before) && Resolves(Keys(before.fencers, IdOf), patch.fencerId) && Resolves(Keys(before.tournaments, IdOf), patch.tournamentId) { UpdateEntryIntegrity(before, id, patch, now); }
    }

    /** getEntry: the first record with this id, if there is one. */
    function GetEntry(id: Id): (r: Option<Entry>)
      reads this
      ensures r.Some? ==> r.value in entries && r.value.id == id
      ensures r.Some? ==> exists i :: 0 <= i < |entries| && entries[i] == r.value &&
                                      forall j :: 0 <= j < i ==> entries[j].id != id
      ensures r.None? <==> forall x :: x in entries ==> x.id != id
    {
      Find(entries, IdOf, id)
    }

    /** addPool: appends the record with its new id and creation stamp and
        returns it. */
    method AddPool(record: PoolData, id: Id, now: Stamp) returns (r: Pool)
      modifies this
      ensures r == Rec(id, now, None, record)
      ensures pools == old(pools) + [r]
      ensures old(id !in Keys(pools, IdOf)) ==> GetPool(id) == Some(r)
      ensures Snapshot() == old(Snapshot()).(pools := pools)
      ensures old(Integrity(Snapshot()) && record.entryId in Keys(entries, IdOf)) ==> Integrity(Snapshot())
    {
      ghost var before := Snapshot();
      r := Rec(id, now, None, record);
      pools := pools + [r];
      if id !in Keys(before.pools, IdOf) { FindFresh(before.pools, IdOf, r); }
      if Integrity(before) && record.entryId in Keys(before.entries, IdOf) { AddPoolIntegrity(before, r); }
    }

    /** updatePool: merges `patch` into every record with this id and stamps
        it; the other records and collections stay as they were. */
    method UpdatePool(id: Id, patch: PoolPatch, now: Stamp)
      modifies this
      ensures pools == UpdateWhere(old(pools), id, patch, MergePool, now)
      ensures Snapshot() == old(Snapshot()).(pools := pools)
      ensures old(Integrity(Snapshot()) && Resolves(Keys(entries, IdOf), patch.entryId)) ==> Integrity(Snapshot())
    {
      ghost var before := Snapshot();
      pools := UpdateWhere(pools, id, patch, MergePool, now);
      if Integrity(before) && Resolves(Keys(before.entries, IdOf), patch.entryId) { UpdatePoolIntegrity(before, id, patch, now); }
    }

    /** getPool: the first record with this id, if there is one. */
    function GetPool(id: Id): (r: Option<Pool>)
      reads this
      ensures r.Some? ==> r.value in pools && r.value.id == id
      ensures r.Some? ==> exists i :: 0 <= i < |pools| && pools[i] == r.value &&
                                      forall j :: 0 <= j < i ==> pools[j].id != id
      ensures r.None? <==> forall x :: x in pools ==> x.id != id
    {
      Find(pools, IdOf, id)
    }

    /** addBout: appends the record with its new id and creation stamp and
        returns it. */
    method AddBout(record: BoutData, id: Id, now: Stamp) returns (r: Bout)
      modifies this
      ensures r == Rec(id, now, None, record)
      ensures bouts == old(bouts) + [r]
      ensures old(id !in Keys(bouts, IdOf)) ==> GetBout(id) == Some(r)
      ensures Snapshot() == old(Snapshot()).(bouts := bouts)
      ensures old(Integrity(Snapshot()) && record.poolId in Keys(pools, IdOf)) ==> Integrity(Snapshot())
    {
      ghost var before := Snapshot();
      r := Rec(id, now, None, record);
      bouts := bouts + [r];
      if id !in Keys(before.bouts, IdOf) { FindFresh(before.bouts, IdOf, r); }
      if Integrity(before) && record.poolId in Keys(before.pools, IdOf) { AddBoutIntegrity(before, r); }
    }

    /** updateBout: merges `patch` into every record with this id and stamps
        it; the other records and collections stay as they were. */
    method UpdateBout(id: Id, patch: BoutPatch, now: Stamp)
      modifies this
      ensures bouts == UpdateWhere(old(bouts), id, patch, MergeBout, now)
      ensures Snapshot() == old(Snapshot()).(bouts := bouts)
      ensures old(Integrity(Snapshot()) && Resolves(Keys(pools, IdOf), patch.poolId)) ==> Integrity(Snapshot())
    {
      ghost var before := Snapshot();
      bouts := UpdateWhere(bouts, id, patch, MergeBout, now);
      if Integrity(before) && Resolves(Keys(before.pools, IdOf), patch.poolId) { UpdateBoutIntegrity(before, id, patch, now); }
    }

    /** getBout: the first record with this id, if there is one. */
    function GetBout(id: Id): (r: Option<Bout>)
      reads this
      ensures r.Some? ==> r.value in bouts && r.value.id == id
      ensures r.Some? ==> exists i :: 0 <= i < |bouts| && bouts[i] == r.value &&
                                      forall j :: 0 <= j < i ==> bouts[j].id != id
      ensures r.None? <==> forall x :: x in bouts ==> x.id != id
    {
      Find(bouts, IdOf, id)
    }

    /** addDEBout: appends the record with its new id and creation stamp and
        returns it. */
    method AddDEBout(record: DEBoutData, id: Id, now: Stamp) returns (r: DEBout)
      modifies this
      ensures r == Rec(id, now, None, record)
      ensures deBouts == old(deBouts) + [r]
      ensures old(id !in Keys(deBouts, IdOf)) ==> GetDEBout(id) == Some(r)
      ensures Snapshot() == old(Snapshot()).(deBouts := deBouts)
      ensures old(Integrity(Snapshot()) && record.entryId in Keys(entries, IdOf)) ==> Integrity(Snapshot())
    {
      ghost var before := Snapshot();
      r := Rec(id, now, None, record);
      deBouts := deBouts + [r];
      if id !in Keys(before.deBouts, IdOf) { FindFresh(before.deBouts, IdOf, r); }
      if Integrity(before) && record.entryId in Keys(before.entries, IdOf) { AddDEBoutIntegrity(before, r); }
    }

    /** updateDEBout: merges `patch` into every record with this id and stamps
        it; the other records and collections stay as they were. */
    method UpdateDEBout(id: Id, patch: DEBoutPatch, now: Stamp)
      modifies this
      ensures deBouts == UpdateWhere(old(deBouts), id, patch, MergeDEBout, now)
      ensures Snapshot() == old(Snapshot()).(deBouts := deBouts)
      ensures old(Integrity(Snapshot()) && Resolves(Keys(entries, IdOf), patch.entryId)) ==> Integrity(Snapshot())
    {
      ghost var before := Snapshot();
      deBouts := UpdateWhere(deBouts, id, patch, MergeDEBout, now);
      if Integrity(before) && Resolves(Keys(before.entries, IdOf), patch.entryId) { UpdateDEBoutIntegrity(before, id, patch, now); }
    }

    /** getDEBout: the first record with this id, if there is one. */
    function GetDEBout(id: Id): (r: Option<DEBout>)
      reads this
      ensures r.Some? ==> r.value in deBouts && r.value.id == id
      ensures r.Some? ==> exists i :: 0 <= i < |deBouts| && deBouts[i] == r.value &&
                                      forall j :: 0 <= j < i ==> deBouts[j].id != id
      ensures r.None? <==> forall x :: x in deBouts ==> x.id != id
    {
      Find(deBouts, IdOf, id)
    }

    /** deleteBout: removes the bouts with this id. */
    method DeleteBout(id: Id)
      modifies this
      ensures Snapshot() == Cascade.DeleteBout(old(Snapshot()), id)
      ensures old(Integrity(Snapshot())) ==> Integrity(Snapshot())
    {
      ghost var before := Snapshot();
      bouts := Drop(bouts, IdOf, {id});
      if Integrity(before) { DeleteLeafIntegrity(before, id); }
    }

    /** deleteDEBout: removes the DE bouts with this id. */
    method DeleteDEBout(id: Id)
      modifies this
      ensures Snapshot() == Cascade.DeleteDEBout(old(Snapshot()), id)
      ensures old(Integrity(Snapshot())) ==> Integrity(Snapshot())
    {
      ghost var before := Snapshot();
      deBouts := Drop(deBouts, IdOf, {id});
      if Integrity(before) { DeleteLeafIntegrity(before, id); }
    }

    /** deletePool: removes the pools with this id, then the bouts that
        name it as their pool. */
    method DeletePool(id: Id)
      modifies this
      ensures Snapshot() == Cascade.DeletePool(old(Snapshot()), id)
      ensures old(Integrity(Snapshot())) ==> Integrity(Snapshot())
    {
      ghost var before := Snapshot();
      pools := Drop(pools, IdOf, {id});
      bouts := Drop(bouts, BoutPool, {id});
      if Integrity(before) { DeletePoolIntegrity(before, id); }
    }

    /** deleteEntry: removes the entries with this id, calls deletePool for
        each pool of the entry, then removes the entry's DE bouts. */
    method DeleteEntry(id: Id)
      modifies this
      ensures Snapshot() == Cascade.DeleteEntry(old(Snapshot()), id)
      ensures old(Integrity(Snapshot())) ==> Integrity(Snapshot())
    {
      ghost var before := Snapshot();
      entries := Drop(entries, IdOf, {id});
      var entryPools := Keep(pools, PoolEntry, {id});
      ghost var start := Snapshot();
      DropPoolsNone(start);
      var i := 0;
      while i < |entryPools|
        invariant 0 <= i <= |entryPools|
        invariant Snapshot() == DropPools(start, Keys(entryPools[..i], IdOf))
      {
        ghost var done := Keys(entryPools[..i], IdOf);
        DropPoolsStep(start, done, entryPools[i].id);
        DeletePool(entryPools[i].id);
        PrefixKeys(entryPools, i);
        i := i + 1;
      }
      assert entryPools[..i] == entryPools;
      deBouts := Drop(deBouts, DEBoutEntry, {id});
      if Integrity(before) { DeleteEntryIntegrity(before, id); }
    }

    /** deleteFencer: removes the fencers with this id, then calls
        deleteEntry for each of the fencer's entries. */
    method DeleteFencer(id: Id)
      modifies this
      ensures Snapshot() == Cascade.DeleteFencer(old(Snapshot()), id)
      ensures old(Integrity(Snapshot())) ==> Integrity(Snapshot())
    {
      ghost var before := Snapshot();
      fencers := Drop(fencers, IdOf, {id});
      var doomed := Keep(entries, EntryFencer, {id});
      DeleteEach(doomed);
      if Integrity(before) { DeleteFencerIntegrity(before, id); }
    }

    /** deleteTournament: removes the tournaments with this id, then calls
        deleteEntry for each of the tournament's entries. */
    method DeleteTournament(id: Id)
      modifies this
      ensures Snapshot() == Cascade.DeleteTournament(old(Snapshot()), id)
      ensures old(Integrity(Snapshot())) ==> Integrity(Snapshot())
    {
      ghost var before := Snapshot();
      tournaments := Drop(tournaments, IdOf, {id});
      var doomed := Keep(entries, EntryTournament, {id});
      DeleteEach(doomed);
      if Integrity(before) { DeleteTournamentIntegrity(before, id); }
    }

    /** The `forEach(entry => deleteEntry(entry.id))` of the two parent
        deletes. */
    method DeleteEach(doomed: seq<Entry>)
      modifies this
      ensures Snapshot() == DropEntries(old(Snapshot()), Keys(doomed, IdOf))
      ensures old(Integrity(Snapshot())) ==> Integrity(Snapshot())
    {
      ghost var start := Snapshot();
      DropEntriesNone(start);
      var i := 0;
      while i < |doomed|
        invariant 0 <= i <= |doomed|
        invariant Snapshot() == DropEntries(start, Keys(doomed[..i], IdOf))
      {
        ghost var done := Keys(doomed[..i], IdOf);
        DropEntriesStep(start, done, doomed[i].id);
        DeleteEntry(doomed[i].id);
        PrefixKeys(doomed, i);
        i := i + 1;
      }
      assert doomed[..i] == doomed;
      if Integrity(start) { DropEntriesIntegrity(start, Keys(doomed, IdOf)); }
    }
  }
}
