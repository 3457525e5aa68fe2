# Fencing tracker: the record store and its analytics, in Dafny

The fencing tracker keeps a fencer's competition history in six collections:
- fencers;
- tournaments;
- entries (one fencer in one tournament);
- pools (one pool round of an entry);
- pool bouts;
- direct-elimination (DE) bouts.

Every collection has add, update, delete and get operations. Deletes cascade down the tree:
- a fencer or a tournament takes its entries with it;
- an entry takes its pools and DE bouts;
- a pool takes its bouts.

Two read-only analytics follow the same references:
- a fencer's overall statistics;
- the fencer's performance trend, one point per entry whose tournament still exists, in date order.

A handful of display helpers format placings, weapon codes, age categories and DE rounds.

The project is laid out as follows:

- `model.dfy` (module `Model`) holds the data model:
  - the six record kinds, as a generic `Rec<D>` that carries the id and the creation and update stamps beside the entity's own fields;
  - the partial updates (patches) and how they merge into a record;
  - `Db`, a snapshot of all six collections.
- `collections.dfy` (module `Collections`) holds the array operations the store is built from. These are `filter` on a key (`Keep`, `Drop`), `find` (`Find`), `map` with a merge (`UpdateWhere`) and the set of keys in a collection (`Keys`). The file also holds their laws.
- `cascade.dfy` (module `Cascade`) holds the following:
  - every delete, as a function on the whole snapshot;
  - the referential invariant `Integrity`, which says no reference dangles, and its preservation by every operation;
  - completeness of the cascade, and idempotence of the deletes;
  - the delete of an entry as the component actually runs it (see Findings).
- `store.dfy` (module `RecordStore`) holds the store as a class, `DataStore`. It has one `seq` field per collection and one method per operation. Each method reassigns the fields, as the application's state setters do:
  - The delete methods walk the children with loops, one nested delete call at a time, as the `forEach` calls do.
  - Each delete method is proved to end in the state that module `Cascade` defines.
  - Every method keeps `Integrity`, including the `DeleteEach` loop that the parent deletes share. Adds and updates need the references they bring to resolve.
- `analytics.dfy` (module `Analytics`) holds `getFencerStats` and `getPerformanceTrend`, as functions on a snapshot. It also proves that the pool figures of both, the fencer's totals and each trend point, agree with `calculatePoolStats` on any list of bouts in which every bout has its scores, the empty list included.
- `helpers.dfy` (module `Helpers`) and `fencer_detail.dfy` (module `FencerDetail`) hold the pure helpers.

Modelling choices:
- Ids and time stamps come from the clock in the application. Here they are parameters of the add and update methods.
- No property assumes that ids are unique. Where uniqueness matters, the contract says so: an add followed by a get returns the new record when its id was not yet present.
- Dates are whole day numbers.
- Win percentages are exact reals.
- Placings and round sizes are natural numbers.
- A missing score is `None`. In `calculatePoolStats`, adding a missing score gives NaN, modelled by the `Num` datatype.

## Model

| member | source | states |
|---|---|---|
| RecordStore.DataStore.constructor | app/src/context/DataContext.js:34-40 | A new store has six empty collections, and so no dangling reference. |
| RecordStore.DataStore.AddFencer | app/src/context/DataContext.js:67-77 | Appends exactly one record at the end, carrying the given id and creation stamp and the caller's fields, and returns that record. The other collections are unchanged. If the id was new, getFencer then finds that record. No dangling reference is introduced. |
| RecordStore.DataStore.UpdateFencer | app/src/context/DataContext.js:79-85 | The fencers become `UpdateWhere` of the old ones: same length and order, records with this id merged and stamped, all others unchanged. Nothing else changes, and no dangling reference is introduced. |
| RecordStore.DataStore.GetFencer | app/src/context/DataContext.js:99-101 | Returns the first stored record with this id, in the sense that no earlier record has that id, when one exists. Returns nothing exactly when no record has this id. |
| RecordStore.DataStore.DeleteFencer | app/src/context/DataContext.js:87-97 | Removes the fencer, then deletes each of its entries in turn. Ends in `Cascade.DeleteFencer` of the old state and keeps the store free of dangling references. |
| RecordStore.DataStore.AddTournament | app/src/context/DataContext.js:104-114 | As AddFencer, for tournaments. |
| RecordStore.DataStore.UpdateTournament | app/src/context/DataContext.js:116-122 | As UpdateFencer, for tournaments. |
| RecordStore.DataStore.GetTournament | app/src/context/DataContext.js:136-138 | Returns the first stored record among the tournaments with this id (no earlier one has it) when one exists, and nothing exactly when none has it. |
| RecordStore.DataStore.DeleteTournament | app/src/context/DataContext.js:124-134 | Removes the tournament, then deletes each of its entries in turn. Ends in `Cascade.DeleteTournament` of the old state and keeps integrity. |
| RecordStore.DataStore.AddEntry | app/src/context/DataContext.js:141-151 | Appends exactly one entry at the end and returns it; get then finds it if the id was new. Integrity is kept when the entry's fencer and tournament exist. |
| RecordStore.DataStore.UpdateEntry | app/src/context/DataContext.js:153-159 | Entries become `UpdateWhere` of the old ones. Integrity is kept when a changed fencer or tournament reference resolves. |
| RecordStore.DataStore.GetEntry | app/src/context/DataContext.js:177-179 | Returns the first stored record among the entries with this id (no earlier one has it) when one exists, and nothing exactly when none has it. |
| RecordStore.DataStore.DeleteEntry | app/src/context/DataContext.js:161-175 | Removes the entry, calls deletePool for each of its pools with each call seeing the state the previous one left, and removes its DE bouts. Ends in `Cascade.DeleteEntry` of the old state and keeps integrity. |
| RecordStore.DataStore.DeleteEach | app/src/context/DataContext.js:93-96 | The `forEach(deleteEntry)` loop of the parent deletes ends in `DropEntries` of every entry visited, and keeps the store free of dangling references. |
| RecordStore.DataStore.AddPool | app/src/context/DataContext.js:182-192 | Appends exactly one pool and returns it; integrity is kept when its entry exists. |
| RecordStore.DataStore.UpdatePool | app/src/context/DataContext.js:194-200 | Pools become `UpdateWhere` of the old ones; integrity is kept when a changed entry reference resolves. |
| RecordStore.DataStore.GetPool | app/src/context/DataContext.js:213-215 | Returns the first stored record among the pools with this id (no earlier one has it) when one exists, and nothing exactly when none has it. |
| RecordStore.DataStore.DeletePool | app/src/context/DataContext.js:202-211 | Ends in `Cascade.DeletePool` of the old state and keeps integrity. |
| RecordStore.DataStore.AddBout | app/src/context/DataContext.js:218-228 | Appends exactly one bout and returns it; integrity is kept when its pool exists. |
| RecordStore.DataStore.UpdateBout | app/src/context/DataContext.js:230-236 | Bouts become `UpdateWhere` of the old ones; integrity is kept when a changed pool reference resolves. |
| RecordStore.DataStore.GetBout | app/src/context/DataContext.js:244-246 | Returns the first stored record among the bouts with this id (no earlier one has it) when one exists, and nothing exactly when none has it. |
| RecordStore.DataStore.DeleteBout | app/src/context/DataContext.js:238-242 | Ends in `Cascade.DeleteBout` of the old state and keeps integrity. |
| RecordStore.DataStore.AddDEBout | app/src/context/DataContext.js:249-259 | Appends exactly one DE bout and returns it; integrity is kept when its entry exists. |
| RecordStore.DataStore.UpdateDEBout | app/src/context/DataContext.js:261-267 | DE bouts become `UpdateWhere` of the old ones; integrity is kept when a changed entry reference resolves. |
| RecordStore.DataStore.GetDEBout | app/src/context/DataContext.js:275-277 | Returns the first stored record among the DE bouts with this id (no earlier one has it) when one exists, and nothing exactly when none has it. |
| RecordStore.DataStore.DeleteDEBout | app/src/context/DataContext.js:269-273 | Ends in `Cascade.DeleteDEBout` of the old state and keeps integrity. |
| Collections.Keys | app/src/context/DataContext.js:282 | Every record's key is in the set. |
| Collections.KeyWitness | app/src/context/DataContext.js:282 | Every key in the set is the key of some record. |
| Collections.Keep | app/src/context/DataContext.js:284 | A record is kept exactly when its key is one of the given keys, and then as many times as it occurs in the list. |
| Collections.Drop | app/src/context/DataContext.js:88 | A record stays exactly when its key is not one of the given keys, and then as many times as it occurs in the list. |
| Collections.KeepAppend | app/src/context/DataContext.js:284 | Filtering a concatenation is concatenating the filtered parts, so `Keep` keeps the order of the records. |
| Collections.DropAppend | app/src/context/DataContext.js:88 | Filtering a concatenation is concatenating the filtered parts, so `Drop` keeps the order of the records. |
| Collections.Find | app/src/context/DataContext.js:100 | Finds nothing exactly when no record has the key; otherwise returns the first record with that key. |
| Collections.UpdateWhere | app/src/context/DataContext.js:80-82 | Same length; position by position, the record with the id is merged and stamped and every other record is unchanged. |
| Collections.FindFresh | app/src/context/DataContext.js:67-77 | A record appended under a key not yet present is what find returns for that key. |
| Collections.UpdateAbsent | app/src/context/DataContext.js:79-85 | An update whose id matches no record leaves the collection unchanged. |
| Collections.UpdateKeepsIds | app/src/context/DataContext.js:79-85 | An update never changes which ids a collection holds. |
| Collections.UpdateMembers | app/src/context/DataContext.js:79-85 | Every record after an update is an old record, or an old record with this id, merged and stamped. |
| Collections.DropIdempotent | app/src/context/DataContext.js:238-242 | Filtering out the same ids twice is filtering them out once. |
| Collections.DropDrop | app/src/context/DataContext.js:202-211 | Two successive filters drop the union of the two key sets. |
| Collections.DropAbsent | app/src/context/DataContext.js:238-242 | Filtering out keys that no record has leaves the collection as it is. |
| Collections.KeysAppend | app/src/context/DataContext.js:73 | The keys of a concatenation are the union of the keys. |
| Model.Override | app/src/context/DataContext.js:81 | One field of `{...record, ...updatedData}`: a field the update carries wins, and one it leaves out keeps its value. |
| Model.MergeFencerLaws | app/src/context/DataContext.js:81 | MergeFencer, the spread of updateFencer: repeating an update changes nothing more, and an empty update changes nothing. |
| Model.MergeTournamentLaws | app/src/context/DataContext.js:118 | MergeTournament, the spread of updateTournament: repeating an update changes nothing more, and an empty update changes nothing. |
| Model.MergeEntryLastWriteWins | app/src/context/DataContext.js:155 | MergeEntry, the spread of updateEntry, is last-write-wins per field. Two updates equal one update by their spread, repeating an update changes nothing more, and an empty update changes nothing. |
| Model.MergePoolLaws | app/src/context/DataContext.js:196 | MergePool, the spread of updatePool: repeating an update changes nothing more, and an empty update changes nothing. |
| Model.MergeBoutLaws | app/src/context/DataContext.js:232 | MergeBout, the spread of updateBout: repeating an update changes nothing more, an empty update changes nothing, a score set to `undefined` is cleared, and a score left out is kept. |
| Model.MergeDEBoutLaws | app/src/context/DataContext.js:263 | MergeDEBout, the spread of updateDEBout: the same laws as for bouts. |
| Cascade.DropPools | app/src/context/DataContext.js:202-211 | A pool stays exactly when it was stored and its id is not one of those removed. A bout stays exactly when it was stored and its pool is not one of them. The other four collections are unchanged. |
| Cascade.DropEntries | app/src/context/DataContext.js:161-175 | An entry stays exactly when it was stored and is not removed. A DE bout stays exactly when it was stored and names no removed entry. A pool stays exactly when it was stored and its id is not that of a pool of a removed entry. A bout stays exactly when it was stored and names none of those pools. Fencers and tournaments are unchanged. |
| Cascade.DeleteBout | app/src/context/DataContext.js:238-242 | Every bout with this id goes. Every other bout stays, as many times as it was stored, and the other collections are unchanged. |
| Cascade.DeleteDEBout | app/src/context/DataContext.js:269-273 | Every DE bout with this id goes. Every other DE bout stays, as many times as it was stored, and the other collections are unchanged. |
| Cascade.DeletePool | app/src/context/DataContext.js:202-211 | Exactly the pools with this id and the bouts naming it go. Every other pool and bout stays, as many times as it was stored, and every other collection is unchanged. |
| Cascade.DeleteEntry | app/src/context/DataContext.js:161-175 | Exactly the entries with this id and the DE bouts naming it go. A pool stays exactly when it was stored and its id is not that of a pool of the entry, and a bout exactly when it was stored and names none of those pools. No pool of the entry remains. Fencers and tournaments are unchanged. |
| Cascade.DeleteFencer | app/src/context/DataContext.js:87-97 | Exactly the fencers with this id go. Entries, pools, bouts and DE bouts stay exactly when they were stored and are not, or do not name, one of the fencer's entries or their pools. Tournaments are unchanged, and every entry left names another fencer. |
| Cascade.DeleteTournament | app/src/context/DataContext.js:124-134 | Exactly the tournaments with this id go. Entries, pools, bouts and DE bouts stay exactly when they were stored and are not, or do not name, one of the tournament's entries or their pools. Fencers are unchanged, and every entry left names another tournament. |
| Cascade.DeleteFencerComplete | app/src/context/DataContext.js:87-97 | After deleting a fencer, nothing reachable from it remains: none of its entries, their pools and DE bouts, or those pools' bouts. |
| Cascade.DeleteTournamentComplete | app/src/context/DataContext.js:124-134 | After deleting a tournament, none of its entries and nothing below them remains. |
| Cascade.DropEntriesIntegrity | app/src/context/DataContext.js:161-175 | Removing entries with everything below them keeps every reference resolving. |
| Cascade.DeleteEntryIntegrity | app/src/context/DataContext.js:161-175 | deleteEntry keeps every reference resolving. |
| Cascade.DeleteFencerIntegrity | app/src/context/DataContext.js:87-97 | deleteFencer keeps every reference resolving. |
| Cascade.DeleteTournamentIntegrity | app/src/context/DataContext.js:124-134 | deleteTournament keeps every reference resolving. |
| Cascade.DeletePoolIntegrity | app/src/context/DataContext.js:202-211 | deletePool keeps every reference resolving. |
| Cascade.DeleteLeafIntegrity | app/src/context/DataContext.js:238-242 | deleteBout and deleteDEBout keep every reference resolving. |
| Cascade.DropPoolsStep | app/src/context/DataContext.js:167-170 | A deletePool after removing a set of pools ends where removing the enlarged set does. |
| Cascade.DropEntriesStep | app/src/context/DataContext.js:93-96 | A deleteEntry after removing a set of entries ends where removing the enlarged set does. This holds even though the nested call only finds the pools that are still there. |
| Cascade.DropPoolsNone | app/src/context/DataContext.js:167-170 | Removing no pools changes nothing. |
| Cascade.DropEntriesNone | app/src/context/DataContext.js:93-96 | Removing no entries changes nothing. |
| Cascade.DeleteEntryTwice | app/src/context/DataContext.js:161-175 | Deleting an entry twice is deleting it once. |
| Cascade.DeleteFencerTwice | app/src/context/DataContext.js:87-97 | Deleting a fencer twice is deleting it once. |
| Cascade.DeleteTournamentTwice | app/src/context/DataContext.js:124-134 | Deleting a tournament twice is deleting it once. |
| Cascade.DeletePoolTwice | app/src/context/DataContext.js:202-211 | Deleting a pool twice is deleting it once. |
| Cascade.DeleteLeafTwice | app/src/context/DataContext.js:238-242 | Deleting a bout or a DE bout twice is deleting it once. |
| Cascade.DeleteAbsentFencer | app/src/context/DataContext.js:87-97 | In a store without dangling references, deleting a fencer that is not there changes nothing. |
| Cascade.AddIntegrity | app/src/context/DataContext.js:67-77 | A change that loses no ids and brings only resolving references keeps integrity. |
| Cascade.AddFencerIntegrity | app/src/context/DataContext.js:67-77 | Appending a fencer keeps integrity. |
| Cascade.AddTournamentIntegrity | app/src/context/DataContext.js:104-114 | Appending a tournament keeps integrity. |
| Cascade.AddEntryIntegrity | app/src/context/DataContext.js:141-151 | Appending an entry whose fencer and tournament exist keeps integrity. |
| Cascade.AddPoolIntegrity | app/src/context/DataContext.js:182-192 | Appending a pool whose entry exists keeps integrity. |
| Cascade.AddBoutIntegrity | app/src/context/DataContext.js:218-228 | Appending a bout whose pool exists keeps integrity. |
| Cascade.AddDEBoutIntegrity | app/src/context/DataContext.js:249-259 | Appending a DE bout whose entry exists keeps integrity. |
| Cascade.UpdateEntryIntegrity | app/src/context/DataContext.js:153-159 | Updating entries keeps integrity when a changed fencer or tournament reference resolves. |
| Cascade.UpdatePoolIntegrity | app/src/context/DataContext.js:194-200 | Updating pools keeps integrity when a changed entry reference resolves. |
| Cascade.UpdateBoutIntegrity | app/src/context/DataContext.js:230-236 | Updating bouts keeps integrity when a changed pool reference resolves. |
| Cascade.UpdateDEBoutIntegrity | app/src/context/DataContext.js:261-267 | Updating DE bouts keeps integrity when a changed entry reference resolves. |
| Cascade.DeleteEntryAsWritten | app/src/context/DataContext.js:161-175 | deleteEntry as the component runs it: the entry and its DE bouts go, and no pool is added. |
| Cascade.AsWrittenOnTwoPools | app/src/context/DataContext.js:161-175 | On an entry with two pools, the as-written delete keeps the first pool. |
| Cascade.DeleteEntryAsWrittenOrphansPool | app/src/context/DataContext.js:161-175 | On that store, the as-written delete leaves a pool naming a deleted entry; the sequential cascade does not. |
| Analytics.Count | app/src/context/DataContext.js:291 | A filtered length is at most the length. It equals the length exactly when all match, and is zero exactly when none match. |
| Analytics.Sum | app/src/context/DataContext.js:294-295 | The `reduce` sum: non-negative when every term is, and 0 when every term is. SumSnoc and SumDifference give its laws. |
| Analytics.Scored | app/src/context/DataContext.js:294 | `bout.scoreFor || 0`: a missing score counts as 0, a present one as itself. |
| Analytics.Received | app/src/context/DataContext.js:295 | `bout.scoreAgainst || 0`: a missing score counts as 0, a present one as itself. |
| Analytics.SumDifference | app/src/context/DataContext.js:294-296 | The difference of two sums is the sum of the differences. |
| Analytics.PoolBoutsReachable | app/src/context/DataContext.js:281-287 | A bout is counted exactly when it is stored and some pool of one of the entries carries its pool id. |
| Analytics.GetFencerStats | app/src/context/DataContext.js:280-314 | The statistics are defined by the fencer's reachable bouts: <br>- pool bouts and victories counted over them, touches summed with a missing score as 0; <br>- indicator = scored − received = the sum of the bout margins; <br>- DE bouts and DE victories counted over the entries' DE bouts; <br>- victories at most bouts, and both percentages as `WinPercentage`, so in [0, 100]; <br>- totalTournaments is the number of entries whose fencer is this one. |
| Analytics.KeepCount | app/src/context/DataContext.js:281 | The entries kept by the fencer-id filter are as many as the predicate `entry.fencerId === fencerId` counts. |
| Analytics.PoolStatsAgree | app/src/utils/helpers.js:33-38 | On a non-empty list with every score present, calculatePoolStats gives the counts, percentage and sums that getFencerStats computes inline. |
| Analytics.VictoriesCount | app/src/utils/helpers.js:33 | The victories filter has the length of the victory count. |
| Analytics.SumSnoc | app/src/utils/helpers.js:36-37 | Summing a list with one more element adds that element. |
| Analytics.ReduceSums | app/src/utils/helpers.js:36-37 | The left-fold reduce equals the sum when no score is missing, by ReduceScoredSum and ReduceReceivedSum. |
| Analytics.ReduceScoredSum | app/src/utils/helpers.js:36 | The left fold of `scoreFor` equals the sum of the scores when none is missing. |
| Analytics.ReduceReceivedSum | app/src/utils/helpers.js:37 | The left fold of `scoreAgainst` equals the sum of the scores when none is missing. |
| Analytics.FencerStatsMatchPoolStats | app/src/context/DataContext.js:290-296 | A fencer's pool statistics equal calculatePoolStats on the same bouts, empty or not, when every bout has its scores. |
| Analytics.AliceStats | app/src/context/DataContext.js:280-314 | A fencer with one pool of a 5-3 win and a 4-5 loss has 2 bouts, 1 victory, 50 percent, 9 scored, 8 received and indicator 1. |
| Analytics.EntryPoint | app/src/context/DataContext.js:319-342 | There is no point exactly when the entry's tournament is missing. |
| Analytics.EntryPointFigures | app/src/context/DataContext.js:323-341 | A point carries the tournament's id, the name and start date of the first tournament with that id (what getTournament finds), and the entry's placing. Its win percentage and indicator are over that entry's own pool bouts only. |
| Analytics.EntryPointMatchesPoolStats | app/src/context/DataContext.js:323-341 | A point's win percentage and indicator equal what calculatePoolStats gives for the entry's pool bouts, empty or not, when every bout has its scores. |
| Analytics.Points | app/src/context/DataContext.js:319-344 | Mapping the entries to points and dropping the nulls gives at most one point per entry. PointsOnePerEntry gives the exact count and order. |
| Analytics.Located | app/src/context/DataContext.js:344 | An entry is kept exactly when it is in the list and its tournament exists. |
| Analytics.PointsOnePerEntry | app/src/context/DataContext.js:319-344 | Mapping and dropping nulls gives exactly one point per entry whose tournament exists, in entry order (from PointsLength and PointAt). |
| Analytics.PointsLength | app/src/context/DataContext.js:319-344 | There are as many points as entries whose tournament exists. |
| Analytics.PointAt | app/src/context/DataContext.js:319-344 | The k-th point is the point of the k-th entry whose tournament exists. |
| Analytics.InsertByDate | app/src/context/DataContext.js:345 | Inserting into a date-sorted list keeps it sorted and adds exactly the one point. |
| Analytics.SortedCons | app/src/context/DataContext.js:345 | A point no later than every point of a sorted list can go in front. |
| Analytics.SortByDate | app/src/context/DataContext.js:345 | The result is sorted by date and is a permutation of the input. |
| Analytics.GetPerformanceTrend | app/src/context/DataContext.js:316-346 | The trend is non-decreasing by date and is a permutation of the fencer's points. |
| Analytics.TrendCoversEntries | app/src/context/DataContext.js:316-346 | The trend has as many points as the fencer has entries whose tournament exists. Each point is the point of such an entry. |
| Helpers.WinPercentage | app/src/context/DataContext.js:292 | 0 with no bouts; otherwise percentage × total = 100 × victories, in [0, 100] when victories ≤ total. |
| Helpers.Victories | app/src/utils/helpers.js:33 | Exactly the won bouts of the list. |
| Helpers.Plus | app/src/utils/helpers.js:36-37 | JavaScript `sum + x`: NaN exactly when the sum is NaN or `x` is undefined, and otherwise adds `x`. |
| Helpers.Minus | app/src/utils/helpers.js:38 | JavaScript `a - b`: NaN exactly when either side is, and otherwise the difference. |
| Helpers.ReduceScoreFor | app/src/utils/helpers.js:36 | The left fold of `scoreFor` is NaN exactly when some bout lacks that score. |
| Helpers.ReduceScoreAgainst | app/src/utils/helpers.js:37 | The left fold of `scoreAgainst` is NaN exactly when some bout lacks that score. |
| Helpers.CalculatePoolStats | app/src/utils/helpers.js:21-48 | A missing or empty list gives zeros throughout. Otherwise: <br>- the bout count is the list length; <br>- victories are the won bouts and at most the total; <br>- the percentage is `WinPercentage` of them; <br>- each touch sum is NaN exactly when some bout lacks that score; <br>- the indicator is finite exactly when both sums are, and then equals scored − received. |
| Helpers.Digit | app/src/utils/helpers.js:120 | A digit character has the digit's value. |
| Helpers.Decimal | app/src/utils/helpers.js:120 | A number prints as a non-empty string of digits, without a leading zero unless it is 0. |
| Helpers.DecimalRoundTrip | app/src/utils/helpers.js:120 | Reading the printed number back gives the number. |
| Helpers.DecimalInjective | app/src/utils/helpers.js:120 | Two numbers print the same only when they are equal. |
| Helpers.FormatPlacing | app/src/utils/helpers.js:113-129 | 0 gives ''. Otherwise the result is the number followed by 'th' in the teens of every hundred, and by 'st', 'nd', 'rd' for a last digit of 1, 2, 3 elsewhere, and 'th' for any other last digit. |
| Helpers.WeaponName | app/src/utils/helpers.js:63-70 | F, E and S get Foil, Épée and Saber; any other code is returned as it is. |
| Helpers.AgeCategoryName | app/src/utils/helpers.js:77-88 | Each known category gets its age band after the code; any other code is returned as it is. The result always starts with the code. |
| Helpers.DERoundName | app/src/utils/helpers.js:95-106 | 64, 32 and 16 give "Table of" the size; 8, 4, 2 and 1 have their own names; any other round is "Round of" the size. |
| FencerDetail.PlacingSuffix | app/src/pages/FencerDetail.js:267-277 | Always one of st, nd, rd, th. 'th' throughout the teens of every hundred. Elsewhere it is 'st', 'nd', 'rd' exactly for a last digit of 1, 2, 3, and 'th' for any other last digit. |
| FencerDetail.SuffixByLastTwoDigits | app/src/pages/FencerDetail.js:268-275 | The suffix depends only on the placing's last two digits. |
| FencerDetail.SuffixPeriodic | app/src/pages/FencerDetail.js:268-275 | Placings a hundred apart get the same suffix. |
| FencerDetail.FormatPlacingHasSuffix | app/src/pages/FencerDetail.js:267-277 | For every positive placing, formatPlacing gives the number followed by this suffix. |

## Left out

- Persistence to the browser's storage is not modelled: the save after each change, the load at start-up, JSON encoding and the logging. A store starts empty here.
- React's state machinery is not modelled. Each method updates the class fields directly, and each nested delete sees the state the previous one left. In the component, every nested delete filters the arrays captured when the handler began, and only the last setter call per array takes effect. The model does not reproduce that; Findings gives it for deleteEntry. deleteFencer and deleteTournament have the same overwrite among their entries (DataContext.js:93-96, 130-133), and it is not modelled for them.
- Id and time-stamp generation (`Date.now()`, `new Date().toISOString()`) is replaced by parameters. `generateId`, which uses `Math.random`, is not modelled.
- Date parsing and formatting (`formatDate`) is not modelled. The trend sort compares `new Date(...)` values; here dates are whole day numbers, and invalid dates are not modelled.
- Floating point is not modelled: win percentages are exact reals, and `toFixed` rounding is not part of the model.
- Table lookups assume a code that is not an inherited property of a JavaScript object (such as `constructor`). Such codes are not modelled.
- Placings and DE rounds are natural numbers. Negative or fractional placings, where JavaScript's `%` differs, are not modelled.
- An update object that carries its own `id` or `createdAt` is not modelled: patches only override the entity's own fields. Setting a field to `undefined` is modelled for the scores of bouts and DE bouts, which may be missing (`Some(None)` in a patch). For every other field a patch either sets a value or leaves the field alone.
- Scores stored as strings, which `+` would concatenate, are not modelled. A score is a whole number or missing.
- The UI pages, routing, the dashboard's time-dependent filters, the login stub and `debugLocalStorage` are not modelled.
- Helpers.Decimal prints every natural number in plain digits. JavaScript prints numbers from 1e21 up in exponent form and is not exact above 2^53, so for such placings and round sizes `FormatPlacing`, `DERoundName` and the round trip do not describe the application.
- RecordStore.DataStore.AddFencer (and the other adds) do not require a fresh id, since the application never checks for one. The add-then-get guarantee is stated only for an id that was not yet present.

## Findings

| source | as written | input that shows it | evidently intended | confidence | as-written member | corrected member |
|---|---|---|---|---|---|---|
| app/src/context/DataContext.js:161-175 | Each `deletePool` call inside `deleteEntry` filters the `pools` and `bouts` arrays captured when the handler began. Only the last `setPools`/`setBouts` call takes effect, so only the entry's last pool (and its bouts) is removed. | An entry `e` with pools `p1` and `p2`: after `deleteEntry(e)`, `p1` remains and names the deleted entry. | Every pool of the entry, and every bout of those pools, is removed, so no reference dangles. | not executed | Cascade.DeleteEntryAsWrittenOrphansPool | Cascade.DeleteEntryIntegrity |
