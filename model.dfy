/** The six record kinds kept by the data store, the partial updates that
    can be merged into them, and a snapshot of the whole store.

    Every stored record is the caller's fields plus an `id`, a `createdAt`
    stamp and, once it has been updated, an `updatedAt` stamp; `Rec<D>`
    carries those three beside the entity's own fields `D`. Ids and stamps
    come from the clock in the application; here they are opaque values
    supplied by the caller. Dates are day numbers and comparable as such. */
module Model {

  datatype Option<T> = None | Some(value: T)

  type Id = string
  type Stamp = string
  type Date = int

  datatype Rec<D> = Rec(id: Id, createdAt: Stamp, updatedAt: Option<Stamp>, data: D)

  function IdOf<D>(r: Rec<D>): Id { r.id }

  /** The value a spread `{...old, ...patch}` leaves in one field. */
  function Override<T>(patched: Option<T>, current: T): (r: T)
    ensures patched.Some? ==> r == patched.value
    ensures patched.None? ==> r == current
  {
    if patched.Some? then patched.value else current
  }

  datatype FencerData = FencerData(
    name: string, dateOfBirth: Date, gender: string, club: string,
    primaryWeapon: string, secondaryWeapon: string, rating: string)

  datatype TournamentData = TournamentData(
    name: string, location: string, startDate: Date, endDate: Date, level: string)

  /** One fencer's registration in one tournament; `finalPlacing` 0 means
      "not recorded" (the falsy value the placing formatter turns into ''). */
  datatype EntryData = EntryData(
    fencerId: Id, tournamentId: Id, weapon: string, ageCategory: string,
    initialSeeding: nat, finalPlacing: nat, notes: string)

  datatype PoolData = PoolData(entryId: Id, poolNumber: nat, numberOfFencers: nat)

  /** Scores may be missing from a stored bout, hence `Option`. */
  datatype BoutData = BoutData(
    poolId: Id, opponentName: string, scoreFor: Option<int>, scoreAgainst: Option<int>, victory: bool)

  datatype DEBoutData = DEBoutData(
    entryId: Id, round: nat, opponentName: string,
    scoreFor: Option<int>, scoreAgainst: Option<int>, victory: bool)

  type Fencer = Rec<FencerData>
  type Tournament = Rec<TournamentData>
  type Entry = Rec<EntryData>
  type Pool = Rec<PoolData>
  type Bout = Rec<BoutData>
  type DEBout = Rec<DEBoutData>

  // Foreign keys, as key functions for the generic collection helpers.
  function EntryFencer(e: Entry): Id { e.data.fencerId }
  function EntryTournament(e: Entry): Id { e.data.tournamentId }
  function PoolEntry(p: Pool): Id { p.data.entryId }
  function BoutPool(b: Bout): Id { b.data.poolId }
  function DEBoutEntry(d: DEBout): Id { d.data.entryId }

  // Partial updates: a field that is `None` is absent from the update object.

  datatype FencerPatch = FencerPatch(
    name: Option<string>, dateOfBirth: Option<Date>, gender: Option<string>, club: Option<string>,
    primaryWeapon: Option<string>, secondaryWeapon: Option<string>, rating: Option<string>)

  datatype TournamentPatch = TournamentPatch(
    name: Option<string>, location: Option<string>, startDate: Option<Date>,
    endDate: Option<Date>, level: Option<string>)

  datatype EntryPatch = EntryPatch(
    fencerId: Option<Id>, tournamentId: Option<Id>, weapon: Option<string>, ageCategory: Option<string>,
    initialSeeding: Option<nat>, finalPlacing: Option<nat>, notes: Option<string>)

  datatype PoolPatch = PoolPatch(entryId: Option<Id>, poolNumber: Option<nat>, numberOfFencers: Option<nat>)

  datatype BoutPatch = BoutPatch(
    poolId: Option<Id>, opponentName: Option<string>, scoreFor: Option<Option<int>>,
    scoreAgainst: Option<Option<int>>, victory: Option<bool>)

  datatype DEBoutPatch = DEBoutPatch(
    entryId: Option<Id>, round: Option<nat>, opponentName: Option<string>,
    scoreFor: Option<Option<int>>, scoreAgainst: Option<Option<int>>, victory: Option<bool>)

  function MergeFencer(d: FencerData, p: FencerPatch): FencerData {
    FencerData(Override(p.name, d.name), Override(p.dateOfBirth, d.dateOfBirth),
               Override(p.gender, d.gender), Override(p.club, d.club),
               Override(p.primaryWeapon, d.primaryWeapon), Override(p.secondaryWeapon, d.secondaryWeapon),
               Override(p.rating, d.rating))
  }

  function MergeTournament(d: TournamentData, p: TournamentPatch): TournamentData {
    TournamentData(Override(p.name, d.name), Override(p.location, d.location),
                   Override(p.startDate, d.startDate), Override(p.endDate, d.endDate),
                   Override(p.level, d.level))
  }

  function MergeEntry(d: EntryData, p: EntryPatch): EntryData {
    EntryData(Override(p.fencerId, d.fencerId), Override(p.tournamentId, d.tournamentId),
              Override(p.weapon, d.weapon), Override(p.ageCategory, d.ageCategory),
              Override(p.initialSeeding, d.initialSeeding), Override(p.finalPlacing, d.finalPlacing),
              Override(p.notes, d.notes))
  }

  function MergePool(d: PoolData, p: PoolPatch): PoolData {
    PoolData(Override(p.entryId, d.entryId), Override(p.poolNumber, d.poolNumber),
             Override(p.numberOfFencers, d.numberOfFencers))
  }

  function MergeBout(d: BoutData, p: BoutPatch): BoutData {
    BoutData(Override(p.poolId, d.poolId), Override(p.opponentName, d.opponentName),
             Override(p.scoreFor, d.scoreFor), Override(p.scoreAgainst, d.scoreAgainst),
             Override(p.victory, d.victory))
  }

  function MergeDEBout(d: DEBoutData, p: DEBoutPatch): DEBoutData {
    DEBoutData(Override(p.entryId, d.entryId), Override(p.round, d.round),
               Override(p.opponentName, d.opponentName), Override(p.scoreFor, d.scoreFor),
               Override(p.scoreAgainst, d.scoreAgainst), Override(p.victory, d.victory))
  }

  /** Applying `p` and then `q` is applying their spread `{...p, ...q}`:
      the later update wins field by field. */
  function ThenEntryPatch(p: EntryPatch, q: EntryPatch): (r: EntryPatch) {
    EntryPatch(ThenField(p.fencerId, q.fencerId), ThenField(p.tournamentId, q.tournamentId),
               ThenField(p.weapon, q.weapon), ThenField(p.ageCategory, q.ageCategory),
               ThenField(p.initialSeeding, q.initialSeeding), ThenField(p.finalPlacing, q.finalPlacing),
               ThenField(p.notes, q.notes))
  }

  function ThenField<T>(p: Option<T>, q: Option<T>): Option<T> {
    if q.Some? then q else p
  }

  /** Merging an entry update is last-write-wins per field: two updates in a
      row equal one update by their spread, an empty update changes nothing,
      and repeating an update changes nothing more. */
  lemma MergeEntryLastWriteWins(d: EntryData, p: EntryPatch, q: EntryPatch)
    ensures MergeEntry(MergeEntry(d, p), q) == MergeEntry(d, ThenEntryPatch(p, q))
    ensures MergeEntry(MergeEntry(d, p), p) == MergeEntry(d, p)
    ensures MergeEntry(d, EntryPatch(None, None, None, None, None, None, None)) == d
  {
  }

  /** The fencer, tournament, pool, bout and DE bout merges are spreads
      too: repeating an update changes nothing more, and an empty update
      changes nothing. */
  lemma MergeFencerLaws(d: FencerData, p: FencerPatch)
    ensures MergeFencer(MergeFencer(d, p), p) == MergeFencer(d, p)
    ensures MergeFencer(d, FencerPatch(None, None, None, None, None, None, None)) == d
  {
  }

  lemma MergeTournamentLaws(d: TournamentData, p: TournamentPatch)
    ensures MergeTournament(MergeTournament(d, p), p) == MergeTournament(d, p)
    ensures MergeTournament(d, TournamentPatch(None, None, None, None, None)) == d
  {
  }

  lemma MergePoolLaws(d: PoolData, p: PoolPatch)
    ensures MergePool(MergePool(d, p), p) == MergePool(d, p)
    ensures MergePool(d, PoolPatch(None, None, None)) == d
  {
  }

  /** A bout update that carries a score sets it, an update whose score is
      `undefined` clears it, and one without the key keeps it. */
  lemma MergeBoutLaws(d: BoutData, p: BoutPatch)
    ensures MergeBout(MergeBout(d, p), p) == MergeBout(d, p)
    ensures MergeBout(d, BoutPatch(None, None, None, None, None)) == d
    ensures p.scoreFor == Some(None) ==> MergeBout(d, p).scoreFor.None?
    ensures p.scoreFor.None? ==> MergeBout(d, p).scoreFor == d.scoreFor
  {
  }

  lemma MergeDEBoutLaws(d: DEBoutData, p: DEBoutPatch)
    ensures MergeDEBout(MergeDEBout(d, p), p) == MergeDEBout(d, p)
    ensures MergeDEBout(d, DEBoutPatch(None, None, None, None, None, None)) == d
    ensures p.scoreFor == Some(None) ==> MergeDEBout(d, p).scoreFor.None?
    ensures p.scoreFor.None? ==> MergeDEBout(d, p).scoreFor == d.scoreFor
  {
  }

  /** The six collections of the store, as a value. */
  datatype Db = Db(
    fencers: seq<Fencer>, tournaments: seq<Tournament>, entries: seq<Entry>,
    pools: seq<Pool>, bouts: seq<Bout>, deBouts: seq<DEBout>)
}
