/** The closed enumerations and the record shapes of the application, with
    the partial-update records (`Partial<Household>` and friends) that the
    data hook merges into its mirror entries. */
module Types {
  import opened Common

  /** Identifiers are opaque strings assigned by the document store. */
  type Id = string

  /** A point in time as `Date.getTime()` gives it: milliseconds since the epoch. */
  type Instant = int

  datatype View = Dashboard | Admin | Collector

  datatype Role = Admin | Collector

  datatype CollectionStatus = Pending | Collected

  datatype User = User(id: Id, username: string, password: string, role: Role)

  datatype Household = Household(
    id: Id,
    houseNumber: string,
    address: string,
    ownerName: string,
    block: string,
    panchayat: string,
    status: CollectionStatus)

  /** GPS coordinates; only ever stored and passed along, never computed with. */
  datatype Coords = Coords(latitude: real, longitude: real)

  /** A collection event. Its id is absent until the store assigned one, and
      its location is absent when no coordinates were obtained. */
  datatype CollectionRecord = CollectionRecord(
    id: Option<Id>,
    householdId: Id,
    collectorId: Id,
    timestamp: Instant,
    location: Option<Coords>)

  /** A block with its ordered list of panchayat names. */
  datatype AreaLocation = AreaLocation(id: Id, blockName: string, panchayats: seq<string>)

  /** A day marked as deliberately skipped; `date` is a `YYYY-MM-DD` string. */
  datatype PendingDate = PendingDate(
    id: Id,
    householdId: Id,
    date: string,
    reason: Option<string>,
    createdAt: Instant)

  // Keys by which the list operations of module Lists select entries.
  function HouseholdId(h: Household): Id { h.id }
  function UserId(u: User): Id { u.id }
  function LocationId(l: AreaLocation): Id { l.id }
  function PendingDateId(p: PendingDate): Id { p.id }
  function BlockNameOf(l: AreaLocation): string { l.blockName }

  /** `Partial<Household>`: every field optional. */
  datatype HouseholdPatch = HouseholdPatch(
    id: Option<Id>,
    houseNumber: Option<string>,
    address: Option<string>,
    ownerName: Option<string>,
    block: Option<string>,
    panchayat: Option<string>,
    status: Option<CollectionStatus>)

  datatype UserPatch = UserPatch(
    id: Option<Id>,
    username: Option<string>,
    password: Option<string>,
    role: Option<Role>)

  datatype LocationPatch = LocationPatch(
    id: Option<Id>,
    blockName: Option<string>,
    panchayats: Option<seq<string>>)

  function Pick<T>(o: Option<T>, keep: T): T
  {
    if o.Some? then o.value else keep
  }

  /** `{ ...h, ...p }`: the fields present in the patch win. */
  function MergeHousehold(h: Household, p: HouseholdPatch): Household
  {
    Household(
      Pick(p.id, h.id), Pick(p.houseNumber, h.houseNumber), Pick(p.address, h.address),
      Pick(p.ownerName, h.ownerName), Pick(p.block, h.block), Pick(p.panchayat, h.panchayat),
      Pick(p.status, h.status))
  }

  function MergeUser(u: User, p: UserPatch): User
  {
    User(Pick(p.id, u.id), Pick(p.username, u.username), Pick(p.password, u.password), Pick(p.role, u.role))
  }

  function MergeLocation(l: AreaLocation, p: LocationPatch): AreaLocation
  {
    AreaLocation(Pick(p.id, l.id), Pick(p.blockName, l.blockName), Pick(p.panchayats, l.panchayats))
  }

  /** `{ status: s }`: merging it changes the status and nothing else. */
  function StatusPatch(s: CollectionStatus): (p: HouseholdPatch)
    ensures forall h :: MergeHousehold(h, p) == h.(status := s)
  {
    HouseholdPatch(None, None, None, None, None, None, Some(s))
  }

  /** A whole household used as a patch: merging it replaces the entry. */
  function WholeHousehold(g: Household): (p: HouseholdPatch)
    ensures forall h :: MergeHousehold(h, p) == g
  {
    HouseholdPatch(Some(g.id), Some(g.houseNumber), Some(g.address), Some(g.ownerName),
                   Some(g.block), Some(g.panchayat), Some(g.status))
  }

  /** `{ panchayats: ps }`: merging it replaces the panchayat list and nothing else. */
  function PanchayatsPatch(ps: seq<string>): (p: LocationPatch)
    ensures forall l :: MergeLocation(l, p) == l.(panchayats := ps)
  {
    LocationPatch(None, None, Some(ps))
  }

  /** Merging the same patch twice is merging it once. */
  lemma MergeIdempotent(h: Household, p: HouseholdPatch)
    ensures MergeHousehold(MergeHousehold(h, p), p) == MergeHousehold(h, p)
  {
  }
}
