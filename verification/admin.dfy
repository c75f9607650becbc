/** The admin panel's forms: each handler checks its guard first and, when
    the guard rejects, returns before any call to the store; otherwise it
    makes one store call and, when that succeeds, resets its form fields. A
    failed call is only reported to the user (the store has stored its
    error text). */
module AdminPanel {
  import opened Common
  import opened Text
  import opened Types
  import opened Lists
  import opened DataStore
  import opened EditHousehold

  /** What a handler did: returned at its guard, or made its store call,
      which succeeded or failed. */
  datatype Attempt = Rejected | Written | WriteFailed

  // ----------------------------------------------------------------- guards

  /** `locations.some(l => l.blockName.toLowerCase() === lowered)`. */
  function SomeBlockNamed(locations: seq<AreaLocation>, lowered: string): (b: bool)
    ensures b <==> exists l :: l in locations && ToLower(l.blockName) == lowered
  {
    if locations == [] then false
    else ToLower(locations[0].blockName) == lowered || SomeBlockNamed(locations[1..], lowered)
  }

  /** The guard of `handleAddBlock`: the trimmed name is empty, or a block of
      that name exists ignoring case. */
  function BlockRejected(locations: seq<AreaLocation>, name: string): (b: bool)
    ensures b <==> Trim(name) == []
                   || exists l :: l in locations && ToLower(l.blockName) == ToLower(Trim(name))
  {
    Trim(name) == [] || SomeBlockNamed(locations, ToLower(Trim(name)))
  }

  /** `households.some(h => h.block === name)`. */
  function SomeHouseholdInBlock(hs: seq<Household>, name: string): (b: bool)
    ensures b <==> exists h :: h in hs && h.block == name
  {
    if hs == [] then false else hs[0].block == name || SomeHouseholdInBlock(hs[1..], name)
  }

  /** The guard of `handleDeleteBlock`: some household's block is the name of
      the location with that id. An unknown id matches no household. */
  function BlockInUse(hs: seq<Household>, locations: seq<AreaLocation>, blockId: Id): (b: bool)
    ensures b <==> Find(locations, LocationId, blockId).Some?
                   && exists h :: h in hs && h.block == Find(locations, LocationId, blockId).value.blockName
  {
    match Find(locations, LocationId, blockId)
    case None => false
    case Some(l) => SomeHouseholdInBlock(hs, l.blockName)
  }

  /** `households.some(h => h.panchayat === panchayat && h.block === block)`. */
  function SomeHouseholdAt(hs: seq<Household>, block: string, panchayat: string): (b: bool)
    ensures b <==> exists h :: h in hs && h.block == block && h.panchayat == panchayat
  {
    if hs == [] then false
    else (hs[0].panchayat == panchayat && hs[0].block == block) || SomeHouseholdAt(hs[1..], block, panchayat)
  }

  /** The guard of `handleDeletePanchayat`: some household has exactly this
      (block, panchayat) pair, the block being the location with that id. */
  function PanchayatInUse(hs: seq<Household>, locations: seq<AreaLocation>, blockId: Id, name: string): (b: bool)
    ensures b <==> Find(locations, LocationId, blockId).Some?
                   && exists h :: h in hs && h.panchayat == name
                                  && h.block == Find(locations, LocationId, blockId).value.blockName
  {
    match Find(locations, LocationId, blockId)
    case None => false
    case Some(l) => SomeHouseholdAt(hs, l.blockName, name)
  }

  /** `panchayats.some(p => p.toLowerCase() === name.toLowerCase())`. */
  function PanchayatTaken(ps: seq<string>, name: string): (b: bool)
    ensures b <==> exists p :: p in ps && ToLower(p) == ToLower(name)
  {
    if ps == [] then false else ToLower(ps[0]) == ToLower(name) || PanchayatTaken(ps[1..], name)
  }

  /** The text a panchayat input holds for a block: `newPanchayatName[blockId]?.trim()`,
      with a missing entry read as empty. */
  function PanchayatInput(inputs: map<Id, string>, blockId: Id): string
  {
    if blockId in inputs then Trim(inputs[blockId]) else ""
  }

  /** A string is its own key when a name list is filtered by name. */
  function NameKey(s: string): string { s }

  // ------------------------------------------------------------- invariants

  /** Every block name is trimmed and non-empty, and no two are equal
      ignoring case. */
  ghost predicate BlockNamesOk(locations: seq<AreaLocation>)
  {
    && (forall i :: 0 <= i < |locations| ==> locations[i].blockName != [] && Trim(locations[i].blockName) == locations[i].blockName)
    && (forall i, j :: 0 <= i < j < |locations| ==> ToLower(locations[i].blockName) != ToLower(locations[j].blockName))
  }

  /** No two panchayats of a block are equal ignoring case. */
  ghost predicate PanchayatsDistinct(ps: seq<string>)
  {
    forall i, j :: 0 <= i < j < |ps| ==> ToLower(ps[i]) != ToLower(ps[j])
  }

  /** A block the guard lets through keeps the block names well formed. */
  lemma AddBlockKeepsNamesOk(locations: seq<AreaLocation>, name: string, id: Id)
    requires BlockNamesOk(locations)
    requires !BlockRejected(locations, name)
    ensures BlockNamesOk(locations + [AreaLocation(id, Trim(name), [])])
  {
    var ls := locations + [AreaLocation(id, Trim(name), [])];
    TrimIdempotent(name);
    forall i, j | 0 <= i < j < |ls| ensures ToLower(ls[i].blockName) != ToLower(ls[j].blockName) {
      if j == |locations| {
        assert ls[i] in locations;
      }
    }
  }

  /** A panchayat the guard lets through keeps the block's names distinct. */
  lemma AddPanchayatKeepsDistinct(ps: seq<string>, name: string)
    requires PanchayatsDistinct(ps)
    requires !PanchayatTaken(ps, name)
    ensures PanchayatsDistinct(ps + [name])
  {
    var qs := ps + [name];
    forall i, j | 0 <= i < j < |qs| ensures ToLower(qs[i]) != ToLower(qs[j]) {
      if j == |ps| {
        assert qs[i] in ps;
      }
    }
  }

  /** Removing a panchayat by name keeps the others in order and removes
      every entry of that name, so distinct names stay distinct. */
  lemma {:induction false} RemovePanchayatKeepsDistinct(ps: seq<string>, name: string)
    requires PanchayatsDistinct(ps)
    ensures PanchayatsDistinct(Without(ps, NameKey, name))
  {
    if ps != [] {
      RemovePanchayatKeepsDistinct(ps[1..], name);
      var rest := Without(ps[1..], NameKey, name);
      if ps[0] != name {
        var qs := [ps[0]] + rest;
        forall j | 0 < j < |qs| ensures ToLower(qs[0]) != ToLower(qs[j]) {
          assert qs[j] in rest;
          var k :| 0 <= k < |ps[1..]| && ps[1..][k] == qs[j];
          assert ps[k + 1] == qs[j];
        }
      }
    }
  }

  // ---------------------------------------------------------------- the form

  /** The guard and the new list of `handleAddPanchayat`: nothing for an
      empty trimmed input, an unknown block, or a name the block already has
      ignoring case; otherwise the block's list with the name appended. */
  function PanchayatsAfterAdd(locations: seq<AreaLocation>, inputs: map<Id, string>, blockId: Id): (r: Option<seq<string>>)
    ensures var name := PanchayatInput(inputs, blockId);
            var loc := Find(locations, LocationId, blockId);
            && (r.None? <==> name == [] || loc.None? || PanchayatTaken(loc.value.panchayats, name))
            && (r.Some? ==> r.value == loc.value.panchayats + [name] && name != [])
  {
    var name := PanchayatInput(inputs, blockId);
    var loc := Find(locations, LocationId, blockId);
    if name == [] || loc.None? || PanchayatTaken(loc.value.panchayats, name) then None
    else Some(loc.value.panchayats + [name])
  }

  /** The guard and the new list of `handleDeletePanchayat`: nothing while a
      household has the (block, panchayat) pair or when the block is
      unknown; otherwise the block's list without every entry equal to the
      name. */
  function PanchayatsAfterDelete(hs: seq<Household>, locations: seq<AreaLocation>, blockId: Id, name: string)
    : (r: Option<seq<string>>)
    ensures r.None? <==> PanchayatInUse(hs, locations, blockId, name) || Find(locations, LocationId, blockId).None?
    ensures r.Some? ==> forall p :: p in r.value <==> p in Find(locations, LocationId, blockId).value.panchayats && p != name
    ensures r.Some? ==> r.value == Without(Find(locations, LocationId, blockId).value.panchayats, NameKey, name)
  {
    if PanchayatInUse(hs, locations, blockId, name) then None
    else
      match Find(locations, LocationId, blockId)
      case None => None
      case Some(loc) => Some(Without(loc.panchayats, NameKey, name))
  }

  /** Everything the admin panel's forms hold, as one value. */
  datatype FormState = FormState(
    houseNumber: string,
    address: string,
    ownerName: string,
    selectedBlock: string,
    selectedPanchayat: string,
    availablePanchayats: seq<string>,
    username: string,
    password: string,
    role: Role,
    newBlockName: string,
    newPanchayatName: map<Id, string>)

  /** The guard of `handleAddHousehold`: none of the five fields is empty. */
  predicate HouseholdFormFilled(f: FormState)
  {
    f.houseNumber != "" && f.address != "" && f.ownerName != "" && f.selectedBlock != "" && f.selectedPanchayat != ""
  }

  /** The household the add form describes: its fields, status `Pending`,
      and an id the store replaces. */
  function NewHousehold(f: FormState): (h: Household)
    ensures h.status == Pending
    ensures h.houseNumber == f.houseNumber && h.address == f.address && h.ownerName == f.ownerName
    ensures h.block == f.selectedBlock && h.panchayat == f.selectedPanchayat
  {
    Household("", f.houseNumber, f.address, f.ownerName, f.selectedBlock, f.selectedPanchayat, Pending)
  }

  /** The forms after the panel's block effect has run over `locations`: the
      panchayat choices become those of the chosen block (none when no block
      is chosen), and with a block chosen the chosen panchayat is cleared.
      The effect depends on the chosen block and on the location list, so it
      runs again after every accepted location write. */
  function AfterBlockEffect(f: FormState, locations: seq<AreaLocation>): (g: FormState)
    ensures g.availablePanchayats == PanchayatsOfBlock(locations, f.selectedBlock)
    ensures g.selectedPanchayat == if f.selectedBlock != "" then "" else f.selectedPanchayat
    ensures g.(availablePanchayats := f.availablePanchayats, selectedPanchayat := f.selectedPanchayat) == f
  {
    if f.selectedBlock != "" then
      f.(availablePanchayats := PanchayatsOfBlock(locations, f.selectedBlock), selectedPanchayat := "")
    else f.(availablePanchayats := [])
  }

  /** Deleting the only location that carries the chosen block's name leaves
      the household form with no panchayat choices once the effect has run. */
  lemma NoChoicesAfterBlockDelete(f: FormState, locations: seq<AreaLocation>, blockId: Id)
    requires forall l :: l in locations && l.blockName == f.selectedBlock ==> l.id == blockId
    ensures AfterBlockEffect(f, Without(locations, LocationId, blockId)).availablePanchayats == []
  {
  }

  /** After the effect has run, the household form cannot be submitted: with
      a block chosen the panchayat has just been cleared, and without one the
      block itself is missing. So no household is added to a block that the
      write has just removed. */
  lemma EffectUnfillsHouseholdForm(f: FormState, locations: seq<AreaLocation>)
    ensures !HouseholdFormFilled(AfterBlockEffect(f, locations))
  {
  }

  /** When the chosen block's first location is the one whose panchayat list
      is replaced, the effect offers exactly the new list. */
  lemma ChoicesAfterPanchayatUpdate(f: FormState, locations: seq<AreaLocation>, blockId: Id, i: nat, ps: seq<string>)
    requires f.selectedBlock != ""
    requires FirstMatchAt(locations, BlockNameOf, f.selectedBlock, i) && locations[i].id == blockId
    ensures var after := UpdateWhere(locations, LocationId, blockId, MergeLocation, PanchayatsPatch(ps));
            AfterBlockEffect(f, after).availablePanchayats == ps
            && AfterBlockEffect(f, after).selectedPanchayat == ""
  {
    var after := UpdateWhere(locations, LocationId, blockId, MergeLocation, PanchayatsPatch(ps));
    assert forall j :: 0 <= j < |locations| ==> after[j].blockName == locations[j].blockName;
    assert FirstMatchAt(after, BlockNameOf, f.selectedBlock, i);
  }

  /** The form state of `AdminPanel`. */
  class AdminForms {
    var houseNumber: string
    var address: string
    var ownerName: string
    var selectedBlock: string
    var selectedPanchayat: string
    var availablePanchayats: seq<string>
    var username: string
    var password: string
    var role: Role
    var newBlockName: string
    var newPanchayatName: map<Id, string>

    function Forms(): FormState
      reads this
    {
      FormState(houseNumber, address, ownerName, selectedBlock, selectedPanchayat, availablePanchayats,
                username, password, role, newBlockName, newPanchayatName)
    }

    /** Empty forms; the role defaults to `Collector`. */
    constructor ()
      ensures Forms() == FormState("", "", "", "", "", [], "", "", Role.Collector, "", map[])
    {
      houseNumber, address, ownerName := "", "", "";
      selectedBlock, selectedPanchayat, availablePanchayats := "", "", [];
      username, password, role := "", "", Role.Collector;
      newBlockName, newPanchayatName := "", map[];
    }

    /** The effect at the head of the panel, run over the current location
        list. */
    method BlockEffect(locations: seq<AreaLocation>)
      modifies this
      ensures Forms() == AfterBlockEffect(old(Forms()), locations)
    {
      if selectedBlock != "" {
        availablePanchayats := PanchayatsOfBlock(locations, selectedBlock);
        selectedPanchayat := "";
      } else {
        availablePanchayats := [];
      }
    }

    /** Choosing a block, with the effect that follows it: the panchayat
        choices become those of the block and the chosen panchayat is
        cleared; with no block there are no choices. */
    method SelectBlock(block: string, locations: seq<AreaLocation>)
      modifies this
      ensures block != "" ==> Forms() == old(Forms()).(selectedBlock := block,
                availablePanchayats := PanchayatsOfBlock(locations, block), selectedPanchayat := "")
      ensures block == "" ==> Forms() == old(Forms()).(selectedBlock := block, availablePanchayats := [])
    {
      selectedBlock := block;
      BlockEffect(locations);
    }

    /** The five fields of the household form are cleared; with no block
        chosen, there are no panchayat choices either. */
    method ClearHouseholdForm()
      modifies this
      ensures Forms() == old(Forms()).(houseNumber := "", address := "", ownerName := "",
                selectedBlock := "", selectedPanchayat := "", availablePanchayats := [])
    {
      houseNumber, address, ownerName := "", "", "";
      selectedBlock, selectedPanchayat, availablePanchayats := "", "", [];
    }

    /** `handleAddHousehold`: rejected unless `HouseholdFormFilled`;
        otherwise the household `NewHousehold` makes of the form is added,
        and on success the five fields are cleared (and with no block there
        are no panchayat choices). */
    method HandleAddHousehold(store: Store, reply: Reply<Id>) returns (a: Attempt)
      modifies this, store
      ensures a == Rejected <==> !HouseholdFormFilled(old(Forms()))
      ensures a == Rejected ==> store.State() == old(store.State())
      ensures a == Written <==> a != Rejected && reply.Done?
      ensures a == Written ==> store.State() == old(store.State()).(
                households := old(store.households) + [NewHousehold(old(Forms())).(id := reply.value)])
      ensures a == Written ==> Forms() == old(Forms()).(houseNumber := "", address := "", ownerName := "",
                selectedBlock := "", selectedPanchayat := "", availablePanchayats := [])
      ensures a == WriteFailed ==> store.State() == old(store.State()).(
                error := Some(Describe(reply.fault, "Failed to add household")))
      ensures a != Written ==> Forms() == old(Forms())
    {
      if !HouseholdFormFilled(Forms()) {
        return Rejected;
      }
      var r := store.AddHousehold(NewHousehold(Forms()), reply);
      if r.Failed? {
        return WriteFailed;
      }
      ClearHouseholdForm();
      a := Written;
    }

    /** `handleAddUser`: rejected when the username or the password is
        empty; otherwise the user is added, and on success the form is
        cleared and the role goes back to `Collector`. */
    method HandleAddUser(store: Store, reply: Reply<Id>) returns (a: Attempt)
      modifies this, store
      ensures a == Rejected <==> old(username == "" || password == "")
      ensures a == Rejected ==> store.State() == old(store.State())
      ensures a == Written <==> a != Rejected && reply.Done?
      ensures a == Written ==> store.State() == old(store.State()).(users := old(store.users) + [
                User(reply.value, old(username), old(password), old(role))])
      ensures a == Written ==> Forms() == old(Forms()).(username := "", password := "", role := Role.Collector)
      ensures a == WriteFailed ==> store.State() == old(store.State()).(
                error := Some(Describe(reply.fault, "Failed to add user")))
      ensures a != Written ==> Forms() == old(Forms())
    {
      if username == "" || password == "" {
        return Rejected;
      }
      var r := store.AddUser(User("", username, password, role), reply);
      if r.Failed? {
        return WriteFailed;
      }
      username, password, role := "", "", Role.Collector;
      a := Written;
    }

    /** `handleAddBlock`: rejected for an empty trimmed name or a name taken
        ignoring case; otherwise a block with the trimmed name and no
        panchayats is added, and on success the input is cleared. */
    method HandleAddBlock(store: Store, reply: Reply<Id>) returns (a: Attempt)
      modifies this, store
      ensures a == Rejected <==> BlockRejected(old(store.locations), old(newBlockName))
      ensures a == Rejected ==> store.State() == old(store.State())
      ensures a == Written <==> a != Rejected && reply.Done?
      ensures a == Written ==> store.State() == old(store.State()).(locations := old(store.locations) + [
                AreaLocation(reply.value, Trim(old(newBlockName)), [])])
      ensures a == Written ==> Forms() == AfterBlockEffect(old(Forms()).(newBlockName := ""), store.locations)
      ensures a == WriteFailed ==> store.State() == old(store.State()).(
                error := Some(Describe(reply.fault, "Failed to add location")))
      ensures a != Written ==> Forms() == old(Forms())
    {
      if BlockRejected(store.locations, newBlockName) {
        return Rejected;
      }
      var r := store.AddLocation(AreaLocation("", Trim(newBlockName), []), reply);
      if r.Failed? {
        return WriteFailed;
      }
      newBlockName := "";
      BlockEffect(store.locations);
      a := Written;
    }

    /** `handleDeleteBlock`: rejected, with no store call, while a household
        is in the block; otherwise the location is deleted, and the block
        effect runs over the shortened list. */
    method HandleDeleteBlock(store: Store, blockId: Id, ack: Ack) returns (a: Attempt)
      modifies this, store
      ensures a == Rejected <==> BlockInUse(old(store.households), old(store.locations), blockId)
      ensures a == Rejected ==> store.State() == old(store.State())
      ensures a == Written <==> a != Rejected && ack.Done?
      ensures a == Written ==> store.State() == old(store.State()).(
                locations := Without(old(store.locations), LocationId, blockId))
      ensures a == Written ==> Forms() == AfterBlockEffect(old(Forms()), store.locations)
      ensures a == WriteFailed ==> store.State() == old(store.State()).(
                error := Some(Describe(ack.fault, "Failed to delete location")))
      ensures a != Written ==> Forms() == old(Forms())
    {
      if BlockInUse(store.households, store.locations, blockId) {
        return Rejected;
      }
      var r := store.DeleteLocation(blockId, ack);
      if r.Failed? {
        return WriteFailed;
      }
      BlockEffect(store.locations);
      a := Written;
    }

    /** `handleAddPanchayat`: rejected when `PanchayatsAfterAdd` gives
        nothing; otherwise the block's entry takes the new list, and on
        success the block's input is cleared. */
    method HandleAddPanchayat(store: Store, blockId: Id, ack: Ack) returns (a: Attempt)
      modifies this, store
      ensures a == Rejected <==> PanchayatsAfterAdd(old(store.locations), old(newPanchayatName), blockId).None?
      ensures a == Rejected ==> store.State() == old(store.State())
      ensures a == Written <==> a != Rejected && ack.Done?
      ensures a == Written ==> store.State() == old(store.State()).(locations := UpdateWhere(old(store.locations),
                LocationId, blockId, MergeLocation,
                PanchayatsPatch(PanchayatsAfterAdd(old(store.locations), old(newPanchayatName), blockId).value)))
      ensures a == Written ==> Forms() == AfterBlockEffect(
                old(Forms()).(newPanchayatName := old(newPanchayatName)[blockId := ""]), store.locations)
      ensures a == WriteFailed ==> store.State() == old(store.State()).(
                error := Some(Describe(ack.fault, "Failed to update location")))
      ensures a != Written ==> Forms() == old(Forms())
    {
      var ps := PanchayatsAfterAdd(store.locations, newPanchayatName, blockId);
      if ps.None? {
        return Rejected;
      }
      var r := store.UpdateLocation(blockId, PanchayatsPatch(ps.value), ack);
      if r.Failed? {
        return WriteFailed;
      }
      newPanchayatName := newPanchayatName[blockId := ""];
      BlockEffect(store.locations);
      a := Written;
    }

    /** `handleDeletePanchayat`: rejected, with no store call, when
        `PanchayatsAfterDelete` gives nothing; otherwise the block's entry
        takes the shortened list, and the block effect runs over the new
        location list. */
    method HandleDeletePanchayat(store: Store, blockId: Id, name: string, ack: Ack) returns (a: Attempt)
      modifies this, store
      ensures a == Rejected <==> PanchayatsAfterDelete(old(store.households), old(store.locations), blockId, name).None?
      ensures a == Rejected ==> store.State() == old(store.State())
      ensures a == Written <==> a != Rejected && ack.Done?
      ensures a == Written ==> store.State() == old(store.State()).(locations := UpdateWhere(old(store.locations),
                LocationId, blockId, MergeLocation,
                PanchayatsPatch(PanchayatsAfterDelete(old(store.households), old(store.locations), blockId, name).value)))
      ensures a == Written ==> Forms() == AfterBlockEffect(old(Forms()), store.locations)
      ensures a == WriteFailed ==> store.State() == old(store.State()).(
                error := Some(Describe(ack.fault, "Failed to update location")))
      ensures a != Written ==> Forms() == old(Forms())
    {
      var ps := PanchayatsAfterDelete(store.households, store.locations, blockId, name);
      if ps.None? {
        return Rejected;
      }
      var r := store.UpdateLocation(blockId, PanchayatsPatch(ps.value), ack);
      if r.Failed? {
        return WriteFailed;
      }
      BlockEffect(store.locations);
      a := Written;
    }
  }
}
