/** The household edit dialog: a copy of the household that the form fields
    change one at a time, the panchayat choices of the chosen block, and a
    submit that hands the copy on. */
module EditHousehold {
  import opened Common
  import opened Types
  import opened Lists

  /** The panchayat choices for a block, as both household forms compute
      them: those of the first location carrying that block name; none when
      no block is chosen or no location carries the name. */
  function PanchayatsOfBlock(locations: seq<AreaLocation>, block: string): (ps: seq<string>)
    ensures block == [] ==> ps == []
    ensures (forall l :: l in locations ==> l.blockName != block) ==> ps == []
    ensures block != [] ==> forall i :: FirstMatchAt(locations, BlockNameOf, block, i) ==> ps == locations[i].panchayats
  {
    if block == [] then []
    else
      match Find(locations, BlockNameOf, block)
      case None => []
      case Some(l) => l.panchayats
  }

  /** The text inputs and selects of the form, by their `name` attribute. */
  datatype FormField = HouseNumberField | AddressField | OwnerNameField | BlockField | PanchayatField

  function FieldValue(h: Household, f: FormField): string
  {
    match f
    case HouseNumberField => h.houseNumber
    case AddressField => h.address
    case OwnerNameField => h.ownerName
    case BlockField => h.block
    case PanchayatField => h.panchayat
  }

  /** `{ ...prev, [name]: value }`: the named field takes the value, every
      other field, the id and the status stay. */
  function SetField(h: Household, f: FormField, v: string): (r: Household)
    ensures FieldValue(r, f) == v
    ensures forall g :: g != f ==> FieldValue(r, g) == FieldValue(h, g)
    ensures r.id == h.id && r.status == h.status
  {
    match f
    case HouseNumberField => h.(houseNumber := v)
    case AddressField => h.(address := v)
    case OwnerNameField => h.(ownerName := v)
    case BlockField => h.(block := v)
    case PanchayatField => h.(panchayat := v)
  }

  class EditHouseholdModal {
    var formData: Household
    var availablePanchayats: seq<string>

    /** Opens on a copy of the household; the block effect fills the choices. */
    constructor (household: Household, locations: seq<AreaLocation>)
      ensures formData == household
      ensures availablePanchayats == PanchayatsOfBlock(locations, household.block)
    {
      formData := household;
      availablePanchayats := PanchayatsOfBlock(locations, household.block);
    }

    /** The effect on a new `household` prop: the form starts over from it. */
    method OnHouseholdChange(household: Household, locations: seq<AreaLocation>)
      modifies this
      ensures formData == household
      ensures availablePanchayats == PanchayatsOfBlock(locations, household.block)
    {
      formData := household;
      availablePanchayats := PanchayatsOfBlock(locations, formData.block);
    }

    /** `handleChange`: sets the named field; choosing a block also clears
        the panchayat, and the choices follow the block. */
    method HandleChange(f: FormField, v: string, locations: seq<AreaLocation>)
      modifies this
      ensures FieldValue(formData, f) == v
      ensures f == BlockField ==> formData.panchayat == ""
      ensures forall g :: g != f && !(f == BlockField && g == PanchayatField)
                ==> FieldValue(formData, g) == FieldValue(old(formData), g)
      ensures formData.id == old(formData).id && formData.status == old(formData).status
      ensures availablePanchayats == PanchayatsOfBlock(locations, formData.block)
    {
      formData := SetField(formData, f, v);
      if f == BlockField {
        formData := formData.(panchayat := "");
      }
      availablePanchayats := PanchayatsOfBlock(locations, formData.block);
    }

    /** `handleSubmit`: the form's copy, exactly as it stands, goes to `onSave`. */
    method HandleSubmit() returns (saved: Household)
      ensures saved == formData
    {
      saved := formData;
    }
  }
}
