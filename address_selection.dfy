/**
 * The cascading region → province → city → barangay selection of the
 * address form (src/composables/usePhilippinesAddress.ts).
 *
 * The composable assigns fields in its setters and lets three watchers
 * clear the dependent fields when a parent field changed. A watcher runs
 * after the synchronous writes of the call that triggered it and compares
 * the field with the value it had when the watcher last ran, so a call's
 * effect is "write, then run the watchers against the state before the
 * call" (`RunWatchers`).
 */
module AddressSelection {
  import opened Wrappers
  import opened Records
  import opened AddressData

  /** The four selected codes; '' means nothing selected. */
  datatype Selection = Selection(region: string, province: string, city: string, barangay: string)

  const Empty := Selection("", "", "", "")

  /**
   * The three watchers, in the order they were registered, run after the
   * fields moved from `before` to `written`: a changed region clears
   * province, city and barangay; a changed province clears city and
   * barangay; a changed city clears the barangay.
   */
  function RunWatchers(before: Selection, written: Selection): (r: Selection)
    ensures r.region == written.region
    ensures written.region != before.region ==> r == Selection(written.region, "", "", "")
    ensures written.region == before.region && written.province != before.province ==>
      r == Selection(written.region, written.province, "", "")
    ensures (written.region == before.region && written.province == before.province
             && written.city != before.city) ==>
      r == Selection(written.region, written.province, written.city, "")
    ensures (written.region == before.region && written.province == before.province
             && written.city == before.city) ==> r == written
  {
    var afterRegion :=
      if written.region != before.region then written.(province := "", city := "", barangay := "")
      else written;
    var afterProvince :=
      if afterRegion.province != before.province then afterRegion.(city := "", barangay := "")
      else afterRegion;
    if afterProvince.city != before.city then afterProvince.(barangay := "") else afterProvince
  }

  /** setRegion followed by the watchers. */
  function SetRegionStep(s: Selection, code: string): (r: Selection)
    ensures r.region == code
    ensures code != s.region ==> r.province == "" && r.city == "" && r.barangay == ""
    ensures code == s.region ==> r == s
  {
    RunWatchers(s, s.(region := code))
  }

  /** setProvince followed by the watchers: the region is kept. */
  function SetProvinceStep(s: Selection, code: string): (r: Selection)
    ensures r.region == s.region && r.province == code
    ensures code != s.province ==> r.city == "" && r.barangay == ""
    ensures code == s.province ==> r == s
  {
    RunWatchers(s, s.(province := code))
  }

  /** setCity followed by the watchers: region and province are kept. */
  function SetCityStep(s: Selection, code: string): (r: Selection)
    ensures r.region == s.region && r.province == s.province && r.city == code
    ensures code != s.city ==> r.barangay == ""
    ensures code == s.city ==> r == s
  {
    RunWatchers(s, s.(city := code))
  }

  /** setBarangay: no watcher observes the barangay, so only it changes. */
  function SetBarangayStep(s: Selection, code: string): (r: Selection)
    ensures r == Selection(s.region, s.province, s.city, code)
  {
    RunWatchers(s, s.(barangay := code))
  }

  /** `value || ''` for an optional string. */
  function OrEmpty(v: Option<string>): (r: string)
    ensures v.Some? ==> r == v.value
    ensures v.None? ==> r == ""
  {
    match v
    case Some(x) => x
    case None => ""
  }

  /** The optional codes `setInitialValues` receives. */
  datatype InitialAddress = InitialAddress(
    region: Option<string>, province: Option<string>, city: Option<string>, barangay: Option<string>)

  /** setInitialValues: write all four fields, then let the watchers run once. */
  function SetInitialValuesStep(s: Selection, address: InitialAddress): (r: Selection)
    ensures r.region == OrEmpty(address.region)
  {
    RunWatchers(s, Selection(OrEmpty(address.region), OrEmpty(address.province),
                             OrEmpty(address.city), OrEmpty(address.barangay)))
  }

  /**
   * setInitialValues keeps all four given codes only when the region and
   * province equal the current ones (and the city too, for the barangay):
   * a new region drops the given province, city and barangay, a new
   * province drops city and barangay, a new city drops the barangay.
   */
  lemma {:induction false} SetInitialValuesOutcome(s: Selection, address: InitialAddress)
    ensures OrEmpty(address.region) != s.region ==>
      SetInitialValuesStep(s, address) == Selection(OrEmpty(address.region), "", "", "")
    ensures OrEmpty(address.region) == s.region && OrEmpty(address.province) != s.province ==>
      SetInitialValuesStep(s, address) == Selection(s.region, OrEmpty(address.province), "", "")
    ensures OrEmpty(address.region) == s.region && OrEmpty(address.province) == s.province ==>
      SetInitialValuesStep(s, address).region == s.region
      && SetInitialValuesStep(s, address).province == s.province
      && SetInitialValuesStep(s, address).city == OrEmpty(address.city)
    ensures (OrEmpty(address.region) == s.region && OrEmpty(address.province) == s.province
             && OrEmpty(address.city) != s.city) ==>
      SetInitialValuesStep(s, address).barangay == ""
    ensures (OrEmpty(address.region) == s.region && OrEmpty(address.province) == s.province
             && OrEmpty(address.city) == s.city) ==>
      SetInitialValuesStep(s, address).barangay == OrEmpty(address.barangay)
  {
    var written := Selection(OrEmpty(address.region), OrEmpty(address.province),
                             OrEmpty(address.city), OrEmpty(address.barangay));
    assert SetInitialValuesStep(s, address) == RunWatchers(s, written);
  }

  /** From the empty selection, a full address keeps only its region. */
  lemma InitialValuesFromEmpty(address: InitialAddress)
    requires OrEmpty(address.region) != ""
    ensures SetInitialValuesStep(Empty, address) == Selection(OrEmpty(address.region), "", "", "")
  {
    SetInitialValuesOutcome(Empty, address);
  }

  /** isValidSelection: all four codes are non-empty strings. */
  predicate IsValidSelection(s: Selection) {
    s.region != "" && s.province != "" && s.city != "" && s.barangay != ""
  }

  /** Changing region, province or city leaves no valid selection until a barangay is chosen again. */
  lemma {:induction false} ChangeInvalidates(s: Selection, code: string)
    ensures code != s.region ==> !IsValidSelection(SetRegionStep(s, code))
    ensures code != s.province ==> !IsValidSelection(SetProvinceStep(s, code))
    ensures code != s.city ==> !IsValidSelection(SetCityStep(s, code))
  {
    assert code != s.region ==> SetRegionStep(s, code).barangay == "";
    assert code != s.province ==> SetProvinceStep(s, code).barangay == "";
    assert code != s.city ==> SetCityStep(s, code).barangay == "";
  }

  /** Choosing region, province, city and barangay in order, each new, yields exactly that selection. */
  lemma {:induction false} SelectInOrder(s: Selection, region: string, province: string, city: string, barangay: string)
    requires region != s.region && province != "" && city != ""
    ensures SetBarangayStep(SetCityStep(SetProvinceStep(SetRegionStep(s, region), province), city), barangay)
         == Selection(region, province, city, barangay)
  {
    var s1 := SetRegionStep(s, region);
    assert s1 == Selection(region, "", "", "");
    var s2 := SetProvinceStep(s1, province);
    assert s2 == Selection(region, province, "", "");
    var s3 := SetCityStep(s2, city);
    assert s3 == Selection(region, province, city, "");
  }

  // ---------------------------------------------------------------------
  // Options, names and postal code read from a selection

  /** The provinces offered: none until a region is chosen. */
  function ProvinceOptions(s: Selection): (r: seq<AddressOption>)
    ensures s.region == "" ==> r == []
    ensures s.region != "" ==> r == GetProvinces(s.region)
  {
    if s.region == "" then [] else GetProvinces(s.region)
  }

  /** The cities offered: none until a province is chosen, then never empty. */
  function CityOptions(s: Selection): (r: seq<AddressOption>)
    ensures s.province == "" <==> r == []
    ensures s.province != "" && HasKey(Cities, s.province) ==> Lookup(Cities, s.province) == Some(r)
    ensures s.province != "" && !HasKey(Cities, s.province) ==>
      r == [AddressOption(s.province + "_MAIN", "Main City/Municipality", s.province + "_MAIN"),
            AddressOption(s.province + "_OTHER", "Other Municipality", s.province + "_OTHER")]
  {
    if s.province == "" then [] else GetCities(s.province)
  }

  /** The barangays offered: none until a city is chosen, then never empty. */
  function BarangayOptions(s: Selection): (r: seq<AddressOption>)
    ensures s.city == "" <==> r == []
    ensures s.city != "" && HasKey(Barangays, s.city) ==> Lookup(Barangays, s.city) == Some(r)
    ensures s.city != "" && !HasKey(Barangays, s.city) ==> r == DefaultBarangayOptions
  {
    if s.city == "" then [] else GetBarangays(s.city)
  }

  /** `findByCode(options, code)?.label || ''` for a chosen code, '' for none. */
  function OptionName(options: seq<AddressOption>, code: string): (r: string)
    ensures code == "" ==> r == ""
    ensures r != "" ==> exists i :: 0 <= i < |options| && options[i].code == code && options[i].labelText == r
    ensures code != "" && (forall i :: 0 <= i < |options| ==> options[i].code != code) ==> r == ""
    ensures forall i :: (0 <= i < |options| && code != "" && options[i].code == code
                         && forall j :: 0 <= j < i ==> options[j].code != code) ==> r == options[i].labelText
  {
    if code == "" then ""
    else
      match FindByCode(options, code)
      case Some(o) => if o.labelText != "" then o.labelText else ""
      case None => ""
  }

  /** The labels of the four selected codes. */
  datatype AddressNames = AddressNames(region: string, province: string, city: string, barangay: string)

  /**
   * getAddressNames: a name is shown only when its code and its parent's
   * code are chosen, since the options it is looked up in are empty otherwise.
   */
  function AddressNamesOf(s: Selection): (r: AddressNames)
    ensures s.region == "" ==> r.region == ""
    ensures s.region == "" || s.province == "" ==> r.province == ""
    ensures s.province == "" || s.city == "" ==> r.city == ""
    ensures s.city == "" || s.barangay == "" ==> r.barangay == ""
    ensures r.region == OptionName(Regions, s.region)
    ensures s.region != "" ==> r.province == OptionName(GetProvinces(s.region), s.province)
    ensures s.province != "" ==> r.city == OptionName(GetCities(s.province), s.city)
    ensures s.city != "" ==> r.barangay == OptionName(GetBarangays(s.city), s.barangay)
  {
    AddressNames(OptionName(Regions, s.region),
                 OptionName(ProvinceOptions(s), s.province),
                 OptionName(CityOptions(s), s.city),
                 OptionName(BarangayOptions(s), s.barangay))
  }

  /** getAddressPostalCode: '' without a barangay, otherwise the four-digit code or ''. */
  function PostalCodeOf(s: Selection): (r: string)
    ensures s.barangay == "" ==> r == ""
    ensures r == "" || |r| == 4
    ensures s.barangay != "" && HasKey(PostalCodes, s.barangay) ==> Lookup(PostalCodes, s.barangay) == Some(r)
    ensures s.barangay != "" && !HasKey(PostalCodes, s.barangay) ==> r == ""
  {
    if s.barangay == "" then "" else GetPostalCode(s.barangay)
  }

  // ---------------------------------------------------------------------
  // The composable's state

  class AddressSelector {
    var selected: Selection

    constructor ()
      ensures selected == Empty
    {
      selected := Empty;
    }

    method SetRegion(regionCode: string)
      modifies this
      ensures selected == SetRegionStep(old(selected), regionCode)
    {
      selected := RunWatchers(selected, selected.(region := regionCode));
    }

    method SetProvince(provinceCode: string)
      modifies this
      ensures selected == SetProvinceStep(old(selected), provinceCode)
    {
      selected := RunWatchers(selected, selected.(province := provinceCode));
    }

    method SetCity(cityCode: string)
      modifies this
      ensures selected == SetCityStep(old(selected), cityCode)
    {
      selected := RunWatchers(selected, selected.(city := cityCode));
    }

    method SetBarangay(barangayCode: string)
      modifies this
      ensures selected == SetBarangayStep(old(selected), barangayCode)
    {
      selected := RunWatchers(selected, selected.(barangay := barangayCode));
    }

    /** resetSelection: all four codes empty, so the selection is not valid. */
    method ResetSelection()
      modifies this
      ensures selected == Empty && !IsValidSelection(selected)
    {
      selected := Empty;
    }

    method SetInitialValues(address: InitialAddress)
      modifies this
      ensures selected == SetInitialValuesStep(old(selected), address)
    {
      var before := selected;
      selected := Selection(OrEmpty(address.region), OrEmpty(address.province),
                            OrEmpty(address.city), OrEmpty(address.barangay));
      selected := RunWatchers(before, selected);
    }

    function ProvincesOffered(): seq<AddressOption>
      reads this
    {
      ProvinceOptions(selected)
    }

    function CitiesOffered(): seq<AddressOption>
      reads this
    {
      CityOptions(selected)
    }

    function BarangaysOffered(): seq<AddressOption>
      reads this
    {
      BarangayOptions(selected)
    }

    function GetAddressNames(): AddressNames
      reads this
    {
      AddressNamesOf(selected)
    }

    function GetAddressCodes(): Selection
      reads this
    {
      selected
    }

    predicate IsValid()
      reads this
    {
      IsValidSelection(selected)
    }

    function GetAddressPostalCode(): string
      reads this
    {
      PostalCodeOf(selected)
    }
  }
}
