/**
 * The rules of the hospitals page: the two city lookups, the search filter
 * over the hospital list, and the manager-only gate in front of the delete,
 * add and edit handlers with the forms they fill in.
 *
 * Fields that may be absent are `Option`s; JavaScript's `||` picks the first
 * truthy operand, and a string is truthy when it is not empty. The API calls
 * behind the handlers, the toasts and the rendering are not modelled.
 */
module HospitalsPage {
  import opened Wrappers
  import opened Text
  import opened Sequences

  /** A row of the cities list. */
  datatype City = City(id: string, name: Option<string>)

  /** A hospital as the API returns it: current field names and their legacy fallbacks. */
  datatype Hospital = Hospital(
    hospName: Option<string>,
    name: Option<string>,
    hospPhone: Option<string>,
    phone: Option<string>,
    hospNeededBgrp: Option<string>,
    neededBloodGroup: Option<string>,
    cityId: Option<string>,
    city: Option<string>)

  /** A string value is truthy when it is present and not empty. */
  predicate Truthy(v: Option<string>) {
    v.Some? && v.value != ""
  }

  /** `a || b` on possibly absent strings. */
  function Or(a: Option<string>, b: Option<string>): (r: Option<string>)
    ensures Truthy(a) ==> r == a
    ensures !Truthy(a) ==> r == b
  {
    if Truthy(a) then a else b
  }

  // ---------------------------------------------------------------------------
  // City lookups

  /** The index of the first city with this id, or `|cities|` when none has it. */
  function IndexById(cities: seq<City>, id: string): (r: nat)
    ensures r <= |cities|
    ensures forall j :: 0 <= j < r ==> cities[j].id != id
    ensures r < |cities| ==> cities[r].id == id
  {
    if cities == [] then 0
    else if cities[0].id == id then 0
    else 1 + IndexById(cities[1..], id)
  }

  /** `cities.find(c => c.City_Id === id)`. */
  function FindById(cities: seq<City>, id: string): Option<City> {
    var i := IndexById(cities, id);
    if i < |cities| then Some(cities[i]) else None
  }

  /** `c.City_Name?.toLowerCase() === cityName.toLowerCase()`. */
  predicate NameMatches(c: City, cityName: string) {
    c.name.Some? && Lower(c.name.value) == Lower(cityName)
  }

  /** The index of the first city whose name matches, or `|cities|` when none does. */
  function IndexByName(cities: seq<City>, cityName: string): (r: nat)
    ensures r <= |cities|
    ensures forall j :: 0 <= j < r ==> !NameMatches(cities[j], cityName)
    ensures r < |cities| ==> NameMatches(cities[r], cityName)
  {
    if cities == [] then 0
    else if NameMatches(cities[0], cityName) then 0
    else 1 + IndexByName(cities[1..], cityName)
  }

  /** `cities.find(c => c.City_Name?.toLowerCase() === cityName.toLowerCase())`. */
  function FindByName(cities: seq<City>, cityName: string): Option<City> {
    var i := IndexByName(cities, cityName);
    if i < |cities| then Some(cities[i]) else None
  }

  /**
   * `getCityName`: `'N/A'` for a falsy id or an id no city has; otherwise the
   * name of the first city with that id, which may itself be absent.
   */
  function GetCityName(cities: seq<City>, cityId: Option<string>): (r: Option<string>)
    ensures !Truthy(cityId) ==> r == Some("N/A")
    ensures Truthy(cityId) && (forall i :: 0 <= i < |cities| ==> cities[i].id != cityId.value) ==> r == Some("N/A")
    ensures Truthy(cityId) && FindById(cities, cityId.value).Some? ==> r == FindById(cities, cityId.value).value.name
  {
    if !Truthy(cityId) then Some("N/A")
    else
      match FindById(cities, cityId.value)
      case None => Some("N/A")
      case Some(c) => c.name
  }

  /** `getCityIdByName`: `''` for a falsy name or no match; otherwise the id of the first city whose name matches ignoring case. */
  function GetCityIdByName(cities: seq<City>, cityName: Option<string>): (r: string)
    ensures !Truthy(cityName) ==> r == ""
    ensures Truthy(cityName) && (forall i :: 0 <= i < |cities| ==> !NameMatches(cities[i], cityName.value)) ==> r == ""
    ensures Truthy(cityName) && FindByName(cities, cityName.value).Some? ==> r == FindByName(cities, cityName.value).value.id
  {
    if !Truthy(cityName) then ""
    else
      match FindByName(cities, cityName.value)
      case None => ""
      case Some(c) => c.id
  }

  /** City ids are unique. */
  predicate UniqueIds(cities: seq<City>) {
    forall i, j :: 0 <= i < j < |cities| ==> cities[i].id != cities[j].id
  }

  /**
   * With unique, non-empty ids the two lookups agree: the id found for a
   * name leads back to a city whose name equals it ignoring case.
   */
  lemma CityLookupsRoundTrip(cities: seq<City>, cityName: string)
    requires UniqueIds(cities)
    requires forall i :: 0 <= i < |cities| ==> cities[i].id != ""
    requires cityName != "" && FindByName(cities, cityName).Some?
    ensures var n := GetCityName(cities, Some(GetCityIdByName(cities, Some(cityName))));
            n.Some? && Lower(n.value) == Lower(cityName)
  {
    var i := IndexByName(cities, cityName);
    var c := cities[i];
    assert IndexById(cities, c.id) == i;
  }

  // ---------------------------------------------------------------------------
  // Search filter

  /** `x?.toLowerCase().includes(term)`: an absent value never matches. */
  predicate Includes(x: Option<string>, term: string) {
    x.Some? && Contains(Lower(x.value), term)
  }

  /** The search predicate, with `term` already lower-cased. */
  predicate Matches(cities: seq<City>, h: Hospital, term: string) {
    Includes(Or(h.hospName, h.name), term) ||
    Includes(Or(h.hospPhone, h.phone), term) ||
    Includes(Or(h.hospNeededBgrp, h.neededBloodGroup), term) ||
    Includes(GetCityName(cities, h.cityId), term) ||
    Includes(h.city, term)
  }

  function Matcher(cities: seq<City>, term: string): Hospital -> bool {
    h => Matches(cities, h, term)
  }

  /**
   * `filteredHospitals`: a hospital is kept exactly when the lower-cased
   * search term occurs in one of its searchable fields; the list keeps its
   * order, so the count shown is at most the total.
   */
  function FilteredHospitals(hospitals: seq<Hospital>, cities: seq<City>, searchTerm: string): (r: seq<Hospital>)
    ensures forall h :: h in r <==> h in hospitals && Matches(cities, h, Lower(searchTerm))
    ensures forall h :: h in hospitals ==>
              multiset(r)[h] == if Matches(cities, h, Lower(searchTerm)) then multiset(hospitals)[h] else 0
    ensures IsSubsequence(r, hospitals)
    ensures |r| <= |hospitals|
  {
    var p := Matcher(cities, Lower(searchTerm));
    var kept := Filter(hospitals, p);
    forall h ensures h in kept <==> h in hospitals && Matches(cities, h, Lower(searchTerm)) {
      FilterMembership(hospitals, p, h);
    }
    forall h | h in hospitals
      ensures multiset(kept)[h] == if Matches(cities, h, Lower(searchTerm)) then multiset(hospitals)[h] else 0
    {
      FilterCount(hospitals, p, h);
    }
    FilterIsSubsequence(hospitals, p);
    kept
  }

  /**
   * An empty search keeps every hospital when every city has a name, since
   * `getCityName` then always yields a string and every string contains `''`.
   */
  lemma EmptySearchKeepsAll(hospitals: seq<Hospital>, cities: seq<City>)
    requires forall i :: 0 <= i < |cities| ==> cities[i].name.Some?
    ensures FilteredHospitals(hospitals, cities, "") == hospitals
  {
    assert Lower("") == "";
    forall i | 0 <= i < |hospitals|
      ensures Matcher(cities, "")(hospitals[i])
    {
      var n := GetCityName(cities, hospitals[i].cityId);
      assert n.Some?;
      ContainsEmpty(Lower(n.value));
    }
    FilterAll(hospitals, Matcher(cities, ""));
  }

  /** A city without a name breaks that: a hospital whose only link is that city is hidden even by an empty search. */
  lemma EmptySearchCanHideUnnamedCity()
    ensures var h := Hospital(None, None, None, None, None, None, Some("c1"), None);
            FilteredHospitals([h], [City("c1", None)], "") == []
  {
  }

  // ---------------------------------------------------------------------------
  // Handlers and forms

  /** The hospital form; the edit form sets only four of its keys. */
  datatype Form = Form(
    hospName: string,
    hospPhone: string,
    hospNeededBgrp: string,
    cityId: string,
    email: Option<string>,
    password: Option<string>,
    isApproved: Option<bool>)

  /** The page state the handlers set. */
  datatype PageState = PageState(editing: Option<Hospital>, form: Form, showModal: bool)

  /** What a handler does: warn and stop, or go on and (for delete) call the API. */
  datatype Outcome = Outcome(state: PageState, warning: Option<string>, callsApi: bool)

  /** `user?.role === 'manager'`, with an absent user or role as `None`. */
  predicate IsManager(role: Option<string>) {
    role == Some("manager")
  }

  /** The blank add form: empty fields, `isApproved` true. */
  const BlankForm: Form := Form("", "", "", "", Some(""), Some(""), Some(true))

  /** `handleDelete`: a non-manager gets a warning and no API call. */
  function HandleDelete(role: Option<string>, s: PageState): (r: Outcome)
    ensures !IsManager(role) ==> r == Outcome(s, Some("Only managers can delete hospitals"), false)
    ensures IsManager(role) ==> r.warning.None? && r.callsApi && r.state == s
  {
    if !IsManager(role) then Outcome(s, Some("Only managers can delete hospitals"), false)
    else Outcome(s, None, true)
  }

  /** `handleAddClick`: a manager gets the blank form in a fresh modal. */
  function HandleAddClick(role: Option<string>, s: PageState): (r: Outcome)
    ensures !IsManager(role) ==> r == Outcome(s, Some("Only managers can add hospitals"), false)
    ensures IsManager(role) ==> r.warning.None? && !r.callsApi &&
                                r.state == PageState(None, BlankForm, true)
  {
    if !IsManager(role) then Outcome(s, Some("Only managers can add hospitals"), false)
    else Outcome(PageState(None, BlankForm, true), None, false)
  }

  /** The form `handleEditClick` fills in from a hospital; the other keys are dropped. */
  function EditForm(cities: seq<City>, h: Hospital): (r: Form)
    ensures r.email.None? && r.password.None? && r.isApproved.None?
    ensures r.hospName == if Truthy(h.hospName) then h.hospName.value else if Truthy(h.name) then h.name.value else ""
    ensures r.hospPhone == if Truthy(h.hospPhone) then h.hospPhone.value else if Truthy(h.phone) then h.phone.value else ""
    ensures r.hospNeededBgrp == if Truthy(h.hospNeededBgrp) then h.hospNeededBgrp.value
                                else if Truthy(h.neededBloodGroup) then h.neededBloodGroup.value else ""
    ensures Truthy(h.cityId) ==> r.cityId == h.cityId.value
    ensures !Truthy(h.cityId) ==> r.cityId == GetCityIdByName(cities, h.city)
  {
    Form(Or(Or(h.hospName, h.name), Some("")).GetOr(""),
         Or(Or(h.hospPhone, h.phone), Some("")).GetOr(""),
         Or(Or(h.hospNeededBgrp, h.neededBloodGroup), Some("")).GetOr(""),
         if Truthy(h.cityId) then h.cityId.value else GetCityIdByName(cities, h.city),
         None, None, None)
  }

  /** `handleEditClick`: a manager edits the hospital in the modal. */
  function HandleEditClick(role: Option<string>, cities: seq<City>, h: Hospital, s: PageState): (r: Outcome)
    ensures !IsManager(role) ==> r == Outcome(s, Some("Only managers can edit hospitals"), false)
    ensures IsManager(role) ==> r.warning.None? && !r.callsApi &&
                                r.state == PageState(Some(h), EditForm(cities, h), true)
  {
    if !IsManager(role) then Outcome(s, Some("Only managers can edit hospitals"), false)
    else Outcome(PageState(Some(h), EditForm(cities, h), true), None, false)
  }

  /**
   * Each text field of the edit form is blank exactly when the hospital has
   * neither the current nor the legacy key, and a non-blank one is copied
   * from one of those two keys.
   */
  lemma EditFormFieldsPresent(cities: seq<City>, h: Hospital)
    ensures var f := EditForm(cities, h);
            (f.hospName != "" <==> Truthy(h.hospName) || Truthy(h.name)) &&
            (f.hospPhone != "" <==> Truthy(h.hospPhone) || Truthy(h.phone)) &&
            (f.hospNeededBgrp != "" <==> Truthy(h.hospNeededBgrp) || Truthy(h.neededBloodGroup)) &&
            (f.hospName != "" ==> Some(f.hospName) in [h.hospName, h.name]) &&
            (f.hospPhone != "" ==> Some(f.hospPhone) in [h.hospPhone, h.phone]) &&
            (f.hospNeededBgrp != "" ==> Some(f.hospNeededBgrp) in [h.hospNeededBgrp, h.neededBloodGroup])
  {
  }
}
