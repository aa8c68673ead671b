/**
 * The catalog panel (frontend/src/components/PlanetSelector.tsx): search
 * filtering, adding and removing selected planets under the six-planet cap,
 * and the custom-planet form with its two validation passes.
 */
module PlanetSelector {
  import opened Wrappers
  import opened Seqs
  import opened Catalog
  import opened App

  /** The display cap on simultaneously selected planets. */
  const MaxSelected: nat := 6

  // ---------------------------------------------------------------------
  // Search
  // ---------------------------------------------------------------------

  /** `toLowerCase` on one character (ASCII letters only). */
  function LowerChar(c: char): (r: char)
    ensures 'A' <= c <= 'Z' ==> r as int == c as int + 32
    ensures !('A' <= c <= 'Z') ==> r == c
  {
    if 'A' <= c <= 'Z' then (c as int + 32) as char else c
  }

  function ToLower(s: string): (r: string)
    ensures |r| == |s|
    ensures forall i :: 0 <= i < |s| ==> r[i] == LowerChar(s[i])
  {
    if s == [] then [] else [LowerChar(s[0])] + ToLower(s[1..])
  }

  /** `sub` occurs in `s` starting at position `k`. */
  ghost predicate OccursAt(s: string, sub: string, k: int)
  {
    0 <= k && k + |sub| <= |s| && s[k..k + |sub|] == sub
  }

  /** `s.includes(sub)`, written as a scan over the start positions. */
  function Includes(s: string, sub: string): (b: bool)
    ensures b <==> exists k :: OccursAt(s, sub, k)
    decreases |s|
  {
    if |sub| > |s| then false
    else if s[..|sub|] == sub then assert OccursAt(s, sub, 0); true
    else
      var rest := Includes(s[1..], sub);
      assert forall k :: OccursAt(s[1..], sub, k) <==> OccursAt(s, sub, k + 1) by {
        forall k ensures OccursAt(s[1..], sub, k) <==> OccursAt(s, sub, k + 1) {
          if 0 <= k && k + |sub| <= |s| - 1 {
            assert s[1..][k..k + |sub|] == s[k + 1..k + 1 + |sub|];
          }
        }
      }
      assert (exists k :: OccursAt(s, sub, k)) ==> exists k :: OccursAt(s[1..], sub, k) by {
        if exists k :: OccursAt(s, sub, k) {
          var k :| OccursAt(s, sub, k);
          assert k != 0;
          assert OccursAt(s[1..], sub, k - 1);
        }
      }
      rest
  }

  /** The search predicate: the lowercased term occurs in the lowercased display name
      or in the lowercased catalog id. */
  predicate MatchesSearch(item: ListItem, term: string)
  {
    var search := ToLower(term);
    Includes(ToLower(DisplayName(item.kepler_name, item.kepoi_name)), search)
    || Includes(ToLower(item.kepoi_name), search)
  }

  /** `filteredPlanets`: the listing restricted to matching items, order kept. */
  function FilterPlanets(all: seq<ListItem>, term: string): (r: seq<ListItem>)
    ensures |r| <= |all|
    ensures forall i :: 0 <= i < |r| ==> r[i] in all && MatchesSearch(r[i], term)
    ensures forall i :: 0 <= i < |all| && MatchesSearch(all[i], term) ==> all[i] in r
  {
    Filter(all, (item: ListItem) => MatchesSearch(item, term))
  }

  /** An empty search term keeps the whole listing, in order. */
  lemma EmptySearchKeepsAll(all: seq<ListItem>)
    ensures FilterPlanets(all, "") == all
  {
    forall i | 0 <= i < |all| ensures MatchesSearch(all[i], "") {
      var name := ToLower(DisplayName(all[i].kepler_name, all[i].kepoi_name));
      assert OccursAt(name, ToLower(""), 0);
    }
    FilterKeepsAll(all, (item: ListItem) => MatchesSearch(item, ""));
  }

  /** Search is case-insensitive: changing the case of ASCII letters in the term
      changes nothing. */
  lemma SearchIgnoresTermCase(all: seq<ListItem>, t1: string, t2: string)
    requires ToLower(t1) == ToLower(t2)
    ensures FilterPlanets(all, t1) == FilterPlanets(all, t2)
  {
    FilterAgreeing(all, (item: ListItem) => MatchesSearch(item, t1), (item: ListItem) => MatchesSearch(item, t2));
  }

  // ---------------------------------------------------------------------
  // Selection
  // ---------------------------------------------------------------------

  /** `isSelected`: some selected planet has the id. */
  predicate IsSelected(selected: seq<SelectedPlanet>, id: string)
  {
    exists i :: 0 <= i < |selected| && selected[i].details.kepoi_name == id
  }

  /** `canAdd`, which enables a listing row's add button. */
  predicate CanAdd(selected: seq<SelectedPlanet>, id: string)
  {
    !IsSelected(selected, id) && |selected| < MaxSelected
  }

  /** The selection the source keeps: at most six planets, no id twice. */
  ghost predicate ValidSelection(selected: seq<SelectedPlanet>)
  {
    |selected| <= MaxSelected
    && forall i, j :: 0 <= i < j < |selected| ==> selected[i].details.kepoi_name != selected[j].details.kepoi_name
  }

  /** `selectedPlanets.filter(p => p.kepoi_name !== id)`. */
  function WithoutPlanet(selected: seq<SelectedPlanet>, id: string): (r: seq<SelectedPlanet>)
    ensures !IsSelected(r, id)
    ensures forall i :: 0 <= i < |selected| && selected[i].details.kepoi_name != id ==> selected[i] in r
    ensures forall i :: 0 <= i < |r| ==> r[i] in selected
    ensures |r| <= |selected|
  {
    Filter(selected, (p: SelectedPlanet) => p.details.kepoi_name != id)
  }

  /** Removing keeps the others' relative order: removal commutes with concatenation,
      so the planets before and after a removed one stay before and after. */
  lemma RemovalKeepsOrder(a: seq<SelectedPlanet>, b: seq<SelectedPlanet>, id: string)
    ensures WithoutPlanet(a + b, id) == WithoutPlanet(a, id) + WithoutPlanet(b, id)
  {
    FilterConcat(a, b, (p: SelectedPlanet) => p.details.kepoi_name != id);
  }

  /** Removing an id that is not selected changes nothing. */
  lemma RemovingUnselectedIsNoOp(selected: seq<SelectedPlanet>, id: string)
    requires !IsSelected(selected, id)
    ensures WithoutPlanet(selected, id) == selected
  {
    FilterKeepsAll(selected, (p: SelectedPlanet) => p.details.kepoi_name != id);
  }

  /** Removal keeps the selection valid. */
  lemma RemovalKeepsSelectionValid(selected: seq<SelectedPlanet>, id: string)
    requires ValidSelection(selected)
    ensures ValidSelection(WithoutPlanet(selected, id))
  {
    var keep := (p: SelectedPlanet) => p.details.kepoi_name != id;
    var ids := seq(|selected|, i requires 0 <= i < |selected| => selected[i].details.kepoi_name);
    var r := WithoutPlanet(selected, id);
    assert Distinct(selected) by {
      forall i, j | 0 <= i < j < |selected| ensures selected[i] != selected[j] {
        assert ids[i] != ids[j];
      }
    }
    FilterDistinct(selected, keep);
    forall i, j | 0 <= i < j < |r| ensures r[i].details.kepoi_name != r[j].details.kepoi_name {
      var a :| 0 <= a < |selected| && selected[a] == r[i];
      var b :| 0 <= b < |selected| && selected[b] == r[j];
      assert r[i] != r[j];
      assert a != b;
    }
  }

  // ---------------------------------------------------------------------
  // The custom-planet form
  // ---------------------------------------------------------------------

  datatype FormField =
    KeplerName | OrbitalPeriod | PlanetRadius | StellarRadius | OrbitalRadius | Temperature | StellarTemperature

  /** The form holds the raw text of each input. */
  datatype CustomForm = CustomForm(
    kepler_name: string,
    orbital_period: string,
    planet_radius: string,
    stellar_radius: string,
    orbital_radius: string,
    temperature: string,
    stellar_temperature: string)

  const EmptyForm: CustomForm := CustomForm("", "", "", "", "", "", "")

  /** The six required fields, in the order the source lists them. */
  const RequiredFields: seq<FormField> :=
    [OrbitalPeriod, PlanetRadius, StellarRadius, OrbitalRadius, Temperature, StellarTemperature]

  function FieldText(form: CustomForm, f: FormField): string
  {
    match f
    case KeplerName => form.kepler_name
    case OrbitalPeriod => form.orbital_period
    case PlanetRadius => form.planet_radius
    case StellarRadius => form.stellar_radius
    case OrbitalRadius => form.orbital_radius
    case Temperature => form.temperature
    case StellarTemperature => form.stellar_temperature
  }

  /** `handleFormChange`: one field replaced, the others kept. */
  function WithField(form: CustomForm, f: FormField, value: string): (r: CustomForm)
    ensures FieldText(r, f) == value
    ensures forall g :: g != f ==> FieldText(r, g) == FieldText(form, g)
  {
    match f
    case KeplerName => form.(kepler_name := value)
    case OrbitalPeriod => form.(orbital_period := value)
    case PlanetRadius => form.(planet_radius := value)
    case StellarRadius => form.(stellar_radius := value)
    case OrbitalRadius => form.(orbital_radius := value)
    case Temperature => form.(temperature := value)
    case StellarTemperature => form.(stellar_temperature := value)
  }

  /** What `parseFloat` yields; its parsing of text is a host routine passed in as `parse`.
      Infinite results are not represented. */
  datatype ParsedNumber = NaN | Number(x: real)

  /** Parsed values of the six required fields. */
  datatype NumericValues = NumericValues(
    orbital_period: real,
    planet_radius: real,
    stellar_radius: real,
    orbital_radius: real,
    temperature: real,
    stellar_temperature: real)

  datatype Rejection = MissingFields(missing: seq<FormField>) | InvalidNumbers(invalid: seq<FormField>)

  predicate IsInvalid(n: ParsedNumber)
  {
    n.NaN? || n.x <= 0.0
  }

  /** The two validation passes: empty required fields first, then values that are
      NaN or not positive. Each reported list keeps the source's field order. */
  function ValidateForm(form: CustomForm, parse: string -> ParsedNumber): Result<NumericValues, Rejection>
  {
    var missing := EmptyRequired(form);
    if |missing| > 0 then
      Failure(MissingFields(missing))
    else
      var invalid := InvalidRequired(form, parse);
      if |invalid| > 0 then
        Failure(InvalidNumbers(invalid))
      else
        Success(NumericValues(
          parse(form.orbital_period).x,
          parse(form.planet_radius).x,
          parse(form.stellar_radius).x,
          parse(form.orbital_radius).x,
          parse(form.temperature).x,
          parse(form.stellar_temperature).x))
  }

  /** The first pass: the required fields left empty. */
  function EmptyRequired(form: CustomForm): seq<FormField>
  {
    Filter(RequiredFields, IsEmptyField(form))
  }

  function IsEmptyField(form: CustomForm): FormField -> bool
  {
    (f: FormField) => FieldText(form, f) == ""
  }

  /** The second pass: the required fields whose value is NaN or not positive. */
  function InvalidRequired(form: CustomForm, parse: string -> ParsedNumber): seq<FormField>
  {
    Filter(RequiredFields, IsInvalidField(form, parse))
  }

  function IsInvalidField(form: CustomForm, parse: string -> ParsedNumber): FormField -> bool
  {
    (f: FormField) => IsInvalid(parse(FieldText(form, f)))
  }

  /** Filtering the required fields keeps exactly the ones the test accepts, and keeps
      one exactly when the test accepts some required field. */
  lemma FilterRequired(keep: FormField -> bool)
    ensures forall f :: f in Filter(RequiredFields, keep) <==> f in RequiredFields && keep(f)
    ensures |Filter(RequiredFields, keep)| > 0 <==>
              keep(OrbitalPeriod) || keep(PlanetRadius) || keep(StellarRadius)
              || keep(OrbitalRadius) || keep(Temperature) || keep(StellarTemperature)
  {
    var fs := Filter(RequiredFields, keep);
    assert RequiredFields[0] == OrbitalPeriod && RequiredFields[1] == PlanetRadius;
    assert RequiredFields[2] == StellarRadius && RequiredFields[3] == OrbitalRadius;
    assert RequiredFields[4] == Temperature && RequiredFields[5] == StellarTemperature;
    if keep(OrbitalPeriod) {
      assert RequiredFields[0] in fs;
    } else if keep(PlanetRadius) {
      assert RequiredFields[1] in fs;
    } else if keep(StellarRadius) {
      assert RequiredFields[2] in fs;
    } else if keep(OrbitalRadius) {
      assert RequiredFields[3] in fs;
    } else if keep(Temperature) {
      assert RequiredFields[4] in fs;
    } else if keep(StellarTemperature) {
      assert RequiredFields[5] in fs;
    }
  }

  /** The first pass names exactly the empty required fields, and finds one exactly when
      some required field is empty. */
  lemma EmptyRequiredSpec(form: CustomForm)
    ensures forall f :: f in EmptyRequired(form) <==> f in RequiredFields && FieldText(form, f) == ""
    ensures |EmptyRequired(form)| > 0 <==> !AllRequiredFilled(form)
  {
    var keep := IsEmptyField(form);
    assert forall f :: keep(f) == (FieldText(form, f) == "");
    FilterRequired(keep);
  }

  /** The second pass names exactly the invalid required fields, and finds one exactly
      when some required field is invalid. */
  lemma InvalidRequiredSpec(form: CustomForm, parse: string -> ParsedNumber)
    ensures forall f :: f in InvalidRequired(form, parse) <==>
                          f in RequiredFields && IsInvalid(parse(FieldText(form, f)))
    ensures |InvalidRequired(form, parse)| > 0 <==> !AllRequiredPositive(form, parse)
  {
    var keep := IsInvalidField(form, parse);
    assert forall f :: keep(f) == IsInvalid(parse(FieldText(form, f)));
    FilterRequired(keep);
  }

  /** Every required field is filled in. */
  predicate AllRequiredFilled(form: CustomForm)
  {
    && form.orbital_period != "" && form.planet_radius != "" && form.stellar_radius != ""
    && form.orbital_radius != "" && form.temperature != "" && form.stellar_temperature != ""
  }

  /** Every required field parses to a positive number. */
  predicate AllRequiredPositive(form: CustomForm, parse: string -> ParsedNumber)
  {
    && !IsInvalid(parse(form.orbital_period)) && !IsInvalid(parse(form.planet_radius))
    && !IsInvalid(parse(form.stellar_radius)) && !IsInvalid(parse(form.orbital_radius))
    && !IsInvalid(parse(form.temperature)) && !IsInvalid(parse(form.stellar_temperature))
  }

  /** The validation rejects a form with an empty required field, naming exactly the
      empty ones; it then rejects one with a NaN or non-positive value, naming exactly
      those; it accepts every other form, returning the parsed values. The optional
      name is never checked. */
  lemma ValidateFormSpec(form: CustomForm, parse: string -> ParsedNumber)
    ensures var r := ValidateForm(form, parse);
      && (r.Failure? && r.error.MissingFields? <==> !AllRequiredFilled(form))
      && (r.Failure? && r.error.MissingFields? ==>
            forall f :: f in r.error.missing <==> f in RequiredFields && FieldText(form, f) == "")
      && (r.Failure? && r.error.InvalidNumbers? <==> AllRequiredFilled(form) && !AllRequiredPositive(form, parse))
      && (r.Failure? && r.error.InvalidNumbers? ==>
            forall f :: f in r.error.invalid <==> f in RequiredFields && IsInvalid(parse(FieldText(form, f))))
      && (r.Success? <==> AllRequiredFilled(form) && AllRequiredPositive(form, parse))
      && (r.Success? ==>
            && parse(form.orbital_period) == Number(r.value.orbital_period)
            && parse(form.planet_radius) == Number(r.value.planet_radius)
            && parse(form.stellar_radius) == Number(r.value.stellar_radius)
            && parse(form.orbital_radius) == Number(r.value.orbital_radius)
            && parse(form.temperature) == Number(r.value.temperature)
            && parse(form.stellar_temperature) == Number(r.value.stellar_temperature))
  {
    EmptyRequiredSpec(form);
    InvalidRequiredSpec(form, parse);
  }

  /** The record a valid submission stores: an empty name becomes `null`. */
  function CustomDetails(id: string, form: CustomForm, v: NumericValues): (d: Details)
    ensures d.kepoi_name == id
    ensures d.kepler_name == (if form.kepler_name == "" then None else Some(form.kepler_name))
    ensures d.stellar_temperature == Some(v.stellar_temperature)
    ensures d.orbital_period == v.orbital_period && d.planet_radius == v.planet_radius
    ensures d.stellar_radius == v.stellar_radius && d.orbital_radius == v.orbital_radius
    ensures d.temperature == v.temperature
  {
    Details(id, if form.kepler_name == "" then None else Some(form.kepler_name),
            v.orbital_period, v.planet_radius, v.stellar_radius, v.orbital_radius,
            v.temperature, Some(v.stellar_temperature))
  }

  /** `{...details, color: temperatureToPlanetColor(details.temperature)}`. */
  function WithPlanetColor(d: Details): (p: SelectedPlanet)
    ensures p.details == d && p.color == TemperatureToPlanetColor(d.temperature)
  {
    SelectedPlanet(d, TemperatureToPlanetColor(d.temperature))
  }

  /** The panel's own state, with the root state and the custom store it shares. */
  class Selector {
    const app: AppState
    const store: CustomStore
    var allPlanets: seq<ListItem>
    var loading: bool
    var searchTerm: string
    var addingPlanet: Option<string>
    var showAddDialog: bool
    var customPlanetForm: CustomForm

    constructor (app: AppState, store: CustomStore)
      ensures this.app == app && this.store == store
      ensures allPlanets == [] && loading && searchTerm == ""
      ensures addingPlanet.None? && !showAddDialog && customPlanetForm == EmptyForm
    {
      this.app := app;
      this.store := store;
      allPlanets := [];
      loading := true;
      searchTerm := "";
      addingPlanet := None;
      showAddDialog := false;
      customPlanetForm := EmptyForm;
    }

    /** `loadPlanets`, with the fetch completed at once. */
    method LoadPlanets()
      modifies this
      ensures allPlanets == store.ListPlanets() && !loading
      ensures searchTerm == old(searchTerm) && customPlanetForm == old(customPlanetForm)
      ensures addingPlanet == old(addingPlanet) && showAddDialog == old(showAddDialog)
    {
      allPlanets := store.ListPlanets();
      loading := false;
    }

    function FilteredPlanets(): seq<ListItem>
      reads this
    {
      FilterPlanets(allPlanets, searchTerm)
    }

    method SetSearchTerm(term: string)
      modifies this`searchTerm
      ensures searchTerm == term
    {
      searchTerm := term;
    }

    /** `addPlanet`: a no-op for a selected id or a full selection; otherwise the
        looked-up record, if any, is appended with its planet colour. */
    method AddPlanet(item: ListItem)
      requires store.Valid()
      modifies this`addingPlanet, app`selectedPlanets
      ensures !CanAdd(old(app.selectedPlanets), item.kepoi_name) ==> app.selectedPlanets == old(app.selectedPlanets)
      ensures CanAdd(old(app.selectedPlanets), item.kepoi_name) ==>
                app.selectedPlanets == old(app.selectedPlanets) +
                  (match store.FetchDetails(item.kepoi_name)
                   case Some(d) => [WithPlanetColor(d)]
                   case None => [])
      ensures addingPlanet.None? || addingPlanet == old(addingPlanet)
      ensures ValidSelection(old(app.selectedPlanets)) ==> ValidSelection(app.selectedPlanets)
    {
      if IsSelected(app.selectedPlanets, item.kepoi_name) || |app.selectedPlanets| >= MaxSelected {
        return;
      }
      addingPlanet := Some(item.kepoi_name);
      var details := store.FetchDetails(item.kepoi_name);
      if details.Some? {
        app.selectedPlanets := app.selectedPlanets + [WithPlanetColor(details.value)];
      }
      addingPlanet := None;
    }

    /** `removePlanet`. */
    method RemovePlanet(id: string)
      modifies app`selectedPlanets
      ensures app.selectedPlanets == WithoutPlanet(old(app.selectedPlanets), id)
    {
      app.selectedPlanets := WithoutPlanet(app.selectedPlanets, id);
    }

    /** The remove button of a selected row: focus is cleared first when that planet
        is the focused one, then the planet is removed. */
    method RemoveButtonClicked(id: string)
      modifies app
      ensures app.selectedPlanets == WithoutPlanet(old(app.selectedPlanets), id)
      ensures old(app.focusedPlanet) == Some(id) ==>
                app.focusedPlanet.None? && app.selectedKepoiName.None? && app.showPopover
      ensures old(app.focusedPlanet) != Some(id) ==>
                app.focusedPlanet == old(app.focusedPlanet) && app.selectedKepoiName == old(app.selectedKepoiName)
                && app.showPopover == old(app.showPopover)
    {
      if app.focusedPlanet == Some(id) {
        app.HandlePlanetFocus(None);
      }
      RemovePlanet(id);
    }

    /** Clicking a selected row focuses its planet. */
    method SelectedPlanetClicked(id: string)
      modifies app
      ensures app.focusedPlanet == Some(id) && app.selectedKepoiName == Some(id) && app.showPopover
      ensures app.selectedPlanets == old(app.selectedPlanets)
    {
      app.HandlePlanetFocus(Some(id));
    }

    method FormChanged(f: FormField, value: string)
      modifies this`customPlanetForm
      ensures customPlanetForm == WithField(old(customPlanetForm), f, value)
    {
      customPlanetForm := WithField(customPlanetForm, f, value);
    }

    /** `handleCustomPlanetSubmit`. The generated id (`"CUSTOM"` and the clock's last
        six digits) is passed in as `newId`. A rejected form changes nothing; an accepted
        one is stored, reloaded into the listing, appended to the selection below the
        cap, and the form is reset and closed. */
    method SubmitCustomPlanet(newId: string, parse: string -> ParsedNumber)
      returns (outcome: Result<Details, Rejection>)
      modifies this, app`selectedPlanets, store
      ensures outcome.Failure? <==> ValidateForm(old(customPlanetForm), parse).Failure?
      ensures outcome.Failure? ==>
                && outcome.error == ValidateForm(old(customPlanetForm), parse).error
                && customPlanetForm == old(customPlanetForm) && showAddDialog == old(showAddDialog)
                && allPlanets == old(allPlanets) && searchTerm == old(searchTerm)
                && loading == old(loading) && addingPlanet == old(addingPlanet)
                && app.selectedPlanets == old(app.selectedPlanets)
                && store.customPlanets == old(store.customPlanets)
                && store.customPlanetDetails == old(store.customPlanetDetails)
      ensures outcome.Success? ==>
                outcome.value == CustomDetails(newId, old(customPlanetForm), ValidateForm(old(customPlanetForm), parse).value)
      ensures outcome.Success? ==> Committed(outcome.value, old(app.selectedPlanets), old(store.customPlanets),
                                             old(store.customPlanetDetails), old(searchTerm))
      ensures outcome.Success? ==> !loading && addingPlanet == old(addingPlanet)
      ensures ValidSelection(old(app.selectedPlanets)) && !IsSelected(old(app.selectedPlanets), newId) ==>
                ValidSelection(app.selectedPlanets)
    {
      var checked := ValidateForm(customPlanetForm, parse);
      if checked.Failure? {
        return Failure(checked.error);
      }
      var custom := CustomDetails(newId, customPlanetForm, checked.value);
      CommitCustomPlanet(custom);
      outcome := Success(custom);
    }

    /** The state after a valid custom planet `d` was submitted. */
    ghost predicate Committed(d: Details, selectedBefore: seq<SelectedPlanet>, customBefore: seq<ListItem>,
                              detailsBefore: map<string, Details>, termBefore: string)
      reads this, app, store
    {
      && store.customPlanets == [ListItem(d.kepler_name, d.kepoi_name)] + customBefore
      && store.customPlanetDetails == detailsBefore[d.kepoi_name := d]
      && allPlanets == store.ListPlanets()
      && app.selectedPlanets == selectedBefore + (if |selectedBefore| < MaxSelected then [WithPlanetColor(d)] else [])
      && customPlanetForm == EmptyForm && !showAddDialog && searchTerm == termBefore
    }

    /** The accepting half of the submission. */
    method CommitCustomPlanet(custom: Details)
      modifies this, app`selectedPlanets, store
      ensures Committed(custom, old(app.selectedPlanets), old(store.customPlanets),
                        old(store.customPlanetDetails), old(searchTerm))
      ensures !loading && addingPlanet == old(addingPlanet)
      ensures ValidSelection(old(app.selectedPlanets)) && !IsSelected(old(app.selectedPlanets), custom.kepoi_name) ==>
                ValidSelection(app.selectedPlanets)
    {
      store.AddCustomPlanet(custom);
      LoadPlanets();
      if |app.selectedPlanets| < MaxSelected {
        app.selectedPlanets := app.selectedPlanets + [WithPlanetColor(custom)];
      }
      customPlanetForm := EmptyForm;
      showAddDialog := false;
    }
  }
}
