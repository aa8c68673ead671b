/**
 * The top-level container (frontend/src/App.tsx): the selection, the shared
 * popover state and the focused planet, and the mapping from selected
 * planet records to the visualization records handed to the scene.
 */
module App {
  import opened Wrappers
  import opened Catalog

  /** A selected planet: the catalog record spread with an assigned colour. */
  datatype SelectedPlanet = SelectedPlanet(details: Details, color: string)

  datatype VisualizationParams = VisualizationParams(
    planetOrbitalPeriod: real,
    planetDistance: real,
    planetDiameter: real,
    planetColor: string,
    starDiameter: real,
    starColor: string,
    kepoi_name: string,
    display_name: string,
    stellarTemperature: real)

  /** The Sun's effective temperature, used when a record has none. */
  const SunTemperature: real := 5778.0

  /** `stellar_temperature || 5778`: an absent value and 0 are both falsy. */
  function StellarTemperatureOrSun(st: Option<real>): (r: real)
    ensures st.Some? && st.value != 0.0 ==> r == st.value
    ensures st.None? || st.value == 0.0 ==> r == SunTemperature
  {
    if st.Some? && st.value != 0.0 then st.value else SunTemperature
  }

  /** One selected planet as the scene sees it. Distances and radii are copied
      as they are (the solar-radii-to-AU conversion is commented out in the source). */
  function ToVisualizationParams(p: SelectedPlanet): (v: VisualizationParams)
    ensures v.planetOrbitalPeriod == p.details.orbital_period
    ensures v.planetDistance == p.details.orbital_radius
    ensures v.planetDiameter == p.details.planet_radius
    ensures v.starDiameter == p.details.stellar_radius
    ensures v.planetColor == TemperatureToPlanetColor(p.details.temperature)
    ensures v.stellarTemperature == StellarTemperatureOrSun(p.details.stellar_temperature)
    ensures v.starColor == TemperatureToStarColor(v.stellarTemperature)
    ensures v.kepoi_name == p.details.kepoi_name
    ensures v.display_name == DisplayName(p.details.kepler_name, p.details.kepoi_name)
  {
    var st := StellarTemperatureOrSun(p.details.stellar_temperature);
    VisualizationParams(
      p.details.orbital_period,
      p.details.orbital_radius,
      p.details.planet_radius,
      TemperatureToPlanetColor(p.details.temperature),
      p.details.stellar_radius,
      TemperatureToStarColor(st),
      p.details.kepoi_name,
      DisplayName(p.details.kepler_name, p.details.kepoi_name),
      st)
  }

  /** `getVisualizationParams`: one record per selected planet, in selection order. */
  function GetVisualizationParams(selected: seq<SelectedPlanet>): (r: seq<VisualizationParams>)
    ensures |r| == |selected|
    ensures forall i :: 0 <= i < |selected| ==> r[i] == ToVisualizationParams(selected[i])
  {
    if |selected| == 0 then []
    else seq(|selected|, i requires 0 <= i < |selected| => ToVisualizationParams(selected[i]))
  }

  /** `params.find(p => p.kepoi_name === name) || null`: the first record with that id.
      A `null` name never matches, since every record has a string id. */
  function FindByKepoiName(params: seq<VisualizationParams>, name: Option<string>): (r: Option<VisualizationParams>)
    ensures r.None? <==> forall i :: 0 <= i < |params| ==> Some(params[i].kepoi_name) != name
    ensures r.Some? ==> exists i :: 0 <= i < |params| && params[i] == r.value
                         && Some(params[i].kepoi_name) == name
                         && forall j :: 0 <= j < i ==> Some(params[j].kepoi_name) != name
  {
    if params == [] then None
    else if Some(params[0].kepoi_name) == name then Some(params[0])
    else
      var rest := FindByKepoiName(params[1..], name);
      assert forall i :: 1 <= i < |params| ==> params[i] == params[1..][i - 1];
      rest
  }

  /** The popover shows a planet exactly when its id is among the selected planets,
      and then it shows that planet's visualization record. */
  lemma {:induction false} InfoShownIffSelected(selected: seq<SelectedPlanet>, id: string)
    ensures FindByKepoiName(GetVisualizationParams(selected), Some(id)).Some?
            <==> exists i :: 0 <= i < |selected| && selected[i].details.kepoi_name == id
    ensures FindByKepoiName(GetVisualizationParams(selected), Some(id)).Some? ==>
            exists i :: 0 <= i < |selected| && selected[i].details.kepoi_name == id
              && FindByKepoiName(GetVisualizationParams(selected), Some(id)).value == ToVisualizationParams(selected[i])
  {
    var params := GetVisualizationParams(selected);
    var r := FindByKepoiName(params, Some(id));
    if r.Some? {
      var i :| 0 <= i < |params| && params[i] == r.value && Some(params[i].kepoi_name) == Some(id)
               && forall j :: 0 <= j < i ==> Some(params[j].kepoi_name) != Some(id);
      assert selected[i].details.kepoi_name == id;
    } else {
      forall i | 0 <= i < |selected| ensures selected[i].details.kepoi_name != id {
        assert params[i].kepoi_name == selected[i].details.kepoi_name;
      }
    }
  }

  /** The state owned by the application root. */
  class AppState {
    var selectedPlanets: seq<SelectedPlanet>
    var showPopover: bool
    var selectedKepoiName: Option<string>
    var focusedPlanet: Option<string>

    constructor ()
      ensures selectedPlanets == [] && !showPopover
      ensures selectedKepoiName.None? && focusedPlanet.None?
    {
      selectedPlanets := [];
      showPopover := false;
      selectedKepoiName := None;
      focusedPlanet := None;
    }

    function VisualizationParamsNow(): (r: seq<VisualizationParams>)
      reads this
      ensures |r| == |selectedPlanets|
      ensures forall i :: 0 <= i < |r| ==> r[i] == ToVisualizationParams(selectedPlanets[i])
    {
      GetVisualizationParams(selectedPlanets)
    }

    /** The record shown in the popover, or `null`. */
    function SelectedPlanetInfo(): (r: Option<VisualizationParams>)
      reads this
      ensures r.Some? ==> r.value in VisualizationParamsNow() && selectedKepoiName == Some(r.value.kepoi_name)
      ensures selectedKepoiName.None? ==> r.None?
    {
      FindByKepoiName(VisualizationParamsNow(), selectedKepoiName)
    }

    /** `onPlanetsChange`, the selection setter handed to the selector. */
    method SetSelectedPlanets(planets: seq<SelectedPlanet>)
      modifies this
      ensures selectedPlanets == planets
      ensures showPopover == old(showPopover) && selectedKepoiName == old(selectedKepoiName)
      ensures focusedPlanet == old(focusedPlanet)
    {
      selectedPlanets := planets;
    }

    /** `handlePlanetInfoSelect`: the popover opens iff a record is given, and the
        popover's id becomes the record's id (`undefined` for `null`). */
    method HandlePlanetInfoSelect(info: Option<VisualizationParams>)
      modifies this
      ensures showPopover <==> info.Some?
      ensures selectedKepoiName == (if info.Some? then Some(info.value.kepoi_name) else None)
      ensures selectedPlanets == old(selectedPlanets) && focusedPlanet == old(focusedPlanet)
    {
      selectedKepoiName := if info.Some? then Some(info.value.kepoi_name) else None;
      showPopover := info.Some?;
    }

    /** `handlePlanetFocus`: focus and popover id both become `id`, and the popover
        opens even when `id` is `null`. */
    method HandlePlanetFocus(id: Option<string>)
      modifies this
      ensures focusedPlanet == id && selectedKepoiName == id && showPopover
      ensures selectedPlanets == old(selectedPlanets)
    {
      selectedKepoiName := id;
      showPopover := true;
      focusedPlanet := id;
    }
  }
}
