/**
 * The profile formatter of the game backend (backend/game-aspect/formatter.py):
 * from a planet record and a backend lifeform it builds the JSON profile
 * through their getters. The planet's environment is read in every case and
 * raises while it has not been set; on a habitable planet the lifeform's
 * colour can raise the division error, and its environment getter stores the
 * classification on the lifeform.
 *
 * `str()` of the base size is host float formatting and is a parameter,
 * `show`. Writing the JSON file is not modelled.
 */
module FormatterBackend {
  import opened Wrappers
  import opened PyValues
  import PlanetAttributes
  import LifeformBackend

  const HabitableText := "This planet is habitable and may support life"
  const NotHabitableDescription := "None\n\nThis planet is not habitable.\n\nNo known lifeforms."

  /** The keys of the lifeform parameters, in the source's order. */
  const LifeKeys: seq<string> := ["size", "coloration", "environment", "communicationMethod", "diet"]

  /** What the lifeform's getters return, in the order the formatter writes them. */
  datatype LifeReport = LifeReport(
    baseSize: Float, coloration: string, environment: string, communication: string, diet: string)

  function ReportValues(life: LifeReport): (vs: seq<Value>)
    ensures |vs| == |LifeKeys|
  {
    [PyFloat(life.baseSize), PyStr(life.coloration), PyStr(life.environment),
     PyStr(life.communication), PyStr(life.diet)]
  }

  /** The life text: the environment line has no line break of its own, so the
      communication line follows it on the same line. */
  function LifeText(life: LifeReport, show: Value -> string): string
  {
    "Size: " + show(PyFloat(life.baseSize)) + "\n"
    + "Coloration: " + life.coloration + "\n"
    + EnvironmentRun(life)
    + "Diet: " + life.diet
  }

  function EnvironmentRun(life: LifeReport): string
  {
    "Environment: " + life.environment + "Communication method: " + life.communication + "\n"
  }

  /** The lifeform parameters, in key order: each getter result when habitable, else `None`. */
  function LifeParameters(habitable: bool, life: LifeReport): (items: seq<(string, Value)>)
    ensures Keys(items) == LifeKeys
    ensures habitable ==> forall i :: 0 <= i < |items| ==> items[i].1 == ReportValues(life)[i]
    ensures !habitable ==> forall i :: 0 <= i < |items| ==> items[i].1 == PyNone
    ensures forall i :: 0 <= i < |items| ==> (items[i].1 == PyNone <==> !habitable)
  {
    var vs := ReportValues(life);
    seq(|LifeKeys|, i requires 0 <= i < |LifeKeys| => (LifeKeys[i], if habitable then vs[i] else PyNone))
  }

  /** The profile dictionary once every getter has returned. */
  function Profile(habitable: bool, planetEnvironment: string, description: string,
                   life: LifeReport): (data: Value)
    ensures data.PyDict? && Keys(data.items) == ["text_description", "parameters"]
    ensures Path(data, ["text_description"]) == Some(PyStr(description))
    ensures Path(data, ["parameters", "exoplanet"])
            == Some(PyDict([("habitable", PyBool(habitable)), ("environment", PyStr(planetEnvironment))]))
    ensures Path(data, ["parameters", "lifeform"]) == Some(PyDict(LifeParameters(habitable, life)))
  {
    var exoplanet := PyDict([("habitable", PyBool(habitable)), ("environment", PyStr(planetEnvironment))]);
    var parameters := PyDict([("exoplanet", exoplanet), ("lifeform", PyDict(LifeParameters(habitable, life)))]);
    var data := PyDict([("text_description", PyStr(description)), ("parameters", parameters)]);
    var lifeform := PyDict(LifeParameters(habitable, life));
    assert "text_description"[0] != "parameters"[0] && "exoplanet"[0] != "lifeform"[0];
    PathOfPair("text_description", PyStr(description), "parameters", parameters, ["text_description"]);
    PathOfPair("text_description", PyStr(description), "parameters", parameters, ["parameters", "exoplanet"]);
    PathOfPair("text_description", PyStr(description), "parameters", parameters, ["parameters", "lifeform"]);
    PathOfPair("exoplanet", exoplanet, "lifeform", lifeform, ["exoplanet"]);
    PathOfPair("exoplanet", exoplanet, "lifeform", lifeform, ["lifeform"]);
    assert ["parameters", "exoplanet"][1..] == ["exoplanet"];
    assert ["parameters", "lifeform"][1..] == ["lifeform"];
    data
  }

  /** `format_to_json` over the getters' results: `planetEnvironment` is what the planet's
      `get_environment` gives, `coloration` what the lifeform's `get_color` gives. The
      planet's environment is read first on a habitable planet and in the dictionary in
      every case; the colour is read only on a habitable planet. */
  function FormatToJson(habitable: bool, planetEnvironment: Result<string, PyError>,
                        baseSize: Float, coloration: Result<string, PyError>,
                        lifeEnvironment: string, communication: string, diet: string,
                        show: Value -> string): (r: Result<Value, PyError>)
    ensures r.Failure? <==> planetEnvironment.Failure? || (habitable && coloration.Failure?)
    ensures planetEnvironment.Failure? ==> r == Failure(planetEnvironment.error)
    ensures r.Success? ==>
              Path(r.value, ["parameters", "exoplanet"])
              == Some(PyDict([("habitable", PyBool(habitable)), ("environment", PyStr(planetEnvironment.value))]))
    ensures r.Success? && !habitable ==>
              Path(r.value, ["text_description"]) == Some(PyStr(NotHabitableDescription))
    ensures r.Success? ==>
              var params := Path(r.value, ["parameters", "lifeform"]);
              && params.Some? && params.value.PyDict? && Keys(params.value.items) == LifeKeys
              && forall i :: 0 <= i < |LifeKeys| ==> (params.value.items[i].1 == PyNone <==> !habitable)
  {
    if planetEnvironment.Failure? then Failure(planetEnvironment.error)
    else if !habitable then
      Success(Profile(false, planetEnvironment.value, NotHabitableDescription,
                      LifeReport(baseSize, "", lifeEnvironment, communication, diet)))
    else if coloration.Failure? then Failure(coloration.error)
    else
      var life := LifeReport(baseSize, coloration.value, lifeEnvironment, communication, diet);
      Success(Profile(true, planetEnvironment.value,
                      planetEnvironment.value + "\n\n" + HabitableText + "\n\n" + LifeText(life, show),
                      life))
  }

  /** On a habitable planet the description is the planet's environment, a blank line,
      the habitability sentence, a blank line and the life text, and the lifeform
      parameters are the getters' results. */
  lemma HabitableProfile(planetEnvironment: string, life: LifeReport, show: Value -> string)
    ensures var r := FormatToJson(true, Success(planetEnvironment), life.baseSize, Success(life.coloration),
                                  life.environment, life.communication, life.diet, show);
            && r.Success?
            && Path(r.value, ["text_description"])
               == Some(PyStr(planetEnvironment + "\n\n" + HabitableText + "\n\n" + LifeText(life, show)))
            && Path(r.value, ["parameters", "lifeform"]) == Some(PyDict(LifeParameters(true, life)))
            && Contains(LifeText(life, show), EnvironmentRun(life))
  {
    var size := "Size: " + show(PyFloat(life.baseSize)) + "\n" + "Coloration: " + life.coloration + "\n";
    assert LifeText(life, show) == size + EnvironmentRun(life) + ("Diet: " + life.diet);
    ContainsMiddle(size, EnvironmentRun(life), "Diet: " + life.diet);
  }

  /** `format_to_json` on the objects, calling the getters in the source's order. */
  method FormatObjects(planet: PlanetAttributes.Exoplanet, life: LifeformBackend.Lifeform,
                       size: Float, show: Value -> string)
    returns (r: Result<Value, PyError>)
    modifies life`environment
    ensures r == FormatToJson(planet.habitable, planet.GetEnvironment(), life.baseSize,
                              LifeformBackend.GetColor(life.row), LifeformBackend.EnvironmentOf(life.row),
                              LifeformBackend.CommunicationOf(life.habitat, life.row, size),
                              LifeformBackend.DietOf(life.habitat, life.row, size), show)
    ensures life.environment
            == if planet.habitable && planet.environment.Some? && LifeformBackend.GetColor(life.row).Success?
               then Some(LifeformBackend.EnvironmentOf(life.row))
               else old(life.environment)
  {
    var habitable := planet.GetHabitable();
    var description: string;
    var report: LifeReport;
    if habitable {
      var environmentText := planet.GetEnvironment();
      if environmentText.Failure? {
        return Failure(environmentText.error);
      }
      var baseSize := life.baseSize;
      var coloration := LifeformBackend.GetColor(life.row);
      if coloration.Failure? {
        return Failure(coloration.error);
      }
      var lifeEnvironment := life.GetEnvironment();
      var communication := LifeformBackend.CommunicationOf(life.habitat, life.row, size);
      var diet := LifeformBackend.DietOf(life.habitat, life.row, size);
      report := LifeReport(baseSize, coloration.value, lifeEnvironment, communication, diet);
      description := environmentText.value + "\n\n" + HabitableText + "\n\n" + LifeText(report, show);
    } else {
      description := NotHabitableDescription;
    }
    var planetEnvironment := planet.GetEnvironment();
    if planetEnvironment.Failure? {
      return Failure(planetEnvironment.error);
    }
    if !habitable {
      report := LifeReport(life.baseSize, "", LifeformBackend.EnvironmentOf(life.row),
                           LifeformBackend.CommunicationOf(life.habitat, life.row, size),
                           LifeformBackend.DietOf(life.habitat, life.row, size));
    }
    r := Success(Profile(habitable, planetEnvironment.value, description, report));
  }
}
