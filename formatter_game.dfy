/**
 * The profile formatter of the stand-alone game (Game-Aspect/formatter.py):
 * from a planet and a lifeform it builds the JSON profile, a text description
 * and a parameters dictionary whose lifeform half is all `None` when the
 * planet is not habitable.
 *
 * The planet and the lifeform are duck-typed: only the attributes read here
 * matter, and they may hold any Python value. `str()` of such a value is host
 * formatting and is a parameter, `show`. Writing the JSON file is not modelled.
 */
module FormatterGame {
  import opened Wrappers
  import opened PyValues

  /** The lifeform attributes the formatter reads, in the order it writes them. */
  datatype LifeAttributes = LifeAttributes(
    lifeform: Value, size: Value, strength: Value, coloration: Value, migration: Value,
    radiationSheilding: Value, breathingMethod: Value, locomotion: Value,
    communicationMethod: Value, diet: Value)

  /** The keys of the lifeform parameters, in the source's order and spelling. */
  const LifeKeys: seq<string> := ["lifeform", "size", "strength", "coloration", "migration",
    "radiationSheilding", "breathingMethod", "locomotion", "communicationMethod", "diet"]

  function AttributeList(life: LifeAttributes): (vs: seq<Value>)
    ensures |vs| == |LifeKeys|
  {
    [life.lifeform, life.size, life.strength, life.coloration, life.migration,
     life.radiationSheilding, life.breathingMethod, life.locomotion,
     life.communicationMethod, life.diet]
  }

  const HabitableText := "This planet is habitable and may support life"
  const NotHabitableText := "This planet is not habitable."
  const NoLifeText := "No known lifeforms."

  /** The life text of a habitable planet: one labelled line per attribute, radiation
      shielding as "Yes" or "No" by its truthiness. */
  function LifeText(life: LifeAttributes, show: Value -> string): string
  {
    LeadLines(life, show) + ShieldingLine(life.radiationSheilding) + TrailLines(life, show)
  }

  function LeadLines(life: LifeAttributes, show: Value -> string): string
  {
    "Lifeform: " + show(life.lifeform) + "\n"
    + "Size: " + show(life.size) + "\n"
    + "Strength: " + show(life.strength) + "\n"
    + "Coloration: " + show(life.coloration) + "\n"
    + "Migration pattern: " + show(life.migration) + "\n"
  }

  function TrailLines(life: LifeAttributes, show: Value -> string): string
  {
    "Breathing method: " + show(life.breathingMethod) + "\n"
    + "Locomotion: " + show(life.locomotion) + "\n"
    + "Communication method: " + show(life.communicationMethod) + "\n"
    + "Diet: " + show(life.diet)
  }

  function ShieldingLine(shielding: Value): string
  {
    "Radiation shielding: " + (if Truthy(shielding) then "Yes" else "No") + "\n"
  }

  /** The description: the habitability sentence, a blank line, then the life text. */
  function Description(habitable: Value, life: LifeAttributes, show: Value -> string): string
  {
    if Truthy(habitable) then HabitableText + "\n\n" + LifeText(life, show)
    else NotHabitableText + "\n\n" + NoLifeText
  }

  /** The lifeform parameters, in key order: each attribute when habitable, else `None`. */
  function LifeParameters(habitable: Value, life: LifeAttributes): (items: seq<(string, Value)>)
    ensures Keys(items) == LifeKeys
    ensures Truthy(habitable) ==> forall i :: 0 <= i < |items| ==> items[i].1 == AttributeList(life)[i]
    ensures !Truthy(habitable) ==> forall i :: 0 <= i < |items| ==> items[i].1 == PyNone
  {
    var vs := AttributeList(life);
    seq(|LifeKeys|, i requires 0 <= i < |LifeKeys| => (LifeKeys[i], if Truthy(habitable) then vs[i] else PyNone))
  }

  /** The three paths of the dictionary `format_to_json` builds, for any description
      and lifeform parameters. */
  lemma JsonPaths(text: Value, habitable: Value, lifeform: Value)
    ensures var data := PyDict([("text_description", text),
                                ("parameters", PyDict([("exoplanet", PyDict([("habitable", habitable)])),
                                                       ("lifeform", lifeform)]))]);
      && Path(data, ["text_description"]) == Some(text)
      && Path(data, ["parameters", "exoplanet", "habitable"]) == Some(habitable)
      && Path(data, ["parameters", "lifeform"]) == Some(lifeform)
  {
    var exoplanet := PyDict([("habitable", habitable)]);
    var parameters := PyDict([("exoplanet", exoplanet), ("lifeform", lifeform)]);
    assert "text_description"[0] != "parameters"[0] && "exoplanet"[0] != "lifeform"[0];
    PathOfPair("text_description", text, "parameters", parameters, ["text_description"]);
    PathOfPair("text_description", text, "parameters", parameters, ["parameters", "exoplanet", "habitable"]);
    PathOfPair("exoplanet", exoplanet, "lifeform", lifeform, ["exoplanet", "habitable"]);
    PathOfSingle("habitable", habitable, ["habitable"]);
    PathOfPair("text_description", text, "parameters", parameters, ["parameters", "lifeform"]);
    PathOfPair("exoplanet", exoplanet, "lifeform", lifeform, ["lifeform"]);
    assert ["parameters", "exoplanet", "habitable"][1..] == ["exoplanet", "habitable"];
    assert ["exoplanet", "habitable"][1..] == ["habitable"];
    assert ["parameters", "lifeform"][1..] == ["lifeform"];
  }

  /** `format_to_json`: the returned dictionary. */
  function FormatToJson(habitable: Value, life: LifeAttributes, show: Value -> string): (data: Value)
    ensures data.PyDict? && Keys(data.items) == ["text_description", "parameters"]
    ensures Path(data, ["text_description"]) == Some(PyStr(Description(habitable, life, show)))
    ensures Path(data, ["parameters", "exoplanet", "habitable"]) == Some(habitable)
    ensures Path(data, ["parameters", "lifeform"]) == Some(PyDict(LifeParameters(habitable, life)))
  {
    var text := PyStr(Description(habitable, life, show));
    var lifeform := PyDict(LifeParameters(habitable, life));
    JsonPaths(text, habitable, lifeform);
    PyDict([("text_description", text),
            ("parameters", PyDict([("exoplanet", PyDict([("habitable", habitable)])), ("lifeform", lifeform)]))])
  }

  /** An uninhabitable planet is described by the not-habitable sentence, a blank line
      and "No known lifeforms.", and the description contains "not habitable". */
  lemma NotHabitableDescription(habitable: Value, life: LifeAttributes, show: Value -> string)
    requires !Truthy(habitable)
    ensures var d := Description(habitable, life, show);
            |d| == |NotHabitableText| + 2 + |NoLifeText|
            && d[..|NotHabitableText|] == NotHabitableText
            && d[|NotHabitableText|..|NotHabitableText| + 2] == "\n\n"
            && d[|d| - |NoLifeText|..] == NoLifeText
    ensures Contains(Description(habitable, life, show), "not habitable")
  {
    var d := Description(habitable, life, show);
    var rest := "." + "\n\n" + NoLifeText;
    assert NotHabitableText == "This planet is " + "not habitable" + ".";
    assert d == "This planet is " + "not habitable" + rest;
    ContainsMiddle("This planet is ", "not habitable", rest);
  }

  /** A habitable planet's description opens with the habitability sentence and renders
      the radiation shielding as "Yes" or "No". */
  lemma HabitableDescription(habitable: Value, life: LifeAttributes, show: Value -> string)
    requires Truthy(habitable)
    ensures var d := Description(habitable, life, show);
            |d| >= |HabitableText| && d[..|HabitableText|] == HabitableText
    ensures Contains(Description(habitable, life, show), ShieldingLine(life.radiationSheilding))
  {
    var head := HabitableText + "\n\n";
    var lead := LeadLines(life, show);
    var line := ShieldingLine(life.radiationSheilding);
    var trail := TrailLines(life, show);
    Regroup(head, lead, line, trail);
    Regroup(HabitableText, "\n\n", LifeText(life, show), "");
    ContainsMiddle(head + lead, line, trail);
  }
}
