/**
 * The lifeform generator of the game backend
 * (backend/game-aspect/game_objects/determine_lifeform.py): a lifeform is
 * built over one row of the Kepler cumulative table (columns `koi_teq`,
 * `koi_prad`, `koi_insol`, `koi_steff`) and classifies the planet's
 * environment, and the creature's colour, communication and diet.
 *
 * The size estimate is floating-point numerics (fractional powers and a
 * logarithm); only its final `max(size, 0.1)` is modelled (`PyValues.Max`),
 * and diet and communication take the size `get_size` returns as an argument.
 */
module LifeformBackend {
  import opened Wrappers
  import opened PyValues

  // ---------------------------------------------------------------------
  // Environment
  // ---------------------------------------------------------------------

  /** The environment decision tree over equilibrium temperature, radius and insolation,
      first matching branch wins. */
  function ClassifyEnvironment(teq: Float, prad: Float, insol: Float): (env: string)
    ensures env in {"volcanic", "gas_giant", "ice", "desert", "aquatic", "terrestrial", "unknown"}
    ensures env == "volcanic" <==> !prad.NaN? && !insol.NaN? && Ge(teq, 700.0)
    ensures env == "gas_giant" <==> !teq.NaN? && !insol.NaN? && !Ge(teq, 700.0) && Gt(prad, 3.0)
    ensures env == "aquatic" <==>
              teq.Num? && 200.0 < teq.value < 320.0 && Ge(prad, 1.5) && Le(prad, 3.0)
              && Ge(insol, 0.1) && Le(insol, 2.0)
    ensures env == "terrestrial" <==>
              teq.Num? && 200.0 < teq.value < 320.0 && Lt(prad, 1.5)
              && Ge(insol, 0.1) && Le(insol, 2.0)
    ensures env == "unknown" <==>
              teq.NaN? || prad.NaN? || insol.NaN?
              || (teq == Num(320.0) && Le(prad, 3.0) && Ge(insol, 0.1) && Le(insol, 2.0))
  {
    if teq.NaN? || prad.NaN? || insol.NaN? then "unknown"
    else if Ge(teq, 700.0) then "volcanic"
    else if Gt(prad, 3.0) then "gas_giant"
    else if Le(teq, 200.0) || Lt(insol, 0.1) then "ice"
    else if Gt(teq, 320.0) || Gt(insol, 2.0) then "desert"
    else if Ge(prad, 1.5) && Le(prad, 3.0) && Gt(teq, 200.0) && Lt(teq, 320.0) then "aquatic"
    else if Lt(prad, 1.5) && Gt(teq, 200.0) && Lt(teq, 320.0) then "terrestrial"
    else "unknown"
  }

  /** The classification of a row: a missing column reads as NaN. */
  function EnvironmentOf(row: Row): string
  {
    ClassifyEnvironment(Get(row, "koi_teq", NaN), Get(row, "koi_prad", NaN), Get(row, "koi_insol", NaN))
  }

  /** With any of the three columns missing the environment is unknown. */
  lemma MissingColumnIsUnknown(row: Row)
    requires "koi_teq" !in row || "koi_prad" !in row || "koi_insol" !in row
    ensures EnvironmentOf(row) == "unknown"
  {
  }

  /** The ice and desert branches, in their priority order: a cold or dim planet is ice
      unless it is volcanic or a gas giant, and a hot or bright one is desert unless an
      earlier branch took it. */
  lemma IceAndDesert(teq: Float, prad: Float, insol: Float)
    requires !teq.NaN? && !prad.NaN? && !insol.NaN?
    requires !Ge(teq, 700.0) && !Gt(prad, 3.0)
    ensures Le(teq, 200.0) || Lt(insol, 0.1) ==> ClassifyEnvironment(teq, prad, insol) == "ice"
    ensures (!(Le(teq, 200.0) || Lt(insol, 0.1)) && (Gt(teq, 320.0) || Gt(insol, 2.0)))
            ==> ClassifyEnvironment(teq, prad, insol) == "desert"
  {
  }

  // ---------------------------------------------------------------------
  // Colour
  // ---------------------------------------------------------------------

  datatype Rgb = Rgb(r: int, g: int, b: int)

  /** The colour from the star temperature (default 5500) and insolation (default 1.0):
      red rises from 3000 K to 7000 K, green is `200 / (insolation + 1)` and blue is
      `insolation * 50`, each clamped into a byte. An insolation of exactly -1 divides by
      zero. */
  function ColorOf(row: Row): (c: Result<Rgb, PyError>)
    ensures c.Failure? <==> Known(row, "koi_insol", 1.0) == Num(-1.0)
    ensures c.Failure? ==> c.error == ZeroDivisionError
    ensures c.Success? ==> 0 <= c.value.r <= 255 && 0 <= c.value.g <= 255 && 0 <= c.value.b <= 255
    ensures c.Success? && Le(Known(row, "koi_steff", 5500.0), 3000.0) ==> c.value.r == 0
    ensures c.Success? && Ge(Known(row, "koi_steff", 5500.0), 7000.0) ==> c.value.r == 255
    ensures c.Success? && Ge(Known(row, "koi_insol", 1.0), 0.0) ==> c.value.g <= 200
    ensures c.Success? && Lt(Known(row, "koi_insol", 1.0), -1.0) ==> c.value.g == 0
  {
    var starTemp := Known(row, "koi_steff", 5500.0);
    var insolation := Known(row, "koi_insol", 1.0);
    var red := Channel(Normalized(starTemp, 3000.0, 4000.0));
    var blue := Channel(match insolation
                        case Num(v) => Num(v / 2.0 * 100.0)
                        case _ => insolation);
    match insolation
    case Num(v) =>
      if v + 1.0 == 0.0 then Failure(ZeroDivisionError)
      else
        GreenBounds(v);
        Success(Rgb(red, Channel(Num(1.0 / (v + 1.0) * 200.0)), blue))
    case _ =>
      // 1 / (±inf + 1) is a zero, so green is 0
      Success(Rgb(red, 0, blue))
  }

  lemma GreenBounds(v: real)
    requires v + 1.0 != 0.0
    ensures v >= 0.0 ==> 1.0 / (v + 1.0) * 200.0 <= 200.0
    ensures v < -1.0 ==> 1.0 / (v + 1.0) * 200.0 < 0.0
  {
    var q := 1.0 / (v + 1.0);
    assert q * (v + 1.0) == 1.0;
    if v >= 0.0 {
      assert q > 0.0;
      assert q * v >= 0.0;
      assert q <= 1.0;
    }
    if v < -1.0 {
      var w := -(v + 1.0);
      assert q * w == -1.0;
      NegativeFactor(q, w);
    }
  }

  /** A product that is negative with a positive right factor has a negative left one. */
  lemma NegativeFactor(a: real, b: real)
    requires b > 0.0 && a * b < 0.0
    ensures a < 0.0
  {
  }

  /** `str((r, g, b))`, the form `get_color` returns. */
  function RgbText(c: Rgb): (s: string)
    requires 0 <= c.r && 0 <= c.g && 0 <= c.b
    ensures |s| >= 9 && s[0] == '(' && s[|s| - 1] == ')'
  {
    "(" + Decimal(c.r) + ", " + Decimal(c.g) + ", " + Decimal(c.b) + ")"
  }

  /** `get_color`: the colour rendered as `str((r, g, b))`, or the division error. */
  function GetColor(row: Row): (s: Result<string, PyError>)
    ensures s.Failure? <==> ColorOf(row).Failure?
    ensures s.Failure? ==> s.error == ZeroDivisionError
    ensures s.Success? ==> |s.value| >= 9 && s.value[0] == '(' && s.value[|s.value| - 1] == ')'
  {
    match ColorOf(row)
    case Success(c) => Success(RgbText(c))
    case Failure(e) => Failure(e)
  }

  // ---------------------------------------------------------------------
  // Communication and diet
  // ---------------------------------------------------------------------

  /** The communication method: sonar in the constructor's aquatic environment, else
      chemical signals on a hot planet (`koi_teq` > 350, default 288), else low-frequency
      sound for a creature larger than 3, else vocal. A NaN cell compares false. */
  function CommunicationOf(habitat: string, row: Row, size: Float): (m: string)
    ensures m in {"sonar or pressure waves", "electromagnetic or chemical signals",
                  "low-frequency sound", "vocal communication"}
    ensures m == "sonar or pressure waves" <==> habitat == "aquatic"
    ensures m == "electromagnetic or chemical signals" <==>
              habitat != "aquatic" && Gt(Get(row, "koi_teq", Num(288.0)), 350.0)
    ensures habitat != "aquatic" && !Gt(Get(row, "koi_teq", Num(288.0)), 350.0) ==>
              (m == "low-frequency sound" <==> Gt(size, 3.0))
  {
    var temp := Get(row, "koi_teq", Num(288.0));
    if habitat == "aquatic" then "sonar or pressure waves"
    else if Gt(temp, 350.0) then "electromagnetic or chemical signals"
    else if Gt(size, 3.0) then "low-frequency sound"
    else "vocal communication"
  }

  /** The diet: in the aquatic environment omnivore for a creature larger than 3, else
      herbivore; elsewhere carnivore under strong insolation (> 2), herbivore on a cold
      planet (< 250), omnivore otherwise. */
  function DietOf(habitat: string, row: Row, size: Float): (d: string)
    ensures d in {"herbivore", "carnivore", "omnivore"}
    ensures d == "carnivore" <==> habitat != "aquatic" && Gt(Get(row, "koi_insol", Num(1.0)), 2.0)
    ensures habitat == "aquatic" ==> (d == "omnivore" <==> Gt(size, 3.0))
    ensures habitat != "aquatic" && !Gt(Get(row, "koi_insol", Num(1.0)), 2.0) ==>
              (d == "herbivore" <==> Lt(Get(row, "koi_teq", Num(288.0)), 250.0))
    ensures habitat != "aquatic" && "koi_teq" in row && row["koi_teq"].NaN? ==> d != "herbivore"
  {
    var temp := Get(row, "koi_teq", Num(288.0));
    var insol := Get(row, "koi_insol", Num(1.0));
    if habitat == "aquatic" then (if Gt(size, 3.0) then "omnivore" else "herbivore")
    else if Gt(insol, 2.0) then "carnivore"
    else if Lt(temp, 250.0) then "herbivore"
    else "omnivore"
  }

  // ---------------------------------------------------------------------
  // The lifeform object
  // ---------------------------------------------------------------------

  class Lifeform {
    /** The table row the lifeform is built over. */
    const row: Row
    /** `_environment`, fixed by the constructor; diet, communication and the size's
        environment factor read it. */
    const habitat: string
    /** `_base_size`. */
    var baseSize: Float
    /** The public `environment` attribute, which exists only once `set_environment` or
        `get_environment` has assigned it. */
    var environment: Option<string>

    constructor (csvRow: Row, habitat: string, baseSize: Float)
      ensures row == csvRow && this.habitat == habitat && this.baseSize == baseSize
      ensures environment.None?
    {
      row := csvRow;
      this.habitat := habitat;
      this.baseSize := baseSize;
      environment := None;
    }

    /** A positive value replaces the base size; anything else (NaN included) raises
        `ValueError` and leaves it. */
    method SetBaseSize(value: Float) returns (r: Result<(), PyError>)
      modifies this`baseSize
      ensures Gt(value, 0.0) ==> r.Success? && baseSize == value
      ensures !Gt(value, 0.0) ==> r == Failure(ValueError) && baseSize == old(baseSize)
    {
      if Gt(value, 0.0) {
        baseSize := value;
        r := Success(());
      } else {
        r := Failure(ValueError);
      }
    }

    method SetEnvironment(env: string)
      modifies this`environment
      ensures environment == Some(env)
    {
      environment := Some(env);
    }

    /** Classifies the row and stores the result in the public `environment`; the
        constructor's `_environment` is left as it was. */
    method GetEnvironment() returns (env: string)
      modifies this`environment
      ensures env == EnvironmentOf(row) && environment == Some(env)
    {
      var teq := Get(row, "koi_teq", NaN);
      var prad := Get(row, "koi_prad", NaN);
      var insol := Get(row, "koi_insol", NaN);
      if teq.NaN? || prad.NaN? || insol.NaN? {
        environment := Some("unknown");
        return "unknown";
      }
      if Ge(teq, 700.0) {
        env := "volcanic";
      } else if Gt(prad, 3.0) {
        env := "gas_giant";
      } else if Le(teq, 200.0) || Lt(insol, 0.1) {
        env := "ice";
      } else if Gt(teq, 320.0) || Gt(insol, 2.0) {
        env := "desert";
      } else if Ge(prad, 1.5) && Le(prad, 3.0) && Gt(teq, 200.0) && Lt(teq, 320.0) {
        env := "aquatic";
      } else if Lt(prad, 1.5) && Gt(teq, 200.0) && Lt(teq, 320.0) {
        env := "terrestrial";
      } else {
        env := "unknown";
      }
      environment := Some(env);
    }
  }

  /** Classifying twice stores the same environment: the classification reads only the
      row, never the stored attribute. */
  method ClassifyTwice(life: Lifeform) returns (first: string, second: string)
    modifies life`environment
    ensures first == second && life.environment == Some(first)
  {
    first := life.GetEnvironment();
    second := life.GetEnvironment();
  }
}
