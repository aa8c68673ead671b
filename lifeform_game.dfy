/**
 * The lifeform generator of the stand-alone game
 * (Game-Aspect/game_objects/determine_lifeform.py): a lifeform over one row of
 * the NASA exoplanet archive table (columns `pl_eqt`, `pl_bmasse`, `pl_rade`),
 * with the environment chosen at construction, default "terrestrial".
 *
 * Its setters write underscored attributes (`_environment`, `_base_size`)
 * that nothing else reads: size, colour, diet and communication keep reading
 * the constructor's `environment` and `base_size`. The size estimate is
 * floating-point numerics; only its final `max(size, 0.1)` is modelled
 * (`PyValues.Max`), and diet and communication take the size as an argument.
 */
module LifeformGame {
  import opened Wrappers
  import opened PyValues

  /** The three inputs with their defaults for a missing or NaN cell. */
  function Temperature(row: Row): Float { Known(row, "pl_eqt", 288.0) }
  function Mass(row: Row): Float { Known(row, "pl_bmasse", 1.0) }
  function Radius(row: Row): Float { Known(row, "pl_rade", 1.0) }

  /** The colour: red from the temperature over 100..1100 K, green from the mass over
      0.1..10.1 Earth masses, blue from the radius over 0.1..20.1 Earth radii, each
      clamped into a byte. */
  function ColorOf(row: Row): (c: (int, int, int))
    ensures 0 <= c.0 <= 255 && 0 <= c.1 <= 255 && 0 <= c.2 <= 255
    ensures Le(Temperature(row), 100.0) ==> c.0 == 0
    ensures Ge(Temperature(row), 1100.0) ==> c.0 == 255
    ensures Le(Mass(row), 0.1) ==> c.1 == 0
    ensures Ge(Mass(row), 10.1) ==> c.1 == 255
    ensures Le(Radius(row), 0.1) ==> c.2 == 0
    ensures Ge(Radius(row), 20.1) ==> c.2 == 255
  {
    (Channel(Normalized(Temperature(row), 100.0, 1000.0)),
     Channel(Normalized(Mass(row), 0.1, 10.0)),
     Channel(Normalized(Radius(row), 0.1, 20.0)))
  }

  /** A row with no usable cells gets the default colour (47, 22, 11): 288 K, one Earth
      mass and one Earth radius. */
  lemma DefaultColor(row: Row)
    requires "pl_eqt" !in row && "pl_bmasse" !in row && "pl_rade" !in row
    ensures ColorOf(row) == (47, 22, 11)
  {
    assert Normalized(Num(288.0), 100.0, 1000.0) == Num(47.94);
    assert Normalized(Num(1.0), 0.1, 10.0) == Num(22.95);
    assert Normalized(Num(1.0), 0.1, 20.0) == Num(11.475);
    ByteOfRange(Num(47.94));
    ByteOfRange(Num(22.95));
    ByteOfRange(Num(11.475));
    assert (47.94).Floor == 47 && (22.95).Floor == 22 && (11.475).Floor == 11;
    assert Temperature(row) == Num(288.0) && Mass(row) == Num(1.0) && Radius(row) == Num(1.0);
    assert Channel(Num(47.94)) == 47;
    assert Channel(Num(22.95)) == 22;
    assert Channel(Num(11.475)) == 11;
  }

  /** The communication method by environment: sonar when aquatic; in a forest
      low-frequency calls above size 5, else vocal or visual signals; in a desert
      vibrations; elsewhere chemical signals on a hot planet (> 350 K, default 288),
      low-frequency sound above size 3, else vocal. */
  function CommunicationOf(environment: string, row: Row, size: Float): (m: string)
    ensures m in {"sonar or pressure waves", "low-frequency calls", "vocal or visual signals",
                  "vibrations or visual signals", "electromagnetic or chemical signals",
                  "low-frequency sound", "vocal communication"}
    ensures environment == "aquatic" ==> m == "sonar or pressure waves"
    ensures environment == "forest" ==>
              m == (if Gt(size, 5.0) then "low-frequency calls" else "vocal or visual signals")
    ensures environment == "desert" ==> m == "vibrations or visual signals"
    ensures m == "electromagnetic or chemical signals" <==>
              environment !in {"aquatic", "forest", "desert"} && Gt(Temperature(row), 350.0)
    ensures environment !in {"aquatic", "forest", "desert"} && !Gt(Temperature(row), 350.0) ==>
              m == (if Gt(size, 3.0) then "low-frequency sound" else "vocal communication")
  {
    if environment == "aquatic" then "sonar or pressure waves"
    else if environment == "forest" then
      (if Gt(size, 5.0) then "low-frequency calls" else "vocal or visual signals")
    else if environment == "desert" then "vibrations or visual signals"
    else if Gt(Temperature(row), 350.0) then "electromagnetic or chemical signals"
    else if Gt(size, 3.0) then "low-frequency sound"
    else "vocal communication"
  }

  /** The diet by environment: aquatic omnivore above size 3, else herbivore; forest
      carnivore above size 5, else omnivore; desert herbivore on a hot planet, else
      omnivore; elsewhere omnivore above size 4, else herbivore. */
  function DietOf(environment: string, row: Row, size: Float): (d: string)
    ensures d in {"herbivore", "carnivore", "omnivore"}
    ensures d == "carnivore" <==> environment == "forest" && Gt(size, 5.0)
    ensures environment == "aquatic" ==> (d == "omnivore" <==> Gt(size, 3.0))
    ensures environment == "forest" && !Gt(size, 5.0) ==> d == "omnivore"
    ensures environment == "desert" ==> (d == "herbivore" <==> Gt(Temperature(row), 350.0))
    ensures environment !in {"aquatic", "forest", "desert"} ==> (d == "omnivore" <==> Gt(size, 4.0))
  {
    if environment == "aquatic" then (if Gt(size, 3.0) then "omnivore" else "herbivore")
    else if environment == "forest" then (if Gt(size, 5.0) then "carnivore" else "omnivore")
    else if environment == "desert" then (if Gt(Temperature(row), 350.0) then "herbivore" else "omnivore")
    else (if Gt(size, 4.0) then "omnivore" else "herbivore")
  }

  class Lifeform {
    const row: Row
    /** `base_size`, read by the size estimate. */
    var baseSize: Float
    /** `environment`, read by size, diet and communication. */
    var environment: string
    /** `_base_size`, written only by `set_base_size`; absent until then. */
    var privateBaseSize: Option<Float>
    /** `_environment`, written only by `set_environment`; absent until then. */
    var privateEnvironment: Option<string>

    constructor (csvRow: Row, baseSize: Float, environment: string)
      ensures row == csvRow && this.baseSize == baseSize && this.environment == environment
      ensures privateBaseSize.None? && privateEnvironment.None?
    {
      row := csvRow;
      this.baseSize := baseSize;
      this.environment := environment;
      privateBaseSize := None;
      privateEnvironment := None;
    }

    /** The constructor's defaults: base size 2.0 and environment "terrestrial". */
    static method WithDefaults(csvRow: Row) returns (life: Lifeform)
      ensures fresh(life) && life.row == csvRow
      ensures life.baseSize == Num(2.0) && life.environment == "terrestrial"
      ensures life.privateBaseSize.None? && life.privateEnvironment.None?
    {
      life := new Lifeform(csvRow, Num(2.0), "terrestrial");
    }

    /** `get_environment` reads `_environment`: an `AttributeError` until
        `set_environment` has run. */
    function GetEnvironment(): (r: Result<string, PyError>)
      reads this
      ensures r.Failure? <==> privateEnvironment.None?
      ensures r.Failure? ==> r.error == AttributeError
      ensures r.Success? ==> Some(r.value) == privateEnvironment
    {
      if privateEnvironment.Some? then Success(privateEnvironment.value) else Failure(AttributeError)
    }

    /** Writes `_environment` only: the environment that diet and communication read is
        unchanged. */
    method SetEnvironment(value: string)
      modifies this`privateEnvironment
      ensures privateEnvironment == Some(value)
      ensures GetEnvironment() == Success(value)
    {
      privateEnvironment := Some(value);
    }

    /** A positive value is written to `_base_size`; anything else (NaN included) raises
        `ValueError`. The `base_size` the size estimate reads is unchanged either way. */
    method SetBaseSize(value: Float) returns (r: Result<(), PyError>)
      modifies this`privateBaseSize
      ensures Gt(value, 0.0) ==> r.Success? && privateBaseSize == Some(value)
      ensures !Gt(value, 0.0) ==> r == Failure(ValueError) && privateBaseSize == old(privateBaseSize)
    {
      if Gt(value, 0.0) {
        privateBaseSize := Some(value);
        r := Success(());
      } else {
        r := Failure(ValueError);
      }
    }
  }

  /** The setters do not reach the behaviour: after `set_environment` and a successful
      `set_base_size` the lifeform's diet and communication for any size are what they
      were before. */
  method SettersLeaveBehaviour(life: Lifeform, env: string, value: Float, size: Float)
    returns (dietBefore: string, dietAfter: string, talkBefore: string, talkAfter: string)
    modifies life`privateEnvironment, life`privateBaseSize
    ensures dietBefore == dietAfter && talkBefore == talkAfter
    ensures dietAfter == DietOf(life.environment, life.row, size)
    ensures life.baseSize == old(life.baseSize)
  {
    dietBefore := DietOf(life.environment, life.row, size);
    talkBefore := CommunicationOf(life.environment, life.row, size);
    life.SetEnvironment(env);
    var _ := life.SetBaseSize(value);
    dietAfter := DietOf(life.environment, life.row, size);
    talkAfter := CommunicationOf(life.environment, life.row, size);
  }
}
