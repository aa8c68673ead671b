/**
 * The planet record of the game (Game-Aspect/game_objects/determine_planet_attributes.py):
 * habitability, size and atmosphere from the constructor, and an environment
 * attribute that exists only once it has been set.
 */
module PlanetAttributes {
  import opened Wrappers
  import opened PyValues

  class Exoplanet {
    var habitable: bool
    var size: Float
    var atmosphere: string
    /** Absent until `set_environment`: the constructor never assigns it. */
    var environment: Option<string>

    constructor (habitable: bool, size: Float, atmosphere: string)
      ensures this.habitable == habitable && this.size == size && this.atmosphere == atmosphere
      ensures environment.None? && GetEnvironment() == Failure(AttributeError)
    {
      this.habitable := habitable;
      this.size := size;
      this.atmosphere := atmosphere;
      environment := None;
    }

    method SetHabitable(habitable: bool)
      modifies this`habitable
      ensures GetHabitable() == habitable
    {
      this.habitable := habitable;
    }

    method SetSize(size: Float)
      modifies this`size
      ensures GetSize() == size
    {
      this.size := size;
    }

    method SetEnvironment(environment: string)
      modifies this`environment
      ensures GetEnvironment() == Success(environment)
    {
      this.environment := Some(environment);
    }

    function GetHabitable(): bool
      reads this
    {
      habitable
    }

    function GetSize(): Float
      reads this
    {
      size
    }

    /** The environment, or an `AttributeError` while none has been set. */
    function GetEnvironment(): (r: Result<string, PyError>)
      reads this
      ensures r.Success? <==> environment.Some?
      ensures r.Failure? ==> r.error == AttributeError
    {
      if environment.Some? then Success(environment.value) else Failure(AttributeError)
    }
  }

  /** Each setter changes only its own attribute: setting one and reading the others
      gives what they were. */
  method SettersAreIndependent(p: Exoplanet, h: bool, s: Float, e: string)
    modifies p
    ensures p.GetHabitable() == h && p.GetSize() == s && p.GetEnvironment() == Success(e)
    ensures p.atmosphere == old(p.atmosphere)
  {
    p.SetHabitable(h);
    p.SetSize(s);
    assert p.GetHabitable() == h;
    p.SetEnvironment(e);
  }
}
