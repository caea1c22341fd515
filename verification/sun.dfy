/**
 * The `Sun` singleton of python/universe/sun.py. `__new__` keeps one instance in a class-level
 * slot and hands it out on every construction; `__init__` runs on every construction but sets
 * the instance up only the first time, guarded by an `_initialized` flag; `loc` is a plain
 * property over `_loc`.
 */
module SunSingleton {
  import opened Wrappers
  import opened Coords

  /** The default location argument: latitude 37.230673, longitude -121.819650, no time. */
  const DefaultLocation: Location := MakeLocation(37.230673, -121.819650, NoTime, DefaultFormatCode)

  /** The Sun's name, as `__init__` hands it to the base class. */
  const SunName: string := "SUN"

  /** A `Sun` instance: its attributes, with `initialized` standing for `hasattr(self, '_initialized')`. */
  class Sun {
    var name: string
    var initialized: bool
    var loc: Location

    /**
     * `object.__new__(Sun)`: an instance with no attributes set yet. Python has no `_name` or
     * `_loc` at this point: the empty name and `DefaultLocation` are placeholders for the
     * missing attributes until `Init` sets them, and `Construct` always runs `Init` first.
     */
    constructor Allocate()
      ensures !initialized
    {
      name := "";
      initialized := false;
      loc := DefaultLocation;
    }

    /** `__init__`: only an instance that has not been set up takes the arguments. */
    method Init(loc: Location)
      modifies this
      ensures old(initialized) ==> name == old(name) && this.loc == old(this.loc)
      ensures !old(initialized) ==> name == SunName && this.loc == loc
      ensures initialized
    {
      if !initialized {
        name := SunName;
        this.loc := loc;
        initialized := true;
      }
    }

    /** The `loc` setter: the location changes and nothing else does. */
    method SetLoc(value: Location)
      modifies this
      ensures loc == value
      ensures name == old(name) && initialized == old(initialized)
    {
      loc := value;
    }
  }

  /** The class object `Sun` itself, with its class-level `_instance` slot. */
  class SunClass {
    var instance: Sun?

    /** The class as defined: no instance yet. */
    constructor ()
      ensures instance == null
    {
      instance := null;
    }

    /** `Sun.__new__`: the stored instance, or a new one stored for every later call. */
    method New() returns (s: Sun)
      modifies this
      ensures instance == s
      ensures old(instance) != null ==> s == old(instance)
      ensures old(instance) == null ==> fresh(s) && !s.initialized
    {
      if instance == null {
        instance := new Sun.Allocate();
      }
      s := instance;
    }

    /**
     * `Sun(loc)`: `__new__` followed by `__init__`. Every call returns the same object, and
     * only the first call's location is kept.
     */
    method Construct(loc: Location) returns (s: Sun)
      modifies this, instance
      ensures instance == s && s.initialized
      ensures old(instance) != null ==> s == old(instance)
      ensures old(instance) == null ==> fresh(s)
      ensures s.loc == (if old(instance) != null && old(instance.initialized) then old(instance.loc) else loc)
      ensures s.name == (if old(instance) != null && old(instance.initialized) then old(instance.name) else SunName)
    {
      s := New();
      s.Init(loc);
    }
  }

  /**
   * Two constructions in a row, as `Sun()` then `Sun(other)`: both give the same object, and
   * its location is the first argument's; the second is ignored.
   */
  method ConstructTwice(cls: SunClass, first: Location, second: Location) returns (s1: Sun, s2: Sun)
    requires cls.instance == null
    modifies cls
    ensures s1 == s2 && cls.instance == s1
    ensures s2.loc == first && s2.initialized
  {
    s1 := cls.Construct(first);
    s2 := cls.Construct(second);
  }

  /** A location set through one reference is what every other reference reads: there is one instance. */
  method SetThroughOneReference(cls: SunClass, a: Location, value: Location) returns (s1: Sun, s2: Sun)
    modifies cls, cls.instance
    ensures s1 == s2
    ensures s2.loc == value
  {
    s1 := cls.Construct(a);
    s1.SetLoc(value);
    s2 := cls.Construct(a);
  }
}
