/** A model of the platform's `Headers` object (the `Headers` class section of the WHATWG Fetch Standard):
    a mutable mapping from header names to values in which names compare
    case-insensitively. Each entry is kept under its lower-cased name. */
module HeaderMaps {
  import opened Text
  import opened Wrappers

  /** The key under which a header name is stored. */
  function Key(name: string): string
  {
    Lower(name)
  }

  /** Every key is already lower-cased, as a `Headers` object keeps its names. */
  ghost predicate WellFormed(m: map<string, string>)
  {
    forall k :: k in m ==> IsLower(k)
  }

  /** `headers.has(name)`. */
  predicate Has(m: map<string, string>, name: string)
  {
    Key(name) in m
  }

  /** `headers.get(name)`, with `null` as `None`. */
  function Get(m: map<string, string>, name: string): Option<string>
  {
    if Key(name) in m then Some(m[Key(name)]) else None
  }

  class Headers {
    var entries: map<string, string>

    ghost predicate Valid()
      reads this
    {
      WellFormed(entries)
    }

    /** `new Headers()`. */
    constructor ()
      ensures Valid() && entries == map[]
    {
      entries := map[];
    }

    /** `new Headers(init)` where `init` is another `Headers` object: a copy. */
    constructor Copy(init: map<string, string>)
      requires WellFormed(init)
      ensures Valid() && entries == init
    {
      entries := init;
    }

    /** `headers.has(name)`. */
    predicate Contains(name: string)
      reads this
    {
      Has(entries, name)
    }

    /** `headers.set(name, value)`: binds the name, replacing any earlier value. */
    method Set(name: string, value: string)
      requires Valid()
      modifies this
      ensures Valid()
      ensures entries == old(entries)[Key(name) := value]
    {
      LowerFixesExactlyLowerStrings(name);
      entries := entries[Key(name) := value];
    }

    /** `headers.delete(name)`: removes the name if it is bound. */
    method Delete(name: string)
      requires Valid()
      modifies this
      ensures Valid()
      ensures entries == old(entries) - {Key(name)}
    {
      entries := entries - {Key(name)};
    }
  }
}
