/** The process-wide core: `Core::instance(AccessType)` keeps one shared
    reference in a function-local static, and `instance()`, `release()` and
    `useCount()` are written on top of it. The static becomes the `core`
    field of a `Registry`; the mutex that serialises the calls is not
    modelled, since every call here runs alone. */
module Singleton {
  import opened Dispatch

  /** What a caller asks of the static reference. */
  datatype AccessType = Current | Renew | Release

  /** `useCount()` returns an `unsigned`, which is 32 bits wide on the
      platforms the library targets. */
  const UNSIGNED_RANGE: nat := 0x1_0000_0000

  /** `static_cast<unsigned>(count) - 1`, computed modulo the width of
      `unsigned` as C++ does. */
  function UnsignedMinusOne(count: nat): (n: nat)
    ensures n < UNSIGNED_RANGE
    ensures 1 <= count < UNSIGNED_RANGE ==> n == count - 1
    ensures count % UNSIGNED_RANGE == 0 ==> n == UNSIGNED_RANGE - 1
  {
    (count % UNSIGNED_RANGE + UNSIGNED_RANGE - 1) % UNSIGNED_RANGE
  }

  class Registry {
    /** The `static CoreRef core` of `instance(AccessType)`. */
    var core: Core?

    /** The slot's core, when there is one, is in a consistent state. */
    ghost predicate Valid()
      reads this, core
    {
      core != null ==> core.Valid()
    }

    /** Before any call the static reference is empty. */
    constructor ()
      ensures core == null && Valid()
    {
      core := null;
    }

    /** `instance(type)`: `Current` leaves the slot alone, `Release` empties
        it, `Renew` fills an empty slot with a newly constructed core and
        keeps a full one. The result is the slot after the call. */
    method Access(kind: AccessType, host: Host) returns (r: Core?)
      requires Valid()
      modifies this
      ensures Valid() && r == core
      ensures kind == Current ==> core == old(core)
      ensures kind == Release ==> core == null
      ensures kind == Renew && old(core) != null ==> core == old(core)
      ensures kind == Renew && old(core) == null ==> core != null && fresh(core) && core.Initial(host)
    {
      if kind == Current {
        // no-op
      } else if kind == Release {
        if core != null {
          core := null;
        }
      } else {
        if core == null {
          core := new Core(host);
        }
      }
      r := core;
    }

    /** `instance()`: the current core, constructed on `host` first when
        there is none. */
    method Get(host: Host) returns (r: Core)
      requires Valid()
      modifies this
      ensures Valid() && r == core
      ensures old(core) != null ==> r == old(core)
      ensures old(core) == null ==> fresh(r) && r.Initial(host)
    {
      var current := Access(Current, host);
      var got: Core?;
      if current == null {
        got := Access(Renew, host);
      } else {
        got := Access(Current, host);
      }
      r := got;
    }

    /** `release()`: drops the registry's reference. */
    method ReleaseCore()
      requires Valid()
      modifies this
      ensures Valid() && core == null
    {
      var _ := Access(Release, Host(0, []));
    }

    /** `useCount()`: zero when there is no core; otherwise the owners of
        the core other than the reference this call takes, that is the
        `holders` references callers keep plus the registry's own. */
    method UseCount(holders: nat) returns (n: nat)
      ensures n < UNSIGNED_RANGE
      ensures core == null ==> n == 0
      ensures core != null && holders + 2 < UNSIGNED_RANGE ==> n == holders + 1 && n != 0
    {
      if core == null {
        n := 0;
      } else {
        // the registry, the callers' references and the one just returned
        var count := holders + 2;
        n := UnsignedMinusOne(count);
      }
    }
  }
}
