/**
 * The object cache of src/library/cached_memory.cpp: `MObject`, a named
 * holder whose content is loaded on demand, and `ObjectManager`, which
 * keeps the objects by name, hands them out (loading them when needed) and,
 * once per sweep, counts how long each loaded object has gone unused and
 * drops its content after `max_unused_period` sweeps. Objects are keyed by
 * their full name (the manager keys them by a hash of it; the hash is taken
 * to be injective). Loading a file is a parameter: the content it ends
 * with, if any.
 */
module CachedMemory {
  import opened Wrappers

  /** `ObjectManager::max_unused_period`. */
  const MaxUnusedPeriod: nat := 12

  /** The part of an object a sweep or a `get` changes: its content (null as `None`) and its unused period. */
  datatype Slot<T> = Slot(content: Option<T>, period: nat)

  /** `MObject`: the full name, the content (`nullptr` as `None`) and the unused period. */
  class MObject<T> {
    const fullname: string
    var content: Option<T>
    var unusedPeriod: nat

    /** An object's period stays within the limit, and below it while the content is loaded. */
    predicate Valid()
      reads this
    {
      unusedPeriod <= MaxUnusedPeriod && (content.Some? ==> unusedPeriod < MaxUnusedPeriod)
    }

    /** `MObject(fullname)`: named, empty, never unused. */
    constructor (fullname: string)
      ensures Valid() && this.fullname == fullname && content == None && unusedPeriod == 0
    {
      this.fullname := fullname;
      content := None;
      unusedPeriod := 0;
    }

    /** `is_allocated`: the content is not null. */
    predicate IsAllocated()
      reads this
    {
      content.Some?
    }

    /** The object's slot. */
    function State(): Slot<T>
      reads this
    {
      Slot(content, unusedPeriod)
    }

    /**
     * `set(value)`: the content is replaced by the value; the object is then
     * allocated, and it stays valid unless its period had already reached
     * the limit.
     */
    method Set(value: T)
      modifies this
      ensures IsAllocated() && content == Some(value) && unusedPeriod == old(unusedPeriod)
      ensures old(unusedPeriod) < MaxUnusedPeriod ==> Valid()
    {
      content := Some(value);
    }
  }

  // ------------------------------------------------------------ one object, as values

  /**
   * One object's step of a sweep: an unloaded object is skipped; a loaded
   * one that nothing else references counts one more unused sweep; a
   * loaded one whose period has reached the limit loses its content.
   */
  function Swept<T>(s: Slot<T>, unreferenced: bool): (r: Slot<T>)
    ensures s.content.None? ==> r == s
    ensures r.period == if s.content.Some? && unreferenced then s.period + 1 else s.period
  {
    if s.content.None? then s
    else
      var period := if unreferenced then s.period + 1 else s.period;
      Slot(if period == MaxUnusedPeriod then None else s.content, period)
  }

  /**
   * `_get_logic` on a registered object: the period starts over; unloaded
   * content is loaded. A load that throws leaves the content null, but the
   * period has already been reset.
   */
  function Fetched<T>(s: Slot<T>, loaded: Result<Option<T>>): (r: Slot<T>)
    ensures r.period == 0
    ensures s.content.Some? ==> r.content == s.content
    ensures s.content.None? && loaded.Ok? ==> r.content == loaded.value
    ensures s.content.None? && loaded.Err? ==> r.content == None
  {
    Slot(if s.content.Some? then s.content else if loaded.Ok? then loaded.value else None, 0)
  }

  /** A slot a manager may hold: what `MObject.Valid` states of an object. */
  predicate SlotValid<T>(s: Slot<T>)
  {
    s.period <= MaxUnusedPeriod && (s.content.Some? ==> s.period < MaxUnusedPeriod)
  }

  /** A sweep keeps a slot valid. */
  lemma SweptValid<T>(s: Slot<T>, unreferenced: bool)
    requires SlotValid(s)
    ensures SlotValid(Swept(s, unreferenced))
  {
  }

  /** A referenced object is never changed by a sweep. */
  lemma SweptReferenced<T>(s: Slot<T>)
    requires SlotValid(s)
    ensures Swept(s, false) == s
  {
  }

  /** `n` sweeps in a row with the object unreferenced throughout. */
  function SweptTimes<T>(s: Slot<T>, n: nat): Slot<T>
  {
    if n == 0 then s else Swept(SweptTimes(s, n - 1), true)
  }

  /**
   * An object loaded and left unreferenced keeps its content for fewer
   * than `max_unused_period - period` sweeps, loses it at that sweep, and
   * from then on is skipped, its period staying at the limit until the
   * next `get`.
   */
  lemma {:induction false} SweptTimesMeaning<T>(s: Slot<T>, n: nat)
    requires SlotValid(s) && s.content.Some?
    ensures n < MaxUnusedPeriod - s.period ==> SweptTimes(s, n) == Slot(s.content, s.period + n)
    ensures n >= MaxUnusedPeriod - s.period ==> SweptTimes(s, n) == Slot(None, MaxUnusedPeriod)
  {
    if n > 0 {
      SweptTimesMeaning(s, n - 1);
    }
  }

  /** A freshly fetched object survives exactly `max_unused_period - 1` unreferenced sweeps. */
  lemma FetchedLifetime<T>(s: Slot<T>, value: T)
    requires SlotValid(s)
    ensures var f := Fetched(s, Ok(Some(value)));
            SweptTimes(f, MaxUnusedPeriod - 1).content.Some? && SweptTimes(f, MaxUnusedPeriod).content.None?
  {
    var f := Fetched(s, Ok(Some(value)));
    SweptTimesMeaning(f, MaxUnusedPeriod - 1);
    SweptTimesMeaning(f, MaxUnusedPeriod);
  }

  // ------------------------------------------------------------ the manager

  /** `ObjectManager`: the registered objects, by full name. */
  class ObjectManager<T> {
    var objects: map<string, MObject<T>>

    /** Every object sits under its own full name and is valid. */
    predicate Valid()
      reads this, objects.Values
    {
      forall name :: name in objects ==> objects[name].fullname == name && objects[name].Valid()
    }

    /** Each registered object's slot, by name. */
    function Slots(): (r: map<string, Slot<T>>)
      reads this, objects.Values
      ensures r.Keys == objects.Keys
    {
      map name | name in objects :: objects[name].State()
    }

    /** `ObjectManager()`: nothing registered. */
    constructor ()
      ensures Valid() && objects == map[]
    {
      objects := map[];
    }

    /** `add_object(value)`: registered under its name, unless that name is taken, in which case nothing changes. */
    method AddObject(value: MObject<T>)
      requires Valid() && value.Valid()
      modifies this
      ensures Valid()
      ensures objects == if value.fullname in old(objects) then old(objects) else old(objects)[value.fullname := value]
    {
      if value.fullname !in objects {
        objects := objects[value.fullname := value];
      }
    }

    /**
     * `get(key)` / `_get_logic`: an unregistered name throws; otherwise the
     * object's period starts over and, unless it is loaded, it is loaded.
     * `load(key)` is what `MObject::load` does with the file: it throws
     * (a text that does not parse, an object that does not read), or it
     * ends with the content it set, `None` when there was no file. A throw
     * propagates out of `get` after the period was reset. No other object
     * changes.
     */
    method Get(key: string, load: string -> Result<Option<T>>) returns (r: Result<MObject<T>>)
      requires Valid()
      modifies objects.Values
      ensures Valid() && objects == old(objects)
      ensures r.Ok? <==> key in objects && (old(Slots())[key].content.Some? || load(key).Ok?)
      ensures r.Ok? ==> r.value == objects[key]
      ensures Slots() == if key in old(objects) then old(Slots())[key := Fetched(old(Slots())[key], load(key))] else old(Slots())
    {
      if key !in objects {
        return Err(key + " doesn't exist");
      }
      var obj := objects[key];
      obj.unusedPeriod := 0;
      if obj.IsAllocated() {
        return Ok(obj);
      }
      var loaded := load(key);
      if loaded.Err? {
        return Err(loaded.error);
      }
      obj.content := loaded.value;
      r := Ok(obj);
    }

    /**
     * One pass of the sweep loop of `_launch_logic`, over every registered
     * object (in any order, as each object's step is its own); the names in
     * `unreferenced` are those of the objects nothing but the manager holds.
     */
    method Sweep(unreferenced: set<string>)
      requires Valid()
      modifies objects.Values
      ensures Valid() && objects == old(objects)
      ensures Slots() == map name | name in old(Slots()) :: Swept(old(Slots())[name], name in unreferenced)
    {
      ghost var before := Slots();
      var pending := objects.Keys;
      while pending != {}
        invariant pending <= objects.Keys && Valid()
        invariant forall name :: name in objects ==>
                    objects[name].State() == if name in pending then before[name] else Swept(before[name], name in unreferenced)
        decreases pending
      {
        var name :| name in pending;
        SweepOne(objects[name], name in unreferenced);
        pending := pending - {name};
      }
    }
  }

  /** One object's step of the sweep loop. */
  method SweepOne<T>(obj: MObject<T>, unreferenced: bool)
    requires obj.Valid()
    modifies obj
    ensures obj.Valid() && obj.State() == Swept(old(obj.State()), unreferenced)
  {
    if !obj.IsAllocated() {
      return;
    }
    if unreferenced {
      obj.unusedPeriod := obj.unusedPeriod + 1;
    }
    if obj.unusedPeriod == MaxUnusedPeriod {
      obj.content := None;
    }
  }
}
