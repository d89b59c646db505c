/** The object pool: a LIFO reserve of reusable objects. An object made by
    the pool's `init` factory is tagged with the pool key, and only objects
    carrying that key may be put back. The optional `enable`/`disable`
    hooks of a pool subclass are modelled as flags saying which exist. */
module ObjectPool {
  import opened Base

  /** The key of a pool built without one. */
  const DefaultKey := "__pool_key__"

  /** The errors the pool throws. */
  datatype Error =
    | MissingFactory   // `create` on a pool without an `init` factory
    | ForeignObject    // `remove` of an object carrying another key
    | DisableMissing   // `remove` calling a `disable` hook that does not exist

  /** What `create` gives back. */
  datatype Created<T> = Created(obj: T) | Failed(error: Error)

  /** The key a pool built with `key` uses: a missing or empty key falls
      back to the default. */
  function PoolKey(key: Option<string>): (k: string)
    ensures k != ""
    ensures key.Some? && key.value != "" ==> k == key.value
    ensures key.None? || key.value == "" ==> k == DefaultKey
  {
    if key.Some? && key.value != "" then key.value else DefaultKey
  }

  /** The `__poolKey` property of every object of type T; shared by all
      pools, since objects of several pools with one key are interchangeable. */
  class Tags<T(==)> {
    var keyOf: map<T, string>

    constructor ()
      ensures keyOf == map[]
    {
      keyOf := map[];
    }
  }

  class Pool<T(==)> {
    /** `_reserve`: the last element is the next one handed out. */
    var reserve: seq<T>
    const poolKey: string
    const tags: Tags<T>
    /** Which of the subclass hooks `init`, `enable`, `disable` are functions. */
    const hasInit: bool
    const hasEnable: bool
    const hasDisable: bool

    constructor (key: Option<string>, tags: Tags<T>, hasInit: bool, hasEnable: bool, hasDisable: bool)
      ensures reserve == [] && poolKey == PoolKey(key) && this.tags == tags && Valid()
      ensures this.hasInit == hasInit && this.hasEnable == hasEnable && this.hasDisable == hasDisable
    {
      reserve := [];
      poolKey := PoolKey(key);
      this.tags := tags;
      this.hasInit, this.hasEnable, this.hasDisable := hasInit, hasEnable, hasDisable;
    }

    /** Whether `obj.__poolKey === this.poolKey`. */
    predicate Owns(obj: T)
      reads tags
    {
      obj in tags.keyOf && tags.keyOf[obj] == poolKey
    }

    /** Every reserved object carries this pool's key. */
    ghost predicate Valid()
      reads this, tags
    {
      forall x :: x in reserve ==> Owns(x)
    }

    /** `create`. `made` stands for the object `init` would return; it is
        used, and tagged, only when the reserve is empty. `enabled` says
        whether the `enable` hook ran on the result. */
    method Create(made: T) returns (r: Created<T>, initCalled: bool, enabled: bool)
      modifies this, tags
      ensures !hasInit ==>
        && r == Failed(MissingFactory) && !initCalled && !enabled
        && reserve == old(reserve) && tags.keyOf == old(tags.keyOf)
      ensures hasInit && old(reserve) == [] ==>
        && r == Created(made) && initCalled
        && reserve == [] && tags.keyOf == old(tags.keyOf)[made := poolKey]
      ensures hasInit && old(reserve) != [] ==>
        && r == Created(old(reserve)[|old(reserve)| - 1]) && !initCalled
        && reserve == old(reserve)[..|old(reserve)| - 1] && tags.keyOf == old(tags.keyOf)
      ensures enabled == (hasInit && hasEnable)
      ensures old(Valid()) && r.Created? ==> Owns(r.obj)
      ensures old(Valid()) ==> Valid()
    {
      initCalled, enabled := false, false;
      if !hasInit {
        return Failed(MissingFactory), false, false;
      }
      var obj;
      if |reserve| == 0 {
        obj := made;
        initCalled := true;
        tags.keyOf := tags.keyOf[obj := poolKey];
      } else {
        obj := reserve[|reserve| - 1];
        assert obj in reserve;
        reserve := reserve[..|reserve| - 1];
      }
      enabled := hasEnable;
      r := Created(obj);
    }

    /** `remove`. An owned object is pushed onto the reserve; the `disable`
        hook then runs only when an `enable` hook exists, and throws when
        `disable` itself is missing. */
    method Remove(obj: T) returns (err: Option<Error>, disabled: bool)
      modifies this`reserve
      ensures old(Owns(obj)) ==> reserve == old(reserve) + [obj]
      ensures old(Owns(obj)) ==> disabled == (hasEnable && hasDisable)
      ensures old(Owns(obj)) ==> (err == Some(DisableMissing) <==> hasEnable && !hasDisable)
      ensures old(Owns(obj)) ==> err.None? || err == Some(DisableMissing)
      ensures !old(Owns(obj)) ==> reserve == old(reserve) && err == Some(ForeignObject) && !disabled
      ensures old(Valid()) ==> Valid()
    {
      err, disabled := None, false;
      if Owns(obj) {
        reserve := reserve + [obj];
        if hasEnable {
          if hasDisable {
            disabled := true;
          } else {
            err := Some(DisableMissing);
          }
        }
      } else {
        err := Some(ForeignObject);
      }
    }

    /** `clean`. */
    method Clean()
      modifies this
      ensures reserve == [] && Valid()
    {
      reserve := [];
    }
  }

  /** Putting an owned object back and then asking for one hands back that
      very object, whatever `init` would have made, and the reserve is as
      before. This holds even when `remove` throws for a missing `disable`,
      since the object is reserved before the hook runs. */
  method RemoveThenCreate<T(==)>(pool: Pool<T>, x: T, made: T) returns (y: Created<T>)
    requires pool.hasInit && pool.Owns(x)
    modifies pool, pool.tags
    ensures y == Created(x)
    ensures pool.reserve == old(pool.reserve)
  {
    var err, disabled := pool.Remove(x);
    var initCalled, enabled;
    y, initCalled, enabled := pool.Create(made);
  }
}
