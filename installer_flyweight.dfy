/** `InstallerFlyweightFactory` (factories/installer_flyweight.py): the
    process-wide registry that hands out one shared `InstallerFlyweight` per
    format key. The class-level dictionary `_flyweights` is the field of the
    one registry object; `get_flyweight` is a get-or-create on it. */
module FlyweightFactory {
  import opened Flyweight

  /** One lookup of `key` in a registry holding `m`, where `made` stands for
      the handle a miss creates: the new registry and the handle returned. */
  function GetOrCreate<K, V>(m: map<K, V>, key: K, made: V): (r: (map<K, V>, V))
    ensures key in r.0 && r.1 == r.0[key]
    ensures forall k :: k in m ==> k in r.0 && r.0[k] == m[k]
    ensures r.0.Keys == m.Keys + {key}
    ensures key in m ==> r.0 == m
    ensures key !in m ==> r.1 == made && |r.0| == |m| + 1
  {
    if key !in m then (m[key := made], made) else (m, m[key])
  }

  /** A second lookup of the same key returns the handle the first returned,
      whatever it would have created, and leaves the registry as it was. */
  lemma GetOrCreateTwice<K, V>(m: map<K, V>, key: K, made1: V, made2: V)
    ensures var (m1, h1) := GetOrCreate(m, key, made1);
            GetOrCreate(m1, key, made2) == (m1, h1)
  {
  }

  /** A run of lookups, `keys[i]` creating `made[i]` on a miss: the final
      registry and the handle each lookup returned. */
  function LookupAll<K, V>(m: map<K, V>, keys: seq<K>, made: seq<V>): (r: (map<K, V>, seq<V>))
    requires |made| == |keys|
    ensures |r.1| == |keys|
    decreases |keys|
  {
    if keys == [] then (m, [])
    else
      var (m1, h) := GetOrCreate(m, keys[0], made[0]);
      var (m2, hs) := LookupAll(m1, keys[1..], made[1..]);
      (m2, [h] + hs)
  }

  /** Over any run of lookups the registry only grows, gains exactly the keys
      looked up, and every lookup returns the registry's final handle for its
      key — so lookups of the same key return the identical handle. */
  lemma {:induction false} LookupAllShared<K, V>(m: map<K, V>, keys: seq<K>, made: seq<V>)
    requires |made| == |keys|
    ensures forall k :: k in LookupAll(m, keys, made).0 <==> k in m || k in keys
    ensures forall k :: k in m ==> LookupAll(m, keys, made).0[k] == m[k]
    ensures forall i :: 0 <= i < |keys| ==> LookupAll(m, keys, made).1[i] == LookupAll(m, keys, made).0[keys[i]]
    ensures forall i, j :: 0 <= i < |keys| && 0 <= j < |keys| && keys[i] == keys[j] ==>
              LookupAll(m, keys, made).1[i] == LookupAll(m, keys, made).1[j]
    decreases |keys|
  {
    if keys != [] {
      var (m1, h) := GetOrCreate(m, keys[0], made[0]);
      var rest, restMade := keys[1..], made[1..];
      LookupAllShared(m1, rest, restMade);
      var final := LookupAll(m1, rest, restMade).0;
      var handles := LookupAll(m, keys, made).1;
      assert LookupAll(m, keys, made).0 == final;
      assert handles == [h] + LookupAll(m1, rest, restMade).1;
      assert forall k :: k in keys <==> k == keys[0] || k in rest by {
        assert keys == [keys[0]] + rest;
      }
      forall i | 0 <= i < |keys|
        ensures handles[i] == final[keys[i]]
      {
        if i > 0 { assert keys[i] == rest[i - 1]; }
      }
    }
  }

  class InstallerFlyweightFactory {
    var flyweights: map<string, InstallerFlyweight>

    /** Each handle was made for the key it is filed under. */
    ghost predicate Valid()
      reads this
    {
      forall k :: k in flyweights ==> flyweights[k].script == k
    }

    constructor ()
      ensures Valid() && flyweights == map[]
    {
      flyweights := map[];
    }

    /** `get_flyweight(key)`: create and file a handle for `key` if there is
        none (a handle is always truthy, so the `not ... get(key)` test is a
        test for a missing key), then return the one filed under `key`. */
    method GetFlyweight(key: string) returns (f: InstallerFlyweight)
      requires Valid()
      modifies this
      ensures Valid()
      ensures (flyweights, f) == GetOrCreate(old(flyweights), key, f)
      ensures key !in old(flyweights) ==> fresh(f)
      ensures f.script == key
    {
      if key !in flyweights {
        var made := new InstallerFlyweight(key);
        flyweights := flyweights[key := made];
      }
      f := flyweights[key];
    }
  }

  /** Distinct keys are never served the same handle. */
  lemma HandlesDistinct(factory: InstallerFlyweightFactory)
    requires factory.Valid()
    ensures forall k1, k2 :: k1 in factory.flyweights && k2 in factory.flyweights && k1 != k2 ==>
              factory.flyweights[k1] != factory.flyweights[k2]
  {
  }
}
