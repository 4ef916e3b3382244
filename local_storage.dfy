/**
 * The browser's `localStorage` as the store and the hook use it: `getItem`,
 * `setItem`, `removeItem`, `length` and `key(i)`. Keys keep the order in which
 * they were first set, which is the order `key(i)` reports them in. A storage
 * that throws on access (disabled by the browser, or no `window` while
 * rendering on the server) is one whose `available` flag is false: every
 * call then throws and nothing changes.
 */
module BrowserStorage {

  datatype Option<T> = None | Some(value: T)

  /** The keys of `keys` other than `key`, in their order. */
  function Without(keys: seq<string>, key: string): (r: seq<string>)
    ensures |r| <= |keys|
  {
    if keys == [] then []
    else (if keys[0] == key then [] else [keys[0]]) + Without(keys[1..], key)
  }

  /** Removing a key keeps every other key, in order, and only those. */
  lemma {:induction false} WithoutMembers(keys: seq<string>, key: string, x: string)
    ensures x in Without(keys, key) <==> x in keys && x != key
    decreases |keys|
  {
    if keys != [] {
      WithoutMembers(keys[1..], key, x);
      assert x in keys <==> x == keys[0] || x in keys[1..];
    }
  }

  predicate Distinct(keys: seq<string>)
  {
    forall i, j :: 0 <= i < j < |keys| ==> keys[i] != keys[j]
  }

  lemma {:induction false} WithoutDistinct(keys: seq<string>, key: string)
    requires Distinct(keys)
    ensures Distinct(Without(keys, key))
    decreases |keys|
  {
    if keys != [] {
      assert Distinct(keys[1..]) by {
        forall i, j | 0 <= i < j < |keys[1..]| ensures keys[1..][i] != keys[1..][j] {
          assert keys[1..][i] == keys[i + 1] && keys[1..][j] == keys[j + 1];
        }
      }
      WithoutDistinct(keys[1..], key);
      if keys[0] != key {
        forall x | x in Without(keys[1..], key) ensures x != keys[0] {
          WithoutMembers(keys[1..], key, x);
          var j :| 0 <= j < |keys[1..]| && keys[1..][j] == x;
          assert keys[j + 1] == x;
        }
        var rest := Without(keys[1..], key);
        forall i, j | 0 <= i < j < |[keys[0]] + rest| ensures ([keys[0]] + rest)[i] != ([keys[0]] + rest)[j] {
          if i == 0 {
            assert ([keys[0]] + rest)[j] == rest[j - 1];
            assert rest[j - 1] in rest;
          } else {
            assert ([keys[0]] + rest)[i] == rest[i - 1];
            assert ([keys[0]] + rest)[j] == rest[j - 1];
          }
        }
      } else {
        assert Without(keys, key) == Without(keys[1..], key);
      }
    }
  }

  class LocalStorage<V> {
    /** The keys in the order `key(i)` reports them. */
    var keys: seq<string>
    var values: map<string, V>
    /** False when every access throws. */
    var available: bool

    ghost predicate Valid()
      reads this
    {
      && Distinct(keys)
      && (forall k :: k in values <==> k in keys)
    }

    constructor (available: bool)
      ensures Valid()
      ensures keys == [] && values == map[] && this.available == available
    {
      keys := [];
      values := map[];
      this.available := available;
    }

    /** `localStorage.length`. */
    function Length(): (n: nat)
      reads this
      requires Valid()
      ensures n == |values.Keys|
    {
      assert values.Keys == set i | 0 <= i < |keys| :: keys[i] by {
        forall k | k in values ensures exists i :: 0 <= i < |keys| && keys[i] == k {
          assert k in keys;
        }
      }
      DistinctCard(keys);
      |keys|
    }

    /** `localStorage.key(i)`: `null` out of range. */
    function Key(i: int): (k: Option<string>)
      reads this
      requires Valid()
      ensures k.Some? <==> 0 <= i < |keys|
      ensures k.Some? ==> k.value in values
    {
      if 0 <= i < |keys| then Some(keys[i]) else None
    }

    /** `localStorage.getItem(key)`: `null` for a missing key. */
    method GetItem(key: string) returns (thrown: bool, item: Option<V>)
      ensures thrown == !available
      ensures item == if !thrown && key in values then Some(values[key]) else None
    {
      thrown := !available;
      item := if !thrown && key in values then Some(values[key]) else None;
    }

    /** `localStorage.setItem(key, value)`: a new key goes last, an existing one keeps its place. */
    method SetItem(key: string, value: V) returns (thrown: bool)
      requires Valid()
      modifies this
      ensures Valid() && available == old(available)
      ensures thrown == !available
      ensures thrown ==> keys == old(keys) && values == old(values)
      ensures !thrown ==> values == old(values)[key := value]
      ensures !thrown ==> keys == if key in old(values) then old(keys) else old(keys) + [key]
    {
      thrown := !available;
      if !thrown {
        if key !in values {
          keys := keys + [key];
        }
        values := values[key := value];
      }
    }

    /** `localStorage.removeItem(key)`: removing a missing key changes nothing. */
    method RemoveItem(key: string) returns (thrown: bool)
      requires Valid()
      modifies this
      ensures Valid() && available == old(available)
      ensures thrown == !available
      ensures thrown ==> keys == old(keys) && values == old(values)
      ensures !thrown ==> values == old(values) - {key} && keys == Without(old(keys), key)
    {
      thrown := !available;
      if !thrown {
        WithoutDistinct(keys, key);
        forall x ensures x in Without(keys, key) <==> x in keys && x != key {
          WithoutMembers(keys, key, x);
        }
        keys := Without(keys, key);
        values := values - {key};
      }
    }
  }

  /** A list of distinct keys has as many keys as it has positions. */
  lemma {:induction false} DistinctCard(keys: seq<string>)
    requires Distinct(keys)
    ensures |set i | 0 <= i < |keys| :: keys[i]| == |keys|
    decreases |keys|
  {
    if keys != [] {
      var last := |keys| - 1;
      assert Distinct(keys[..last]) by {
        forall i, j | 0 <= i < j < last ensures keys[..last][i] != keys[..last][j] { }
      }
      DistinctCard(keys[..last]);
      var front := set i | 0 <= i < last :: keys[..last][i];
      assert (set i | 0 <= i < |keys| :: keys[i]) == front + {keys[last]} by {
        forall k | k in front ensures k in set i | 0 <= i < |keys| :: keys[i] {
          var i :| 0 <= i < last && keys[..last][i] == k;
          assert keys[i] == k;
        }
      }
      assert keys[last] !in front;
    }
  }
}
