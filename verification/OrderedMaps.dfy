/** Iteration over a map with natural keys in key order. */
module OrderedMaps {
  ghost predicate Ascending(keys: seq<nat>) {
    forall i, j :: 0 <= i < j < |keys| ==> keys[i] < keys[j]
  }

  lemma {:induction false} SmallestExists(keys: set<nat>)
    requires keys != {}
    ensures exists k :: k in keys && forall o :: o in keys ==> k <= o
  {
    var k :| k in keys;
    if keys - {k} == {} {
      assert keys == {k};
    } else {
      SmallestExists(keys - {k});
      var m :| m in keys - {k} && forall o :: o in keys - {k} ==> m <= o;
      var least := if k < m then k else m;
      assert forall o :: o in keys ==> o == k || o in keys - {k};
      assert least in keys && forall o :: o in keys ==> least <= o;
    }
  }

  function Smallest(keys: set<nat>): (k: nat)
    requires keys != {}
    ensures k in keys && forall o :: o in keys ==> k <= o
  {
    SmallestExists(keys);
    var k :| k in keys && forall o :: o in keys ==> k <= o;
    k
  }

  function SortedKeys(keys: set<nat>): (sorted: seq<nat>)
    ensures Ascending(sorted)
    ensures forall k :: k in sorted <==> k in keys
    ensures |sorted| == |keys|
    decreases |keys|
  {
    if keys == {} then [] else
    var k := Smallest(keys);
    [k] + SortedKeys(keys - {k})
  }

  lemma SharedFirst(a: seq<nat>, b: seq<nat>)
    requires forall k :: k in a ==> k in b
    ensures a != [] ==> b != []
  {
    if a != [] {
      assert a[0] in b;
    }
  }

  /** The ascending listing of a set is unique. */
  lemma {:induction false} AscendingIsUnique(a: seq<nat>, b: seq<nat>)
    requires Ascending(a) && Ascending(b)
    requires forall k :: k in a <==> k in b
    ensures a == b
  {
    if a == [] || b == [] {
      SharedFirst(a, b);
      SharedFirst(b, a);
    } else {
      assert a[0] in b && b[0] in a;
      assert a[0] == b[0];
      forall k
        ensures k in a[1..] <==> k in b[1..]
      {
        if k in a[1..] { assert k in b && k != b[0]; }
        if k in b[1..] { assert k in a && k != a[0]; }
      }
      AscendingIsUnique(a[1..], b[1..]);
      assert a == [a[0]] + a[1..] && b == [b[0]] + b[1..];
    }
  }

  function Values<T>(m: map<nat, T>): (vs: seq<T>)
    ensures |vs| == |m|
  {
    var keys := SortedKeys(m.Keys);
    seq(|keys|, i requires 0 <= i < |keys| => m[keys[i]])
  }

  /** The values under fresh keys 0, 1, 2, ... */
  function Renumbered<T>(vs: seq<T>): map<nat, T> {
    map i | 0 <= i < |vs| :: vs[i]
  }

  lemma RenumberedKeys<T>(vs: seq<T>)
    ensures SortedKeys(Renumbered(vs).Keys) == seq(|vs|, i => i)
  {
    var keys: seq<nat> := seq(|vs|, i => i);
    forall k
      ensures k in keys <==> k in Renumbered(vs).Keys
    {
      if 0 <= k < |vs| { assert keys[k] == k; }
    }
    AscendingIsUnique(keys, SortedKeys(Renumbered(vs).Keys));
  }

  lemma RenumberedValues<T>(vs: seq<T>)
    ensures Values(Renumbered(vs)) == vs
  {
    RenumberedKeys(vs);
    hide SortedKeys;
  }
}
