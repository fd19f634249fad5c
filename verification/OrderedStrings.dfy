/** Iteration over a map with string keys in key order, as over the members of a JSON object. */
module OrderedStrings {
  /** Lexicographic order. */
  predicate Before(a: string, b: string) {
    b != [] && (a == [] || a[0] < b[0] || (a[0] == b[0] && Before(a[1..], b[1..])))
  }

  lemma {:induction false} BeforeIsTotal(a: string, b: string)
    ensures a == b || Before(a, b) || Before(b, a)
  {
    if a != [] && b != [] && a[0] == b[0] {
      BeforeIsTotal(a[1..], b[1..]);
      assert a == [a[0]] + a[1..] && b == [b[0]] + b[1..];
    }
  }

  lemma {:induction false} BeforeIsStrict(a: string, b: string)
    ensures !(Before(a, b) && (a == b || Before(b, a)))
  {
    if a != [] && b != [] && a[0] == b[0] {
      BeforeIsStrict(a[1..], b[1..]);
    }
  }

  lemma {:induction false} BeforeIsTransitive(a: string, b: string, c: string)
    requires Before(a, b) && Before(b, c)
    ensures Before(a, c)
  {
    if a != [] && a[0] == b[0] == c[0] {
      BeforeIsTransitive(a[1..], b[1..], c[1..]);
    }
  }

  predicate First(k: string, keys: set<string>) {
    k in keys && forall o :: o in keys && o != k ==> Before(k, o)
  }

  lemma {:induction false} FirstExists(keys: set<string>)
    requires keys != {}
    ensures exists k :: First(k, keys)
  {
    hide Before;
    var k :| k in keys;
    if keys - {k} == {} {
      assert keys == {k} && First(k, keys);
    } else {
      FirstExists(keys - {k});
      var m :| First(m, keys - {k});
      BeforeIsTotal(k, m);
      forall o | o in keys && o != k && Before(k, m)
        ensures Before(k, o)
      {
        if o != m {
          BeforeIsTransitive(k, m, o);
        }
      }
      assert First(if Before(k, m) then k else m, keys);
    }
  }

  lemma FirstIsUnique(keys: set<string>, a: string, b: string)
    requires First(a, keys) && First(b, keys)
    ensures a == b
  {
    hide Before;
    BeforeIsStrict(a, b);
  }

  lemma FirstIsOne(keys: set<string>)
    ensures forall a, b :: First(a, keys) && First(b, keys) ==> a == b
  {
    hide First;
    forall a, b | First(a, keys) && First(b, keys)
      ensures a == b
    {
      FirstIsUnique(keys, a, b);
    }
  }

  function FirstOf(keys: set<string>): (k: string)
    requires keys != {}
    ensures First(k, keys)
  {
    hide First;
    FirstExists(keys);
    FirstIsOne(keys);
    var k :| First(k, keys);
    k
  }

  ghost predicate InOrder(sorted: seq<string>) {
    forall i, j :: 0 <= i < j < |sorted| ==> Before(sorted[i], sorted[j])
  }

  lemma FirstThenRest(keys: set<string>, k: string, rest: seq<string>)
    requires First(k, keys) && InOrder(rest) && forall o :: o in rest <==> o in keys - {k}
    ensures InOrder([k] + rest) && forall o :: o in [k] + rest <==> o in keys
  {
    hide Before;
    assert forall j :: 0 <= j < |rest| ==> rest[j] in keys - {k} && Before(k, rest[j]);
  }

  /** The keys in order, each once. */
  function SortedStrings(keys: set<string>): (sorted: seq<string>)
    ensures forall k :: k in sorted <==> k in keys
    ensures |sorted| == |keys|
    ensures InOrder(sorted)
    decreases |keys|
  {
    hide Before, First;
    if keys == {} then [] else
    var k := FirstOf(keys);
    var rest := (FirstIn(keys, k); SortedStrings(keys - {k}));
    FirstThenRest(keys, k, rest);
    [k] + rest
  }

  lemma FirstIn(keys: set<string>, k: string)
    requires First(k, keys)
    ensures k in keys && |keys - {k}| == |keys| - 1
  {
  }

  function MemberValues<T>(m: map<string, T>): (vs: seq<T>)
    ensures |vs| == |m|
  {
    var keys := SortedStrings(m.Keys);
    seq(|keys|, i requires 0 <= i < |keys| => m[keys[i]])
  }
}
