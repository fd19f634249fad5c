/** Optional values, and results of operations that may fail. */
module Wrappers {
  datatype Option<+T> = None | Some(value: T) {
    function GetOr(default: T): T {
      if Some? then value else default
    }
  }

  datatype Result<+T> = Success(value: T) | Failure {
    predicate IsFailure() {
      Failure?
    }
    function PropagateFailure<U>(): Result<U>
      requires Failure?
    {
      Failure
    }
    function Extract(): T
      requires Success?
    {
      value
    }
  }

  /** Applies a partial conversion to every element; the first failure fails the whole. */
  function MapAll<A, B>(f: A -> Result<B>, xs: seq<A>): (r: Result<seq<B>>)
    ensures r.Success? ==> |r.value| == |xs|
  {
    if xs == [] then Success([]) else
    var before :- MapAll(f, xs[..|xs| - 1]);
    var last :- f(xs[|xs| - 1]);
    Success(before + [last])
  }

  lemma {:induction false} MapAllElements<A, B>(f: A -> Result<B>, xs: seq<A>)
    ensures MapAll(f, xs).Success? <==> forall i :: 0 <= i < |xs| ==> f(xs[i]).Success?
    ensures MapAll(f, xs).Success? ==> forall i :: 0 <= i < |xs| ==> f(xs[i]) == Success(MapAll(f, xs).value[i])
  {
    if xs != [] {
      MapAllElements(f, xs[..|xs| - 1]);
      assert forall i :: 0 <= i < |xs| - 1 ==> xs[..|xs| - 1][i] == xs[i];
    }
  }

  /** Determined by its elements. */
  lemma MapAllIs<A, B>(f: A -> Result<B>, xs: seq<A>, ys: seq<B>)
    requires |xs| == |ys| && forall i :: 0 <= i < |xs| ==> f(xs[i]) == Success(ys[i])
    ensures MapAll(f, xs) == Success(ys)
  {
    MapAllElements(f, xs);
    var zs := MapAll(f, xs).value;
    assert forall i :: 0 <= i < |xs| ==> Success(zs[i]) == Success(ys[i]);
    assert zs == ys;
  }

  /** The loop form. */
  method ConvertAll<A, B>(f: A -> Result<B>, xs: seq<A>) returns (r: Result<seq<B>>)
    ensures r == MapAll(f, xs)
  {
    MapAllElements(f, xs);
    var ys: seq<B> := [];
    for i := 0 to |xs|
      invariant |ys| == i && forall k :: 0 <= k < i ==> f(xs[k]) == Success(ys[k])
    {
      var y := f(xs[i]);
      if y.Failure? {
        return Failure;
      }
      ys := ys + [y.value];
    }
    MapAllIs(f, xs, ys);
    r := Success(ys);
  }
}

/** The part of a JSON document model that missions, action arguments and the persisted
    execution state need. A read that the C++ library answers with an exception yields `Failure`. */
module JsonValues {
  import opened Wrappers
  import OrderedStrings

  datatype Json =
    | Null
    | Bool(b: bool)
    | Int(i: int)
    | Real(r: real)
    | Str(s: string)
    | Arr(elements: seq<Json>)
    | Obj(members: map<string, Json>)
  {
    /** `contains`: false on anything but an object. */
    predicate Contains(key: string) {
      Obj? && key in members
    }

    /** `at`: throws unless this is an object with the key. */
    function At(key: string): Result<Json> {
      if Contains(key) then Success(members[key]) else Failure
    }

    /** `j[key] = value`: turns null into an object, throws on any other non-object. */
    function Put(key: string, value: Json): Result<Json> {
      match this
      case Null => Success(Obj(map[key := value]))
      case Obj(m) => Success(Obj(m[key := value]))
      case _ => Failure
    }

    /** `update`: members of the argument win; throws unless the argument is an object. */
    function Update(other: Json): Result<Json> {
      match other
      case Obj(theirs) => (match this
                           case Null => Success(Obj(theirs))
                           case Obj(ours) => Success(Obj(ours + theirs))
                           case _ => Failure)
      case _ => Failure
    }

    /** `get<int>`: truncates a float toward zero and accepts a boolean. */
    function GetInt(): Result<int> {
      match this
      case Int(i) => Success(i)
      case Real(r) => Success(Truncate(r))
      case Bool(b) => Success(if b then 1 else 0)
      case _ => Failure
    }

    /** `get<float>`: accepts a boolean. */
    function GetFloat(): Result<real> {
      match this
      case Int(i) => Success(i as real)
      case Real(r) => Success(r)
      case Bool(b) => Success(if b then 1.0 else 0.0)
      case _ => Failure
    }

    /** `get<double>`: unlike `get<float>`, refuses a boolean. */
    function GetDouble(): Result<real> {
      match this
      case Int(i) => Success(i as real)
      case Real(r) => Success(r)
      case _ => Failure
    }

    function GetBool(): Result<bool> {
      match this
      case Bool(b) => Success(b)
      case _ => Failure
    }

    function GetString(): Result<string> {
      match this
      case Str(s) => Success(s)
      case _ => Failure
    }

    /** A range-for over the value visits the elements of an array, the member values of an object in the order of
        their keys, nothing for null, and the value itself otherwise. */
    function Elements(): seq<Json> {
      match this
      case Arr(es) => es
      case Null => []
      case Obj(m) => OrderedStrings.MemberValues(m)
      case _ => [this]
    }
  }

  /** The conversion from a floating-point value to an integer drops the fraction. */
  function Truncate(r: real): int {
    if r >= 0.0 then r.Floor else -((-r).Floor)
  }
}
