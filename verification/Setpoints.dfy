/** The setpoint types of a mode: one of them is active, and the flight controller is told whenever that changes. */
module Setpoints {
  class SetpointType {
    var active: bool
    const configuration: nat
    const desiredRate: real

    constructor (configuration: nat, desiredRate: real)
      ensures !active && this.configuration == configuration && this.desiredRate == desiredRate
    {
      active := false;
      this.configuration := configuration;
      this.desiredRate := desiredRate;
    }

    method SetActive(value: bool)
      modifies this`active
      ensures active == value
    {
      active := value;
    }
  }

  class SetpointTypes {
    const types: seq<SetpointType>
    var published: seq<nat>   // the configurations that the flight controller was told

    ghost predicate Valid() {
      forall i, j :: 0 <= i < j < |types| ==> types[i] != types[j]
    }

    ghost predicate OnlyActive(k: nat)
      reads types
    {
      k < |types| && forall i :: 0 <= i < |types| ==> (types[i].active <==> i == k)
    }

    /** Exactly one type is active, and the flight controller knows its configuration. */
    ghost predicate InForce(k: nat)
      reads this, types
    {
      OnlyActive(k) && published != [] && published[|published| - 1] == types[k].configuration
    }

    constructor (types: seq<SetpointType>)
      ensures this.types == types && published == []
    {
      this.types := types;
      published := [];
    }

    method ActivateSetpointType(setpoint: SetpointType)
      requires setpoint in types
      modifies setpoint`active, this`published
      ensures setpoint.active && published == old(published) + [setpoint.configuration]
    {
      setpoint.SetActive(true);
      published := published + [setpoint.configuration];
    }

    /** A mode needs at least one setpoint type; the first one starts active. */
    method OnRegistered() returns (ok: bool)
      requires Valid() && forall i :: 0 <= i < |types| ==> !types[i].active
      modifies this`published, types
      ensures ok <==> types != []
      ensures ok ==> InForce(0) && published == old(published) + [types[0].configuration]
      ensures !ok ==> published == old(published)
    {
      if types == [] {
        return false;
      }
      ActivateSetpointType(types[0]);
      ok := true;
    }

    /** Using a setpoint type that is not active makes it the active one. */
    method OnUpdate(k: nat)
      requires Valid() && k < |types|
      requires exists j: nat :: InForce(j)
      modifies this`published, types
      ensures InForce(k)
      ensures published == old(published) + if old(types[k].active) then [] else [types[k].configuration]
    {
      if !types[k].active {
        ShouldActivate(k);
      }
    }

    /** One pass over all types: the one that asks is activated, the others are not. */
    method ShouldActivate(k: nat)
      requires Valid() && k < |types|
      modifies this`published, types
      ensures OnlyActive(k)
      ensures published == old(published) + [types[k].configuration]
    {
      var i := 0;
      while i < |types|
        invariant 0 <= i <= |types|
        invariant forall j :: 0 <= j < i ==> (types[j].active <==> j == k)
        invariant published == old(published) + if k < i then [types[k].configuration] else []
      {
        if types[i] == types[k] {
          ActivateSetpointType(types[i]);
        } else {
          types[i].SetActive(false);
        }
        i := i + 1;
      }
    }

    /** Any sequence of updates: the last one decides, and the flight controller always knows. */
    method Updates(ks: seq<nat>)
      requires Valid() && forall i :: 0 <= i < |ks| ==> ks[i] < |types|
      requires exists j: nat :: InForce(j)
      modifies this`published, types
      ensures ks != [] ==> InForce(ks[|ks| - 1])
      ensures exists j: nat :: InForce(j)
      ensures old(published) <= published && |published| <= |old(published)| + |ks|
    {
      for n := 0 to |ks|
        invariant exists j: nat :: InForce(j)
        invariant n > 0 ==> InForce(ks[n - 1])
        invariant old(published) <= published && |published| <= |old(published)| + n
      {
        OnUpdate(ks[n]);
      }
    }

    /** The greatest desired rate, which is set if it is positive. */
    method RateFromSetpointTypes() returns (rate: real)
      ensures forall i :: 0 <= i < |types| ==> types[i].desiredRate <= rate
      ensures rate == -1.0 || exists i :: 0 <= i < |types| && types[i].desiredRate == rate
      ensures rate >= -1.0
    {
      rate := -1.0;
      for n := 0 to |types|
        invariant forall i :: 0 <= i < n ==> types[i].desiredRate <= rate
        invariant rate == -1.0 || exists i :: 0 <= i < n && types[i].desiredRate == rate
        invariant rate >= -1.0
      {
        if rate < types[n].desiredRate {
          rate := types[n].desiredRate;
        }
      }
    }
  }
}
