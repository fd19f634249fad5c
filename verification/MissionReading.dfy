/** What a JSON document means to the parsers: for every document, exactly which mission, item, options or stored state
    it is read as, in terms of its members alone. */
module MissionReading {
  import opened Wrappers
  import opened JsonValues
  import opened Missions
  import PersistentStates
  import OrderedMaps
  import OrderedStrings

  // ---- Values ----

  /** An integer is the number that it denotes, like a floating-point value. */
  function NumberOf(j: Json): Option<real> {
    match j
    case Int(i) => Some(i as real)
    case Real(r) => Some(r)
    case _ => None
  }

  /** Options and settings take a boolean for a number, too. */
  function SettingOf(j: Json): Option<real> {
    if j == Bool(true) then Some(1.0) else if j == Bool(false) then Some(0.0) else NumberOf(j)
  }

  /** What is read where an integer is expected: a fraction is dropped. */
  ghost predicate ReadsAs(j: Json, i: int) {
    match j
    case Int(k) => i == k
    case Real(r) => if r < 0.0 then i as real - 1.0 < r <= i as real else i as real <= r < i as real + 1.0
    case Bool(b) => i == if b then 1 else 0
    case _ => false
  }

  /** The member of an object. */
  predicate Has(j: Json, key: string, value: Json) {
    j.Obj? && key in j.members && j.members[key] == value
  }

  predicate Lacks(j: Json, key: string) {
    !j.Obj? || key !in j.members
  }

  predicate HasNumber(j: Json, key: string, r: real) {
    j.Obj? && key in j.members && NumberOf(j.members[key]) == Some(r)
  }

  /** An optional member with a number. */
  predicate HasSetting(j: Json, key: string, r: Option<real>) {
    if Lacks(j, key) then r == None else SettingOf(j.members[key]) == r && r.Some?
  }

  lemma IntegerReads(j: Json, i: int)
    ensures j.GetInt() == Success(i) <==> ReadsAs(j, i)
  {
  }

  // ---- Items ----

  /** The name of an item is optional. */
  predicate HasId(j: Json, id: string) {
    if Lacks(j, "id") then id == "" else Has(j, "id", Str(id))
  }

  predicate IsNavigation(j: Json, id: string, w: Waypoint) {
    && Has(j, "type", Str("navigation")) && Has(j, "navigationType", Str("waypoint")) && Has(j, "frame", Str("global"))
    && HasNumber(j, "x", w.x) && HasNumber(j, "y", w.y) && HasNumber(j, "z", w.z)
    && HasId(j, id)
  }

  /** A document is read as a waypoint exactly if its members say so, with the coordinates that they denote. */
  lemma NavigationIsRead(j: Json, id: string, w: Waypoint)
    ensures DecodeItem(j) == Success(NavigationItem(id, w)) <==> IsNavigation(j, id, w)
  {
  }

  /** It is read as an action exactly if its type is any other string: the type is the name, and the whole document the
      arguments. */
  lemma ActionIsRead(j: Json, id: string, name: string, arguments: Json)
    ensures DecodeItem(j) == Success(ActionItem(id, name, arguments))
       <==> Has(j, "type", Str(name)) && name != "navigation" && HasId(j, id) && arguments == j
  {
  }

  ghost predicate IsItem(j: Json, item: MissionItem) {
    match item
    case NavigationItem(id, w) => IsNavigation(j, id, w)
    case ActionItem(id, name, arguments) =>
      Has(j, "type", Str(name)) && name != "navigation" && HasId(j, id) && arguments == j
  }

  lemma ItemIsRead(j: Json, item: MissionItem)
    ensures DecodeItem(j) == Success(item) <==> IsItem(j, item)
  {
    hide DecodeItem;
    match item
    case NavigationItem(id, w) => NavigationIsRead(j, id, w);
    case ActionItem(id, name, arguments) => ActionIsRead(j, id, name, arguments);
  }

  // ---- Options ----

  /** The heading rate is in degrees per second in the document, and in radians here: half a turn is 180 degrees. */
  predicate AreOptions(j: Json, o: TrajectoryOptions) {
    && HasSetting(j, "horizontalVelocity", o.horizontalVelocity)
    && HasSetting(j, "verticalVelocity", o.verticalVelocity)
    && (if Lacks(j, "maxHeadingRate") then o.maxHeadingRate == None
        else
          && SettingOf(j.members["maxHeadingRate"]).Some?
          && o.maxHeadingRate == Some(SettingOf(j.members["maxHeadingRate"]).value * (3.14159265358979323846 / 180.0)))
  }

  lemma OptionsAreRead(j: Json, o: TrajectoryOptions)
    ensures DecodeOptions(j) == Success(o) <==> AreOptions(j, o)
  {
  }

  // ---- Missions ----

  /** What a loop over a value visits: the elements of an array, the members of an object in the order of their keys. */
  ghost predicate AreElements(j: Json, es: seq<Json>) {
    match j
    case Arr(xs) => es == xs
    case Null => es == []
    case Obj(members) =>
      exists keys: seq<string> ::
        && OrderedStrings.InOrder(keys) && (forall k :: k in keys <==> k in members)
        && |es| == |keys| && forall i :: 0 <= i < |keys| ==> es[i] == members[keys[i]]
    case _ => es == [j]
  }

  lemma ElementsAreVisited(j: Json)
    ensures AreElements(j, j.Elements())
  {
    hide OrderedStrings.SortedStrings, OrderedStrings.InOrder, OrderedStrings.MemberValues;
    if j.Obj? {
      MembersAreVisited(j.members);
    }
  }

  lemma MembersAreVisited(members: map<string, Json>)
    ensures AreElements(Obj(members), OrderedStrings.MemberValues(members))
  {
    hide OrderedStrings.SortedStrings, OrderedStrings.InOrder;
    var keys := OrderedStrings.SortedStrings(members.Keys);
    assert forall k :: k in keys <==> k in members;
  }

  ghost predicate AreItems(es: seq<Json>, items: seq<MissionItem>) {
    |es| == |items| && forall i :: 0 <= i < |items| ==> IsItem(es[i], items[i])
  }

  /** Version 1, and the mission with its items and, optionally, its default options. */
  ghost predicate IsMission(j: Json, m: Mission) {
    && j.Obj? && "version" in j.members && ReadsAs(j.members["version"], 1)
    && "mission" in j.members
    && var body := j.members["mission"];
       && (if Lacks(body, "defaults") then m.defaults == TrajectoryOptions(None, None, None)
           else AreOptions(body.members["defaults"], m.defaults))
       && body.Obj? && "items" in body.members
       && AreItems(body.members["items"].Elements(), m.items)
  }

  lemma ItemsAreRead(es: seq<Json>, items: seq<MissionItem>)
    ensures MapAll(DecodeItem, es) == Success(items) <==> AreItems(es, items)
  {
    hide DecodeItem, IsItem, MapAll;
    MapAllElements(DecodeItem, es);
    forall i | 0 <= i < |es| && i < |items|
      ensures DecodeItem(es[i]) == Success(items[i]) <==> IsItem(es[i], items[i])
    {
      ItemIsRead(es[i], items[i]);
    }
    if AreItems(es, items) {
      MapAllIs(DecodeItem, es, items);
    }
  }

  /** Every document: which mission it is read as, if any. */
  lemma MissionIsRead(j: Json, m: Mission)
    ensures DecodeMission(j) == Success(m) <==> IsMission(j, m)
  {
    hide MapAll, DecodeOptions, AreItems, AreOptions, Json.Elements;
    if j.Contains("version") {
      IntegerReads(j.members["version"], 1);
    }
    if j.Contains("mission") {
      var body := j.members["mission"];
      if body.Contains("defaults") {
        OptionsAreRead(body.members["defaults"], m.defaults);
      }
      if body.Contains("items") {
        ItemsAreRead(body.members["items"].Elements(), m.items);
      }
    }
  }

  // ---- Integers and floating-point values ----

  /** The same value, or two numbers that are equal. */
  predicate SameNumber(a: Json, b: Json) {
    a == b || (NumberOf(a).Some? && NumberOf(a) == NumberOf(b))
  }

  /** The same members, but that numbers may be written differently under the given keys. */
  ghost predicate AlikeUnder(a: Json, b: Json, keys: set<string>) {
    || a == b
    || (&& a.Obj? && b.Obj? && a.members.Keys == b.members.Keys
        && forall k :: k in a.members ==>
             a.members[k] == b.members[k] || (k in keys && SameNumber(a.members[k], b.members[k])))
  }

  /** The same item, but for how the coordinates of a waypoint are written. */
  ghost predicate AlikeItem(a: Json, b: Json) {
    a == b || (Has(a, "type", Str("navigation")) && AlikeUnder(a, b, {"x", "y", "z"}))
  }

  ghost predicate AlikeItems(a: Json, b: Json) {
    || a == b
    || (&& a.Arr? && b.Arr? && |a.elements| == |b.elements|
        && forall i :: 0 <= i < |a.elements| ==> AlikeItem(a.elements[i], b.elements[i]))
  }

  ghost predicate AlikeBody(a: Json, b: Json) {
    || a == b
    || (&& a.Obj? && b.Obj? && a.members.Keys == b.members.Keys
        && forall k :: k in a.members ==>
             || a.members[k] == b.members[k]
             || (k == "defaults" && AlikeUnder(a.members[k], b.members[k],
                                               {"horizontalVelocity", "verticalVelocity", "maxHeadingRate"}))
             || (k == "items" && AlikeItems(a.members[k], b.members[k])))
  }

  ghost predicate AlikeMission(a: Json, b: Json) {
    && a.Obj? && b.Obj? && a.members.Keys == b.members.Keys
    && forall k :: k in a.members ==>
         a.members[k] == b.members[k] || (k == "mission" && AlikeBody(a.members[k], b.members[k]))
  }

  lemma AlikeItemsRead(a: Json, b: Json, item: MissionItem)
    requires AlikeItem(a, b)
    ensures IsItem(a, item) ==> IsItem(b, item)
  {
  }

  lemma AlikeOptionsRead(a: Json, b: Json, o: TrajectoryOptions)
    requires AlikeUnder(a, b, {"horizontalVelocity", "verticalVelocity", "maxHeadingRate"})
    ensures AreOptions(a, o) ==> AreOptions(b, o)
  {
  }

  lemma AlikeBodiesRead(a: Json, b: Json, m: Mission)
    requires AlikeMission(a, b)
    ensures IsMission(a, m) ==> IsMission(b, m)
  {
    hide AreOptions, IsItem, AlikeItem, AlikeUnder;
    if IsMission(a, m) && a.members["mission"] != b.members["mission"] {
      var x, y := a.members["mission"], b.members["mission"];
      if "defaults" in x.members && x.members["defaults"] != y.members["defaults"] {
        AlikeOptionsRead(x.members["defaults"], y.members["defaults"], m.defaults);
      }
      if x.members["items"] != y.members["items"] {
        forall i | 0 <= i < |m.items|
          ensures IsItem(y.members["items"].elements[i], m.items[i])
        {
          AlikeItemsRead(x.members["items"].elements[i], y.members["items"].elements[i], m.items[i]);
        }
      }
    }
  }

  lemma AlikeUnderBack(a: Json, b: Json, keys: set<string>)
    ensures AlikeUnder(a, b, keys) ==> AlikeUnder(b, a, keys)
  {
  }

  lemma AlikeItemsBack(a: Json, b: Json)
    ensures AlikeItems(a, b) ==> AlikeItems(b, a)
  {
    hide AlikeUnder;
    if AlikeItems(a, b) && a != b {
      forall i | 0 <= i < |a.elements|
        ensures AlikeItem(b.elements[i], a.elements[i])
      {
        AlikeUnderBack(a.elements[i], b.elements[i], {"x", "y", "z"});
        if a.elements[i] != b.elements[i] {
          TypeAlike(a.elements[i], b.elements[i]);
        }
      }
    }
  }

  lemma TypeAlike(a: Json, b: Json)
    requires AlikeUnder(a, b, {"x", "y", "z"}) && Has(a, "type", Str("navigation"))
    ensures Has(b, "type", Str("navigation"))
  {
  }

  lemma AlikeBack(a: Json, b: Json)
    requires AlikeMission(a, b)
    ensures AlikeMission(b, a)
  {
    hide AlikeItems, AlikeUnder;
    if "mission" in a.members && a.members["mission"].Obj? && b.members["mission"].Obj? {
      var x, y := a.members["mission"].members, b.members["mission"].members;
      if "defaults" in x && "defaults" in y {
        AlikeUnderBack(x["defaults"], y["defaults"], {"horizontalVelocity", "verticalVelocity", "maxHeadingRate"});
      }
      if "items" in x && "items" in y {
        AlikeItemsBack(x["items"], y["items"]);
      }
    }
  }

  /** Writing a number as an integer or as a floating-point value makes no difference, in no coordinate and no option
      of a mission. */
  lemma NumbersReadAlike(a: Json, b: Json)
    requires AlikeMission(a, b)
    ensures DecodeMission(a) == DecodeMission(b)
  {
    hide DecodeMission, AlikeMission, IsMission;
    AlikeBack(a, b);
    if DecodeMission(a).Success? {
      MissionIsRead(a, DecodeMission(a).value);
      AlikeBodiesRead(a, b, DecodeMission(a).value);
      MissionIsRead(b, DecodeMission(a).value);
    }
    if DecodeMission(b).Success? {
      MissionIsRead(b, DecodeMission(b).value);
      AlikeBodiesRead(b, a, DecodeMission(b).value);
      MissionIsRead(a, DecodeMission(b).value);
    }
  }

  // ---- The stored state ----

  predicate IsStoredAction(j: Json, a: PersistentStates.ActionState) {
    Has(j, "name", Str(a.name)) && Has(j, "arguments", a.arguments)
  }

  ghost predicate AreStoredActions(es: seq<Json>, actions: map<nat, PersistentStates.ActionState>) {
    && (forall id: nat :: id in actions <==> id < |es|)
    && forall id: nat :: id < |es| ==> IsStoredAction(es[id], actions[id])
  }

  /** Version 1, an optional index, the stored actions in their order, and the checksum. */
  ghost predicate IsState(j: Json, p: PersistentStates.PersistentState) {
    && j.Obj? && "version" in j.members && ReadsAs(j.members["version"], 1)
    && (if Lacks(j, "currentIndex") then p.currentIndex == None
        else p.currentIndex.Some? && ReadsAs(j.members["currentIndex"], p.currentIndex.value))
    && AreStoredActions(if Lacks(j, "actions") then [] else j.members["actions"].Elements(), p.continuousActions)
    && Has(j, "checksum", Str(p.missionChecksum))
  }

  lemma ActionsAreRead(es: seq<Json>, actions: seq<PersistentStates.ActionState>)
    ensures MapAll(PersistentStates.DecodeAction, es) == Success(actions)
       <==> |es| == |actions| && forall i :: 0 <= i < |es| ==> IsStoredAction(es[i], actions[i])
  {
    hide MapAll;
    MapAllElements(PersistentStates.DecodeAction, es);
    forall i | 0 <= i < |es| && i < |actions|
      ensures PersistentStates.DecodeAction(es[i]) == Success(actions[i]) <==> IsStoredAction(es[i], actions[i])
    {
    }
    if |es| == |actions| && forall i :: 0 <= i < |es| ==> IsStoredAction(es[i], actions[i]) {
      MapAllIs(PersistentStates.DecodeAction, es, actions);
    }
  }

  /** Every document: which stored state it is read as, if any. */
  lemma StateIsRead(j: Json, p: PersistentStates.PersistentState)
    ensures PersistentStates.DecodeState(j) == Success(p) <==> IsState(j, p)
  {
    hide MapAll, IsStoredAction, Json.Elements, PersistentStates.DecodeAction;
    if j.Contains("version") {
      IntegerReads(j.members["version"], 1);
    }
    if j.Contains("currentIndex") && p.currentIndex.Some? {
      IntegerReads(j.members["currentIndex"], p.currentIndex.value);
    }
    var es := if j.Contains("actions") then j.members["actions"].Elements() else [];
    StoredAre(es, p.continuousActions);
  }

  lemma StoredAre(es: seq<Json>, actions: map<nat, PersistentStates.ActionState>)
    ensures AreStoredActions(es, actions)
       <==> exists vs ::
              MapAll(PersistentStates.DecodeAction, es) == Success(vs) && actions == OrderedMaps.Renumbered(vs)
  {
    hide MapAll, IsStoredAction, PersistentStates.DecodeAction;
    if AreStoredActions(es, actions) {
      var vs := seq(|es|, i requires 0 <= i < |es| => actions[i]);
      ActionsAreRead(es, vs);
      assert actions == OrderedMaps.Renumbered(vs);
    }
    if vs :| MapAll(PersistentStates.DecodeAction, es) == Success(vs) && actions == OrderedMaps.Renumbered(vs) {
      ActionsAreRead(es, vs);
    }
  }
}
