/** Mission definitions: items, trajectory options and their JSON form. */
module Missions {
  import opened Wrappers
  import opened JsonValues
  import opened Geometry

  datatype TrajectoryOptions = TrajectoryOptions(
    horizontalVelocity: Option<real>,
    verticalVelocity: Option<real>,
    maxHeadingRate: Option<real>)
  {
    /** The fields that are set in `o` win; the others stay as they are. */
    function CombinedWith(o: TrajectoryOptions): TrajectoryOptions {
      TrajectoryOptions(
        if o.horizontalVelocity.Some? then o.horizontalVelocity else horizontalVelocity,
        if o.verticalVelocity.Some? then o.verticalVelocity else verticalVelocity,
        if o.maxHeadingRate.Some? then o.maxHeadingRate else maxHeadingRate)
    }
  }

  const NoOptions := TrajectoryOptions(None, None, None)

  /** The only frame is the global one, so a waypoint is its coordinate. */
  datatype Waypoint = Waypoint(x: real, y: real, z: real)

  datatype MissionItem =
    | NavigationItem(id: string, waypoint: Waypoint)
    | ActionItem(id: string, name: string, arguments: Json)

  datatype Mission = Mission(defaults: TrajectoryOptions, items: seq<MissionItem>) {
    predicate IndexValid(index: int) {
      0 <= index < |items|
    }
  }

  const EmptyMission := Mission(NoOptions, [])

  // ---- Trajectory options ----

  function PutIfSet(j: Json, key: string, value: Option<real>): Json
    requires j.Null? || j.Obj?
  {
    if value.None? then j else j.Put(key, Real(value.value)).value
  }

  function EncodeOptions(o: TrajectoryOptions): (j: Json)
    ensures j.Null? || j.Obj?
  {
    var h := PutIfSet(Null, "horizontalVelocity", o.horizontalVelocity);
    var v := PutIfSet(h, "verticalVelocity", o.verticalVelocity);
    PutIfSet(v, "maxHeadingRate", if o.maxHeadingRate.None? then None else Some(RadToDeg(o.maxHeadingRate.value)))
  }

  function OptionalFloat(j: Json, key: string): Result<Option<real>> {
    if !j.Contains(key) then Success(None) else
    var value :- j.members[key].GetFloat();
    Success(Some(value))
  }

  function DecodeOptions(j: Json): Result<TrajectoryOptions> {
    var h :- OptionalFloat(j, "horizontalVelocity");
    var v :- OptionalFloat(j, "verticalVelocity");
    var m :- OptionalFloat(j, "maxHeadingRate");
    Success(TrajectoryOptions(h, v, if m.None? then None else Some(DegToRad(m.value))))
  }

  lemma OptionsRoundTrip(o: TrajectoryOptions)
    ensures DecodeOptions(EncodeOptions(o)) == Success(o)
  {
    if o.maxHeadingRate.Some? {
      DegreesRoundTrip(o.maxHeadingRate.value);
    }
  }

  // ---- Mission items ----

  function EncodeNavigation(id: string, w: Waypoint): Json {
    var fields := map[
      "type" := Str("navigation"), "navigationType" := Str("waypoint"), "frame" := Str("global"),
      "x" := Real(w.x), "y" := Real(w.y), "z" := Real(w.z)];
    Obj(if id == "" then fields else fields["id" := Str(id)])
  }

  function ActionHeader(id: string, name: string): Json {
    var fields := map["type" := Str(name)];
    Obj(if id == "" then fields else fields["id" := Str(id)])
  }

  /** The arguments are merged over the header; anything but null or an object is refused. */
  function EncodeAction(id: string, name: string, arguments: Json): Result<Json> {
    if arguments.Null? then Success(ActionHeader(id, name))
    else ActionHeader(id, name).Update(arguments)
  }

  function EncodeItem(item: MissionItem): Result<Json> {
    match item
    case NavigationItem(id, w) => Success(EncodeNavigation(id, w))
    case ActionItem(id, name, arguments) => EncodeAction(id, name, arguments)
  }

  function OptionalId(j: Json): Result<string> {
    if j.Contains("id") then j.members["id"].GetString() else Success("")
  }

  function DecodeWaypoint(j: Json): Result<Waypoint> {
    var frameField :- j.At("frame");
    var frame :- frameField.GetString();
    if frame != "global" then Failure else
    var xField :- j.At("x");
    var x :- xField.GetDouble();
    var yField :- j.At("y");
    var y :- yField.GetDouble();
    var zField :- j.At("z");
    var z :- zField.GetDouble();
    Success(Waypoint(x, y, z))
  }

  function DecodeNavigation(j: Json): Result<MissionItem> {
    var id :- OptionalId(j);
    var kindField :- j.At("navigationType");
    var kind :- kindField.GetString();
    if kind != "waypoint" then Failure else
    var w :- DecodeWaypoint(j);
    Success(NavigationItem(id, w))
  }

  /** The whole object becomes the arguments of the action. */
  function DecodeAction(j: Json): Result<MissionItem> {
    var nameField :- j.At("type");
    var name :- nameField.GetString();
    var id :- OptionalId(j);
    Success(ActionItem(id, name, j))
  }

  function DecodeItem(j: Json): Result<MissionItem> {
    var kindField :- j.At("type");
    var kind :- kindField.GetString();
    if kind == "navigation" then DecodeNavigation(j) else DecodeAction(j)
  }

  // ---- Missions ----

  function EncodeMission(m: Mission): Result<Json> {
    var items :- MapAll(EncodeItem, m.items);
    Success(Obj(map[
      "version" := Int(1),
      "mission" := Obj(map["defaults" := EncodeOptions(m.defaults), "items" := Arr(items)])]))
  }

  function DecodeMission(j: Json): Result<Mission> {
    var versionField :- j.At("version");
    var version :- versionField.GetInt();
    if version != 1 then Failure else
    var body :- j.At("mission");
    var defaults :- if body.Contains("defaults") then DecodeOptions(body.members["defaults"]) else Success(NoOptions);
    var itemsField :- body.At("items");
    var items :- MapAll(DecodeItem, itemsField.Elements());
    Success(Mission(defaults, items))
  }

  /** Converts the items one by one, as the serializer does. */
  method ToJson(m: Mission) returns (r: Result<Json>)
    ensures r == EncodeMission(m)
  {
    var items := ConvertAll(EncodeItem, m.items);
    if items.Failure? {
      return Failure;
    }
    r := Success(Obj(map[
      "version" := Int(1),
      "mission" := Obj(map["defaults" := EncodeOptions(m.defaults), "items" := Arr(items.value)])]));
  }

  /** Reads the fields and then the items one by one, as the parser does. */
  method FromJson(j: Json) returns (r: Result<Mission>)
    ensures r == DecodeMission(j)
  {
    var versionField := j.At("version");
    if versionField.Failure? || versionField.value.GetInt() != Success(1) {
      return Failure;
    }
    var body := j.At("mission");
    if body.Failure? {
      return Failure;
    }
    var defaults := NoOptions;
    if body.value.Contains("defaults") {
      var decoded := DecodeOptions(body.value.members["defaults"]);
      if decoded.Failure? {
        return Failure;
      }
      defaults := decoded.value;
    }
    var itemsField := body.value.At("items");
    if itemsField.Failure? {
      return Failure;
    }
    var items := ConvertAll(DecodeItem, itemsField.value.Elements());
    if items.Failure? {
      return Failure;
    }
    r := Success(Mission(defaults, items.value));
  }

  // ---- What survives a round trip ----

  /** The same item, up to action arguments that serialize alike. */
  ghost predicate SameItem(a: MissionItem, b: MissionItem) {
    if a.NavigationItem? then a == b
    else b.ActionItem? && b.id == a.id && b.name == a.name && EncodeItem(b) == EncodeItem(a)
  }

  ghost predicate SameMission(a: Mission, b: Mission) {
    && a.defaults == b.defaults
    && |a.items| == |b.items|
    && forall i :: 0 <= i < |a.items| ==> SameItem(a.items[i], b.items[i])
  }

  /** An action whose name is not the reserved one and whose arguments do not contradict its header. */
  predicate Unambiguous(item: MissionItem) {
    item.ActionItem? ==>
      && item.name != "navigation"
      && (item.arguments.Contains("type") ==> item.arguments.members["type"] == Str(item.name))
      && (item.arguments.Contains("id") ==> item.arguments.members["id"] == Str(item.id))
  }

  lemma NavigationRoundTrip(id: string, w: Waypoint)
    ensures DecodeItem(EncodeNavigation(id, w)) == Success(NavigationItem(id, w))
  {
    var j := EncodeNavigation(id, w);
    assert j.members["type"] == Str("navigation") && j.members["navigationType"] == Str("waypoint");
    assert j.members["frame"] == Str("global");
    assert j.members["x"] == Real(w.x) && j.members["y"] == Real(w.y) && j.members["z"] == Real(w.z);
    assert j.Contains("id") <==> id != "";
  }

  /** Merging the arguments over the header: what the two header fields become. */
  lemma MergedHeader(id: string, name: string, arguments: Json, j: Json)
    requires EncodeAction(id, name, arguments) == Success(j)
    ensures j.Obj? && "type" in j.members
    ensures j.members["type"] == if arguments.Contains("type") then arguments.members["type"] else Str(name)
    ensures j.Contains("id") <==> (arguments.Contains("id") || id != "")
    ensures j.Contains("id") ==> j.members["id"] == if arguments.Contains("id") then arguments.members["id"]
      else Str(id)
  {
  }

  lemma HeaderAbsorbed(id: string, name: string, arguments: Json, j: Json)
    requires EncodeAction(id, name, arguments) == Success(j)
    ensures EncodeAction(id, name, j) == Success(j)
  {
    var header := ActionHeader(id, name).members;
    if arguments.Obj? {
      assert header + (header + arguments.members) == header + arguments.members;
    } else {
      assert header + header == header;
    }
  }

  lemma NavigationDecodesToNavigation(j: Json)
    ensures DecodeNavigation(j).Success? ==> DecodeNavigation(j).value.NavigationItem?
  {
  }

  /** One item survives exactly when it is unambiguous. */
  lemma ItemRoundTrip(item: MissionItem, j: Json)
    requires EncodeItem(item) == Success(j)
    ensures (DecodeItem(j).Success? && SameItem(item, DecodeItem(j).value)) <==> Unambiguous(item)
  {
    match item
    case NavigationItem(id, w) => NavigationRoundTrip(id, w);
    case ActionItem(_, _, _) =>
      assert (DecodeItem(j).Success? && SameItem(item, DecodeItem(j).value)) <==> Unambiguous(item) by {
        hide EncodeAction, DecodeNavigation;
        MergedHeader(item.id, item.name, item.arguments, j);
        HeaderAbsorbed(item.id, item.name, item.arguments, j);
        if DecodeItem(j).Success? && j.members["type"] == Str("navigation") {
          NavigationDecodesToNavigation(j);
        }
      }
  }

  lemma ItemsRoundTrip(items: seq<MissionItem>, js: seq<Json>)
    requires MapAll(EncodeItem, items) == Success(js)
    ensures (MapAll(DecodeItem, js).Success? && forall i :: 0 <= i < |items| ==>
      SameItem(items[i], MapAll(DecodeItem, js).value[i]))
       <==> forall i :: 0 <= i < |items| ==> Unambiguous(items[i])
  {
    hide EncodeItem, DecodeItem, SameItem, Unambiguous, MapAll;
    MapAllElements(EncodeItem, items);
    MapAllElements(DecodeItem, js);
    forall i | 0 <= i < |items|
      ensures (DecodeItem(js[i]).Success? && SameItem(items[i], DecodeItem(js[i]).value)) <==> Unambiguous(items[i])
    {
      ItemRoundTrip(items[i], js[i]);
    }
  }

  /** A mission that serializes comes back the same exactly when all its actions are unambiguous. */
  lemma MissionRoundTrip(m: Mission, j: Json)
    requires EncodeMission(m) == Success(j)
    ensures (DecodeMission(j).Success? && SameMission(m, DecodeMission(j).value))
       <==> forall i :: 0 <= i < |m.items| ==> Unambiguous(m.items[i])
  {
    hide EncodeItem, DecodeItem, SameItem, Unambiguous, MapAll, EncodeOptions, DecodeOptions;
    OptionsRoundTrip(m.defaults);
    ItemsRoundTrip(m.items, MapAll(EncodeItem, m.items).value);
  }

  lemma ReservedItem(id: string)
    ensures EncodeItem(ActionItem(id, "navigation", Null)) == Success(ActionHeader(id, "navigation"))
    ensures DecodeItem(ActionHeader(id, "navigation")).Failure?
  {
    hide EncodeNavigation;
  }

  /** A mission with an action of the reserved name cannot be read again, though it serializes if the others do. */
  lemma ReservedNameIsLost(m: Mission, i: nat)
    requires i < |m.items| && m.items[i] == ActionItem(m.items[i].id, "navigation", Null)
    ensures |m.items| == 1 ==> EncodeMission(m).Success?
    ensures EncodeMission(m).Success? ==> DecodeMission(EncodeMission(m).value).Failure?
  {
    hide MapAll, EncodeItem, DecodeItem, DecodeOptions, EncodeOptions;
    var items := MapAll(EncodeItem, m.items);
    ReservedItem(m.items[i].id);
    MapAllElements(EncodeItem, m.items);
    if items.Success? {
      MapAllElements(DecodeItem, items.value);
      assert DecodeItem(items.value[i]).Failure?;
    }
  }

  /** An action whose arguments name another type comes back as that action: a hold as a landing. */
  lemma OwnTypeWins(item: MissionItem, name: string)
    requires item.ActionItem? && item.arguments.Contains("type") && item.arguments.members["type"] == Str(name)
    requires !item.arguments.Contains("id") && name != "navigation"
    ensures EncodeItem(item).Success?
    ensures DecodeItem(EncodeItem(item).value) == Success(ActionItem(item.id, name, EncodeItem(item).value))
  {
    hide DecodeNavigation;
    MergedHeader(item.id, item.name, item.arguments, EncodeItem(item).value);
  }

  /** The exact condition for a mission to serialize at all. */
  lemma SerializableIff(m: Mission)
    ensures EncodeMission(m).Success? <==>
            forall i :: 0 <= i < |m.items| && m.items[i].ActionItem? ==>
              m.items[i].arguments.Null? || m.items[i].arguments.Obj?
  {
    MapAllElements(EncodeItem, m.items);
    forall i | 0 <= i < |m.items|
      ensures EncodeItem(m.items[i]).Success? <==>
        (m.items[i].ActionItem? ==> m.items[i].arguments.Null? || m.items[i].arguments.Obj?)
    {
    }
  }

  lemma {:induction false} SameConversions<A, B>(f: A -> Result<B>, a: seq<A>, b: seq<A>)
    requires |a| == |b| && forall i :: 0 <= i < |a| ==> f(a[i]) == f(b[i])
    ensures MapAll(f, a) == MapAll(f, b)
  {
    if a != [] {
      SameConversions(f, a[..|a| - 1], b[..|b| - 1]);
    }
  }

  /** The checksum is a hash of the JSON form; a mission that does not serialize has the empty one. */
  function Checksum(hash: Json -> string, m: Mission): string {
    match EncodeMission(m)
    case Success(j) => hash(j)
    case Failure => ""
  }

  /** Reloading a mission from its JSON form keeps its checksum, whatever the hash. */
  lemma ReloadKeepsChecksum(hash: Json -> string, m: Mission, j: Json)
    requires EncodeMission(m) == Success(j)
    requires forall i :: 0 <= i < |m.items| ==> Unambiguous(m.items[i])
    ensures DecodeMission(j).Success? && Checksum(hash, DecodeMission(j).value) == Checksum(hash, m)
  {
    hide DecodeItem;
    MissionRoundTrip(m, j);
    assert MapAll(EncodeItem, m.items) == MapAll(EncodeItem, DecodeMission(j).value.items) by {
      assert forall i :: 0 <= i < |m.items| ==> EncodeItem(m.items[i]) == EncodeItem(DecodeMission(j).value.items[i]);
      SameConversions(EncodeItem, m.items, DecodeMission(j).value.items);
    }
  }
}
