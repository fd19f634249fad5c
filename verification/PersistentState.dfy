/** The execution state that outlives a deactivation, and the file it is saved to. */
module PersistentStates {
  import opened Wrappers
  import opened JsonValues
  import opened OrderedMaps

  /** How to restore an action that keeps running in the background. */
  datatype ActionState = ActionState(name: string, arguments: Json)

  datatype PersistentState = PersistentState(
    currentIndex: Option<int>,
    missionChecksum: string,
    continuousActions: map<nat, ActionState>)

  function EncodeAction(a: ActionState): Json {
    Obj(map["name" := Str(a.name), "arguments" := a.arguments])
  }

  function DecodeAction(j: Json): Result<ActionState> {
    var nameField :- j.At("name");
    var name :- nameField.GetString();
    var arguments :- j.At("arguments");
    Success(ActionState(name, arguments))
  }

  function EncodeActions(actions: seq<ActionState>): seq<Json> {
    seq(|actions|, i requires 0 <= i < |actions| => EncodeAction(actions[i]))
  }

  function EncodeState(s: PersistentState): Json {
    var fields := map[
      "version" := Int(1),
      "actions" := Arr(EncodeActions(Values(s.continuousActions))),
      "checksum" := Str(s.missionChecksum)];
    Obj(match s.currentIndex
        case None => fields
        case Some(index) => fields["currentIndex" := Int(index)])
  }

  /** Reading the actions numbers them from zero. */
  function DecodeState(j: Json): Result<PersistentState> {
    var versionField :- j.At("version");
    var version :- versionField.GetInt();
    if version != 1 then Failure else
    var index :- (if !j.Contains("currentIndex") then Success(None) else
                  var i :- j.members["currentIndex"].GetInt();
                  Success(Some(i)));
    var actions :- if j.Contains("actions") then MapAll(DecodeAction, j.members["actions"].Elements()) else Success([]);
    var checksumField :- j.At("checksum");
    var checksum :- checksumField.GetString();
    Success(PersistentState(index, checksum, Renumbered(actions)))
  }

  lemma ActionsRoundTrip(actions: seq<ActionState>)
    ensures MapAll(DecodeAction, EncodeActions(actions)) == Success(actions)
  {
    MapAllIs(DecodeAction, EncodeActions(actions), actions);
  }

  /** Saving and loading keeps everything but the action ids, which restart from zero in the same order. */
  lemma StateRoundTrip(s: PersistentState)
    ensures DecodeState(EncodeState(s))
         == Success(s.(continuousActions := Renumbered(Values(s.continuousActions))))
  {
    hide MapAll, Values;
    ActionsRoundTrip(Values(s.continuousActions));
  }
}
