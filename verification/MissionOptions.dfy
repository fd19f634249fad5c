/** The action that changes the settings: what it does to the options in force and to what is stored, read off its
    arguments. */
module MissionOptions {
  import opened Wrappers
  import opened JsonValues
  import opened Missions
  import opened PersistentStates
  import opened MissionTypes
  import opened MissionSteps
  import opened MissionEffects
  import opened MissionReading

  /** What the arguments make of a setting: the number that they give, or what it was. */
  predicate Becomes(arguments: Json, key: string, before: Option<real>, now: Option<real>) {
    if Lacks(arguments, key) then now == before
    else now.Some? && SettingOf(arguments.members[key]) == now
  }

  /** The heading rate is given in degrees per second. */
  predicate Turns(arguments: Json, before: Option<real>, now: Option<real>) {
    if Lacks(arguments, "maxHeadingRate") then now == before
    else
      && SettingOf(arguments.members["maxHeadingRate"]).Some?
      && now == Some(SettingOf(arguments.members["maxHeadingRate"]).value * (3.14159265358979323846 / 180.0))
  }

  predicate Changes(arguments: Json, before: TrajectoryOptions, now: TrajectoryOptions) {
    && Becomes(arguments, "horizontalVelocity", before.horizontalVelocity, now.horizontalVelocity)
    && Becomes(arguments, "verticalVelocity", before.verticalVelocity, now.verticalVelocity)
    && Turns(arguments, before.maxHeadingRate, now.maxHeadingRate)
  }

  /** A reset is asked for, or not; anything but a boolean says neither. */
  predicate Resets(arguments: Json) {
    Has(arguments, "resetAll", Bool(true))
  }

  predicate Keeps(arguments: Json) {
    Lacks(arguments, "resetAll") || Has(arguments, "resetAll", Bool(false))
  }

  /** The new options are stored, and their entry takes the place of the one before. */
  function Stored(s: State, now: TrajectoryOptions): State {
    var p, entry := s.persistent, ActionState("changeSettings", EncodeOptions(now));
    Released(s.(options := now, nextActionId := s.nextActionId + 1,
                persistent := p.(continuousActions := p.continuousActions[s.nextActionId := entry])))
      .(settingsKeeper := Some(s.nextActionId))
  }

  // ---- What the arguments are read as ----

  lemma ResetIsRead(arguments: Json)
    ensures ResetsAll(arguments) == Success(true) <==> Resets(arguments)
    ensures ResetsAll(arguments) == Success(false) <==> Keeps(arguments)
  {
  }

  lemma ChangeIsRead(before: TrajectoryOptions, arguments: Json, now: TrajectoryOptions)
    ensures Changes(arguments, before, now) ==>
      MergedOptions(before, arguments).Success? &&
      before.CombinedWith(MergedOptions(before, arguments).value) == now == MergedOptions(before, arguments).value
    ensures MergedOptions(before, arguments) == Success(now) ==> Changes(arguments, before, now)
  {
  }

  lemma StoredIs(s: State, now: TrajectoryOptions)
    requires s.options.CombinedWith(now) == now
    ensures StoreSettings(s, now) == Stored(s, now)
  {
    hide SamePlace, Store.Settled, TrajectoryOptions.CombinedWith, EncodeOptions, Released;
    var entry := ActionState("changeSettings", EncodeOptions(now));
    DropReleases(AddContinuousAction(s.(options := now), entry));
  }

  // ---- Every run of the action ----

  /** A reset: the options are the defaults of the mission, and no settings are stored for it. */
  lemma SettingsAreReset(c: Setup, s: State, name: string, arguments: Json, done: Closure, answer: Answer)
    requires !s.crashed && s.control.Top() == Perform(name, arguments, done)
    requires name in c.actions && c.actions[name].ChangeSettings? && Resets(arguments)
    ensures Step(c, s, Internal(answer)) == Released(Goes(s, [Invoke(done)]).(options := s.mission.defaults))
    ensures Step(c, s, Internal(answer)).settingsKeeper == None
  {
    hide Step, SamePlace, SameButIndex, KeepsStore, KeepsSegment, StartsNoSettings, DropSettingsKeeper, MergedOptions,
      ResetsAll;
    PerformFrame(c, s, name, arguments, done, answer);
    GoesPopped(s);
    GoesPushed(s, Invoke(done));
    ResetIsRead(arguments);
    DropReleases(Goes(s, []).(options := s.mission.defaults));
  }

  /** A change: each setting that is given becomes that, the others stay, and all of them are stored. */
  lemma SettingsAreChanged(c: Setup, s: State, name: string, arguments: Json, done: Closure, answer: Answer,
                           now: TrajectoryOptions)
    requires !s.crashed && s.control.Top() == Perform(name, arguments, done)
    requires name in c.actions && c.actions[name].ChangeSettings? && Keeps(arguments)
    requires Changes(arguments, s.options, now)
    ensures Step(c, s, Internal(answer)) == Stored(Goes(s, [Invoke(done)]), now)
  {
    hide Step, SamePlace, SameButIndex, KeepsStore, KeepsSegment, StartsNoSettings, MergedOptions, ResetsAll, Changes,
      Stored, StoreSettings;
    PerformFrame(c, s, name, arguments, done, answer);
    GoesPopped(s);
    ResetIsRead(arguments);
    ChangeIsRead(s.options, arguments, now);
    StoredIs(Goes(s, []), now);
    StoredGoes(s, done, now);
  }

  lemma StoredGoes(s: State, done: Closure, now: TrajectoryOptions)
    requires s.control.stack != []
    ensures Stored(Goes(s, []), now).Push(Invoke(done)) == Stored(Goes(s, [Invoke(done)]), now)
  {
    hide Stored;
    StoredAside(s, Goes(s, []).control, now);
    StoredAside(s, Goes(s, [Invoke(done)]).control, now);
    assert Below(s) + [] + [Invoke(done)] == Below(s) + [Invoke(done)];
  }

  lemma StoredAside(s: State, k: Control, now: TrajectoryOptions)
    ensures Stored(s.(control := k), now) == Stored(s, now).(control := k)
  {
    hide EncodeOptions, Released;
    var p, entry := s.persistent, ActionState("changeSettings", EncodeOptions(now));
    var u := s.(options := now, nextActionId := s.nextActionId + 1,
                persistent := p.(continuousActions := p.continuousActions[s.nextActionId := entry]));
    ReleasedAside(u, k);
  }

  /** Anything else throws: a reset that is no boolean, or a setting that is no number. */
  lemma SettingsAreRefused(c: Setup, s: State, name: string, arguments: Json, done: Closure, answer: Answer)
    requires !s.crashed && s.control.Top() == Perform(name, arguments, done)
    requires name in c.actions && c.actions[name].ChangeSettings?
    requires !Resets(arguments) && !(Keeps(arguments) && exists now :: Changes(arguments, s.options, now))
    ensures Step(c, s, Internal(answer)) == Goes(s, []).(crashed := true)
  {
    hide Step, SamePlace, SameButIndex, KeepsStore, KeepsSegment, StartsNoSettings, MergedOptions, ResetsAll, Changes,
      StoreSettings;
    PerformFrame(c, s, name, arguments, done, answer);
    GoesPopped(s);
    ResetIsRead(arguments);
    var merged := MergedOptions(s.options, arguments);
    if merged.Success? {
      ChangeIsRead(s.options, arguments, merged.value);
    }
  }
}
