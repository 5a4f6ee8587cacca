/** The settings facade (UserSettingsUseCase.cs): the character, the audio
    settings and a dirty flag, the update operations the pages call, and
    initialise / save / reset / delete over the repository. */
module SettingsUseCase {
  import opened Results
  import opened Numeric
  import C = CharacterModel
  import A = AudioModel
  import R = SettingsRepository

  datatype BodyPart = RightHand | LeftHand | RightFoot | LeftFoot

  function ColorOf(c: C.Character, part: BodyPart): C.Color {
    match part
    case RightHand => c.rightHandColor
    case LeftHand => c.leftHandColor
    case RightFoot => c.rightFootColor
    case LeftFoot => c.leftFootColor
  }

  /** Everything the use case owns: both domain objects and the flag that
      says the in-memory settings may differ from the file. */
  datatype SettingsState = SettingsState(character: C.Character, audio: A.AudioSettings, isDirty: bool)

  predicate Valid(s: SettingsState) {
    C.Valid(s.character) && A.Valid(s.audio)
  }

  /** Dirty tracking as every update keeps it: a dirty state stays dirty,
      and a change to any field leaves the state dirty. */
  ghost predicate TracksChanges(s: SettingsState, r: SettingsState) {
    (s.isDirty || r.character != s.character || r.audio != s.audio) ==> r.isDirty
  }

  /** The contract shared by all update operations. */
  ghost predicate Updated(s: SettingsState, r: SettingsState) {
    TracksChanges(s, r) && (Valid(s) ==> Valid(r))
  }

  /** The subscriptions' callback: raise the flag, touch nothing else. */
  function MarkDirty(s: SettingsState): (r: SettingsState)
    ensures r.isDirty
    ensures r.character == s.character && r.audio == s.audio
  {
    s.(isDirty := true)
  }

  /** Installs new domain values. Each of the twelve fields is observed by a
      subscription that calls `MarkDirty` when the field publishes a write;
      a write that leaves the value as it was publishes nothing, so the flag
      is raised exactly when some field changed. */
  function Commit(s: SettingsState, c: C.Character, a: A.AudioSettings): (r: SettingsState)
    ensures r.character == c && r.audio == a
    ensures TracksChanges(s, r)
    ensures !s.isDirty && c == s.character && a == s.audio ==> !r.isDirty
  {
    var next := s.(character := c, audio := a);
    if c != s.character || a != s.audio then MarkDirty(next) else next
  }

  /** Construction: the flag starts false, then subscribing replays each
      field's current value into `MarkDirty`, so a new use case is already
      dirty. */
  function Create(c: C.Character, a: A.AudioSettings): (s: SettingsState)
    ensures s.character == c && s.audio == a
    ensures s.isDirty
  {
    MarkDirty(SettingsState(c, a, false))
  }

  // ----- character updates -----

  function UpdateRightHandColor(s: SettingsState, color: C.Color): (r: SettingsState)
    ensures r.character == C.SetRightHandColor(s.character, color) && r.audio == s.audio
    ensures Updated(s, r)
  {
    Commit(s, C.SetRightHandColor(s.character, color), s.audio)
  }

  function UpdateLeftHandColor(s: SettingsState, color: C.Color): (r: SettingsState)
    ensures r.character == C.SetLeftHandColor(s.character, color) && r.audio == s.audio
    ensures Updated(s, r)
  {
    Commit(s, C.SetLeftHandColor(s.character, color), s.audio)
  }

  function UpdateRightFootColor(s: SettingsState, color: C.Color): (r: SettingsState)
    ensures r.character == C.SetRightFootColor(s.character, color) && r.audio == s.audio
    ensures Updated(s, r)
  {
    Commit(s, C.SetRightFootColor(s.character, color), s.audio)
  }

  function UpdateLeftFootColor(s: SettingsState, color: C.Color): (r: SettingsState)
    ensures r.character == C.SetLeftFootColor(s.character, color) && r.audio == s.audio
    ensures Updated(s, r)
  {
    Commit(s, C.SetLeftFootColor(s.character, color), s.audio)
  }

  function UpdateHeadScale(s: SettingsState, scale: real): (r: SettingsState)
    ensures r.character == C.SetHeadScale(s.character, scale) && r.audio == s.audio
    ensures Updated(s, r)
  {
    Commit(s, C.SetHeadScale(s.character, scale), s.audio)
  }

  function UpdateFootScale(s: SettingsState, scale: real): (r: SettingsState)
    ensures r.character == C.SetFootScale(s.character, scale) && r.audio == s.audio
    ensures Updated(s, r)
  {
    Commit(s, C.SetFootScale(s.character, scale), s.audio)
  }

  function IncreaseHeadScale(s: SettingsState): (r: SettingsState)
    ensures r.character == C.IncreaseHeadScale(s.character) && r.audio == s.audio
    ensures Valid(s) && s.character.headScale < C.MaxScale
            ==> r.character.headScale == s.character.headScale + C.ScaleStep && r.isDirty
    ensures Valid(s) && s.character.headScale == C.MaxScale ==> r == s
    ensures Updated(s, r)
  {
    Commit(s, C.IncreaseHeadScale(s.character), s.audio)
  }

  function DecreaseHeadScale(s: SettingsState): (r: SettingsState)
    ensures r.character == C.DecreaseHeadScale(s.character) && r.audio == s.audio
    ensures Valid(s) && s.character.headScale > C.MinScale
            ==> r.character.headScale == s.character.headScale - C.ScaleStep && r.isDirty
    ensures Valid(s) && s.character.headScale == C.MinScale ==> r == s
    ensures Updated(s, r)
  {
    Commit(s, C.DecreaseHeadScale(s.character), s.audio)
  }

  function IncreaseFootScale(s: SettingsState): (r: SettingsState)
    ensures r.character == C.IncreaseFootScale(s.character) && r.audio == s.audio
    ensures Valid(s) && s.character.footScale < C.MaxScale
            ==> r.character.footScale == s.character.footScale + C.ScaleStep && r.isDirty
    ensures Valid(s) && s.character.footScale == C.MaxScale ==> r == s
    ensures Updated(s, r)
  {
    Commit(s, C.IncreaseFootScale(s.character), s.audio)
  }

  function DecreaseFootScale(s: SettingsState): (r: SettingsState)
    ensures r.character == C.DecreaseFootScale(s.character) && r.audio == s.audio
    ensures Valid(s) && s.character.footScale > C.MinScale
            ==> r.character.footScale == s.character.footScale - C.ScaleStep && r.isDirty
    ensures Valid(s) && s.character.footScale == C.MinScale ==> r == s
    ensures Updated(s, r)
  {
    Commit(s, C.DecreaseFootScale(s.character), s.audio)
  }

  /** Sets the colour of the chosen body part and nothing else. */
  function UpdateBodyPartColor(s: SettingsState, part: BodyPart, color: C.Color): (r: SettingsState)
    ensures ColorOf(r.character, part) == color
    ensures forall p :: p != part ==> ColorOf(r.character, p) == ColorOf(s.character, p)
    ensures r.character.headScale == s.character.headScale && r.character.footScale == s.character.footScale
    ensures r.audio == s.audio
    ensures Updated(s, r)
  {
    match part
    case RightHand => UpdateRightHandColor(s, color)
    case LeftHand => UpdateLeftHandColor(s, color)
    case RightFoot => UpdateRightFootColor(s, color)
    case LeftFoot => UpdateLeftFootColor(s, color)
  }

  /** One colour for both hands, one for both feet, and both scales through
      the quantising setters. */
  function UpdateCharacterSettings(s: SettingsState, handColor: C.Color, footColor: C.Color,
                                   headScale: real, footScale: real): (r: SettingsState)
    ensures ColorOf(r.character, RightHand) == handColor && ColorOf(r.character, LeftHand) == handColor
    ensures ColorOf(r.character, RightFoot) == footColor && ColorOf(r.character, LeftFoot) == footColor
    ensures C.QuantisedFrom(headScale, r.character.headScale)
    ensures C.QuantisedFrom(footScale, r.character.footScale)
    ensures C.Valid(r.character)
    ensures r.audio == s.audio
    ensures Updated(s, r)
  {
    var hands := C.SetLeftHandColor(C.SetRightHandColor(s.character, handColor), handColor);
    var feet := C.SetLeftFootColor(C.SetRightFootColor(hands, footColor), footColor);
    var scaled := C.SetFootScale(C.SetHeadScale(feet, headScale), footScale);
    Commit(s, scaled, s.audio)
  }

  // ----- audio updates -----

  function UpdateBgmVolume(s: SettingsState, volume: real): (r: SettingsState)
    ensures r.audio == A.SetBgmVolume(s.audio, volume) && r.character == s.character
    ensures Updated(s, r)
  {
    Commit(s, s.character, A.SetBgmVolume(s.audio, volume))
  }

  function UpdateSeVolume(s: SettingsState, volume: real): (r: SettingsState)
    ensures r.audio == A.SetSeVolume(s.audio, volume) && r.character == s.character
    ensures Updated(s, r)
  {
    Commit(s, s.character, A.SetSeVolume(s.audio, volume))
  }

  function UpdateVoiceVolume(s: SettingsState, volume: real): (r: SettingsState)
    ensures r.audio == A.SetVoiceVolume(s.audio, volume) && r.character == s.character
    ensures Updated(s, r)
  {
    Commit(s, s.character, A.SetVoiceVolume(s.audio, volume))
  }

  function UpdateBgmMute(s: SettingsState, muted: bool): (r: SettingsState)
    ensures r.audio == A.SetBgmMute(s.audio, muted) && r.character == s.character
    ensures Updated(s, r)
  {
    Commit(s, s.character, A.SetBgmMute(s.audio, muted))
  }

  function UpdateSeMute(s: SettingsState, muted: bool): (r: SettingsState)
    ensures r.audio == A.SetSeMute(s.audio, muted) && r.character == s.character
    ensures Updated(s, r)
  {
    Commit(s, s.character, A.SetSeMute(s.audio, muted))
  }

  function UpdateVoiceMute(s: SettingsState, muted: bool): (r: SettingsState)
    ensures r.audio == A.SetVoiceMute(s.audio, muted) && r.character == s.character
    ensures Updated(s, r)
  {
    Commit(s, s.character, A.SetVoiceMute(s.audio, muted))
  }

  function ToggleBgmMute(s: SettingsState): (r: SettingsState)
    ensures r.audio == A.ToggleBgmMute(s.audio) && r.character == s.character
    ensures A.IsMuted(r.audio, A.Bgm) != A.IsMuted(s.audio, A.Bgm)
    ensures forall ch :: ch != A.Bgm ==> A.IsMuted(r.audio, ch) == A.IsMuted(s.audio, ch)
    ensures r.isDirty
    ensures Valid(s) ==> Valid(r)
  {
    Commit(s, s.character, A.ToggleBgmMute(s.audio))
  }

  function ToggleSeMute(s: SettingsState): (r: SettingsState)
    ensures r.audio == A.ToggleSeMute(s.audio) && r.character == s.character
    ensures A.IsMuted(r.audio, A.Se) != A.IsMuted(s.audio, A.Se)
    ensures forall ch :: ch != A.Se ==> A.IsMuted(r.audio, ch) == A.IsMuted(s.audio, ch)
    ensures r.isDirty
    ensures Valid(s) ==> Valid(r)
  {
    Commit(s, s.character, A.ToggleSeMute(s.audio))
  }

  function ToggleVoiceMute(s: SettingsState): (r: SettingsState)
    ensures r.audio == A.ToggleVoiceMute(s.audio) && r.character == s.character
    ensures A.IsMuted(r.audio, A.Voice) != A.IsMuted(s.audio, A.Voice)
    ensures forall ch :: ch != A.Voice ==> A.IsMuted(r.audio, ch) == A.IsMuted(s.audio, ch)
    ensures r.isDirty
    ensures Valid(s) ==> Valid(r)
  {
    Commit(s, s.character, A.ToggleVoiceMute(s.audio))
  }

  function ToggleAllMute(s: SettingsState): (r: SettingsState)
    ensures r.audio == A.ToggleAllMute(s.audio) && r.character == s.character
    ensures forall ch :: A.IsMuted(r.audio, ch) <==> forall c :: !A.IsMuted(s.audio, c)
    ensures forall ch :: A.Volume(r.audio, ch) == A.Volume(s.audio, ch)
    ensures r.isDirty
    ensures Valid(s) ==> Valid(r)
  {
    Commit(s, s.character, A.ToggleAllMute(s.audio))
  }

  /** Sets the volume of the chosen channel, clamped, and nothing else. */
  function UpdateAudioVolume(s: SettingsState, channel: A.AudioChannel, volume: real): (r: SettingsState)
    ensures Clamped01(volume, A.Volume(r.audio, channel))
    ensures forall ch :: ch != channel ==> A.Volume(r.audio, ch) == A.Volume(s.audio, ch)
    ensures forall ch :: A.IsMuted(r.audio, ch) == A.IsMuted(s.audio, ch)
    ensures r.character == s.character
    ensures Updated(s, r)
  {
    match channel
    case Bgm => UpdateBgmVolume(s, volume)
    case Se => UpdateSeVolume(s, volume)
    case Voice => UpdateVoiceVolume(s, volume)
  }

  /** Sets the mute flag of the chosen channel and nothing else. */
  function UpdateAudioMute(s: SettingsState, channel: A.AudioChannel, muted: bool): (r: SettingsState)
    ensures A.IsMuted(r.audio, channel) == muted
    ensures forall ch :: ch != channel ==> A.IsMuted(r.audio, ch) == A.IsMuted(s.audio, ch)
    ensures forall ch :: A.Volume(r.audio, ch) == A.Volume(s.audio, ch)
    ensures r.character == s.character
    ensures Updated(s, r)
  {
    match channel
    case Bgm => UpdateBgmMute(s, muted)
    case Se => UpdateSeMute(s, muted)
    case Voice => UpdateVoiceMute(s, muted)
  }

  /** All six audio fields at once: volumes clamped, flags as given. */
  function UpdateAudioSettings(s: SettingsState, bgmVolume: real, seVolume: real, voiceVolume: real,
                               isBgmMuted: bool, isSeMuted: bool, isVoiceMuted: bool): (r: SettingsState)
    ensures Clamped01(bgmVolume, r.audio.bgmVolume)
    ensures Clamped01(seVolume, r.audio.seVolume)
    ensures Clamped01(voiceVolume, r.audio.voiceVolume)
    ensures r.audio.isBgmMuted == isBgmMuted && r.audio.isSeMuted == isSeMuted
    ensures r.audio.isVoiceMuted == isVoiceMuted
    ensures A.Valid(r.audio)
    ensures r.character == s.character
    ensures Updated(s, r)
  {
    var volumes := A.SetVoiceVolume(A.SetSeVolume(A.SetBgmVolume(s.audio, bgmVolume), seVolume), voiceVolume);
    var muted := A.SetVoiceMute(A.SetSeMute(A.SetBgmMute(volumes, isBgmMuted), isSeMuted), isVoiceMuted);
    Commit(s, s.character, muted)
  }

  /** One volume, clamped, for every channel; the mute flags stay. */
  function UpdateAllVolumes(s: SettingsState, volume: real): (r: SettingsState)
    ensures forall ch :: Clamped01(volume, A.Volume(r.audio, ch))
    ensures forall ch :: A.IsMuted(r.audio, ch) == A.IsMuted(s.audio, ch)
    ensures A.Valid(r.audio)
    ensures r.character == s.character
    ensures Updated(s, r)
  {
    var volumes := A.SetVoiceVolume(A.SetSeVolume(A.SetBgmVolume(s.audio, volume), volume), volume);
    Commit(s, s.character, volumes)
  }

  // ----- persistence -----

  /** The state and the file after an operation that talks to the
      repository, and whether that operation threw. */
  datatype Step = Step(state: SettingsState, file: Option<string>, outcome: Outcome)

  /** Loads the record and applies it through both `FromData`s, so stored
      scales and volumes are normalised again, then clears the flag. The
      repository never fails a load, so this never fails either, and every
      field is overwritten: the result does not depend on `s`. */
  function Initialize(s: SettingsState, file: Option<string>, read: Outcome, codec: R.Codec, now: int)
    : (r: SettingsState)
    ensures var d := R.Load(file, read, codec, now);
            r.character == C.FromData(d.character) && r.audio == A.FromData(d.audio)
    ensures Valid(r) && !r.isDirty
    ensures R.Load(file, read, codec, now) == R.CreateDefaultSettings(now)
            ==> r.character == C.Initial && r.audio == A.Initial
  {
    var userData := R.Load(file, read, codec, now);
    var restored := Commit(s, C.FromData(userData.character), A.FromData(userData.audio));
    restored.(isDirty := false)
  }

  /** The record a save hands to the repository. */
  function Snapshot(s: SettingsState, now: int): (d: R.UserSettingsData)
    ensures d.character == C.ToData(s.character) && d.audio == A.ToData(s.audio)
    ensures d.version == R.CurrentVersion && d.lastSavedAt == now
    ensures Valid(s) ==> C.FromData(d.character) == s.character && A.FromData(d.audio) == s.audio
  {
    R.UserSettingsData(C.ToData(s.character), A.ToData(s.audio), R.CurrentVersion, now)
  }

  /** Writes the snapshot; on success the flag is cleared, on failure the
      state is untouched and the failure is passed on. */
  function Save(s: SettingsState, file: Option<string>, codec: R.Codec, now: int, write: Outcome): (r: Step)
    ensures r.outcome == write
    ensures r.state.character == s.character && r.state.audio == s.audio
    ensures write.Pass? ==> !r.state.isDirty && r.file == Some(codec.serialize(Snapshot(s, now)))
    ensures write.Fail? ==> r.state == s && r.file == file
  {
    var userData := Snapshot(s, now);
    var written := R.Save(file, userData, codec, now, write);
    if written.outcome.Pass? then Step(s.(isDirty := false), written.file, written.outcome)
    else Step(s, written.file, written.outcome)
  }

  /** Resets both domain objects, then saves. The reset stays in memory
      whether or not the save succeeds; only a successful save clears the
      flag, and a failed one is passed on. */
  function ResetToDefault(s: SettingsState, file: Option<string>, codec: R.Codec, now: int, write: Outcome)
    : (r: Step)
    ensures r.state.character == C.Initial && r.state.audio == A.Initial
    ensures r.outcome == write
    ensures write.Pass? ==> !r.state.isDirty && r.file == Some(codec.serialize(R.CreateDefaultSettings(now)))
    ensures write.Fail? ==> r.file == file && TracksChanges(s, r.state)
  {
    var reset := Commit(s, C.ResetToDefault(s.character), A.ResetToDefault(s.audio));
    Save(reset, file, codec, now, write)
  }

  /** Deletes the file, then resets both domain objects and clears the
      flag. A failed delete is passed on before anything is reset. */
  function DeleteSettings(s: SettingsState, file: Option<string>, delete: Outcome): (r: Step)
    ensures file.None? ==> r.outcome == Pass
    ensures file.Some? ==> r.outcome == delete
    ensures r.outcome.Pass? ==> r.state == SettingsState(C.Initial, A.Initial, false) && r.file.None?
    ensures r.outcome.Fail? ==> r.state == s && r.file == file
  {
    var deleted := R.Delete(file, delete);
    if deleted.outcome.Fail? then Step(s, deleted.file, deleted.outcome)
    else
      var reset := Commit(s, C.ResetToDefault(s.character), A.ResetToDefault(s.audio));
      Step(reset.(isDirty := false), deleted.file, deleted.outcome)
  }

  datatype SettingsSummary = SettingsSummary(
    fileExists: bool,
    fileSize: nat,
    isDirty: bool,
    characterData: C.CharacterData,
    audioData: A.AudioSettingsData)

  /** A read-only report: file presence and size, the flag, and snapshots of
      both domain objects from which they can be restored. */
  function GetSummary(s: SettingsState, file: Option<string>, byteLength: string -> nat): (r: SettingsSummary)
    ensures r.fileExists <==> file.Some?
    ensures !r.fileExists ==> r.fileSize == 0
    ensures r.fileSize == R.GetFileSize(file, byteLength)
    ensures r.isDirty == s.isDirty
    ensures r.characterData == C.ToData(s.character) && r.audioData == A.ToData(s.audio)
    ensures Valid(s) ==> C.FromData(r.characterData) == s.character && A.FromData(r.audioData) == s.audio
  {
    SettingsSummary(
      R.Exists(file),
      R.GetFileSize(file, byteLength),
      s.isDirty,
      C.ToData(s.character),
      A.ToData(s.audio))
  }

  // ----- properties across operations -----

  /** A successful save followed by an initialisation, with any state and
      at any later time, restores exactly the saved settings. */
  lemma SaveThenInitializeRestores(s: SettingsState, t: SettingsState, file: Option<string>,
                                   codec: R.Codec, now: int, later: int)
    requires Valid(s) && R.RoundTrips(codec, Snapshot(s, now))
    ensures var saved := Save(s, file, codec, now, Pass);
            var r := Initialize(t, saved.file, Pass, codec, later);
            !saved.state.isDirty && r == saved.state
  {
  }

  /** Without a settings file, initialisation yields the same state as a
      freshly constructed character and audio settings, and clean. */
  lemma InitializeWithoutFile(s: SettingsState, read: Outcome, codec: R.Codec, now: int)
    ensures Initialize(s, None, read, codec, now) == SettingsState(C.Initial, A.Initial, false)
  {
  }

  /** After a successful delete the memory and a fresh initialisation agree. */
  lemma DeleteThenInitialize(s: SettingsState, t: SettingsState, file: Option<string>, delete: Outcome,
                             read: Outcome, codec: R.Codec, now: int)
    requires DeleteSettings(s, file, delete).outcome.Pass?
    ensures var d := DeleteSettings(s, file, delete);
            Initialize(t, d.file, read, codec, now) == d.state
  {
  }

  /** After a reset the summary shows exactly the default record's data,
      and a successful reset leaves a file and a clean state. */
  lemma ResetThenSummary(s: SettingsState, file: Option<string>, codec: R.Codec, now: int,
                         write: Outcome, byteLength: string -> nat)
    ensures var r := ResetToDefault(s, file, codec, now, write);
            var summary := GetSummary(r.state, r.file, byteLength);
            && summary.characterData == R.CreateDefaultSettings(now).character
            && summary.audioData == R.CreateDefaultSettings(now).audio
            && (write.Pass? ==> summary.fileExists && !summary.isDirty)
  {
  }
}
