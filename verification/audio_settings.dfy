/** Audio settings (DemoAudioSettings.cs): three volumes clamped to [0, 1]
    on every write and three mute flags. */
module AudioModel {
  import opened Numeric

  datatype AudioChannel = Bgm | Se | Voice

  /** The live domain object: the current value of each of its six
      reactive properties. */
  datatype AudioSettings = AudioSettings(
    bgmVolume: real,
    seVolume: real,
    voiceVolume: real,
    isBgmMuted: bool,
    isSeMuted: bool,
    isVoiceMuted: bool)

  /** The serialisable transfer record; its volumes are whatever was stored,
      so they may lie outside [0, 1]. */
  datatype AudioSettingsData = AudioSettingsData(
    bgmVolume: real,
    seVolume: real,
    voiceVolume: real,
    isBgmMuted: bool,
    isSeMuted: bool,
    isVoiceMuted: bool)

  /** The invariant every operation keeps: volumes are clamped on write,
      never on read. */
  predicate Valid(a: AudioSettings) {
    && 0.0 <= a.bgmVolume <= 1.0
    && 0.0 <= a.seVolume <= 1.0
    && 0.0 <= a.voiceVolume <= 1.0
  }

  /** The values of the fields at construction. */
  const Initial: AudioSettings := AudioSettings(1.0, 1.0, 1.0, false, false, false)

  function Volume(a: AudioSettings, ch: AudioChannel): real {
    match ch
    case Bgm => a.bgmVolume
    case Se => a.seVolume
    case Voice => a.voiceVolume
  }

  function IsMuted(a: AudioSettings, ch: AudioChannel): bool {
    match ch
    case Bgm => a.isBgmMuted
    case Se => a.isSeMuted
    case Voice => a.isVoiceMuted
  }

  function SetBgmVolume(a: AudioSettings, v: real): (r: AudioSettings)
    ensures Clamped01(v, r.bgmVolume) && 0.0 <= r.bgmVolume <= 1.0
    ensures r.(bgmVolume := a.bgmVolume) == a
    ensures Valid(a) ==> Valid(r)
  {
    a.(bgmVolume := Clamp01(v))
  }

  function SetSeVolume(a: AudioSettings, v: real): (r: AudioSettings)
    ensures Clamped01(v, r.seVolume) && 0.0 <= r.seVolume <= 1.0
    ensures r.(seVolume := a.seVolume) == a
    ensures Valid(a) ==> Valid(r)
  {
    a.(seVolume := Clamp01(v))
  }

  function SetVoiceVolume(a: AudioSettings, v: real): (r: AudioSettings)
    ensures Clamped01(v, r.voiceVolume) && 0.0 <= r.voiceVolume <= 1.0
    ensures r.(voiceVolume := a.voiceVolume) == a
    ensures Valid(a) ==> Valid(r)
  {
    a.(voiceVolume := Clamp01(v))
  }

  function SetBgmMute(a: AudioSettings, muted: bool): (r: AudioSettings)
    ensures r.isBgmMuted == muted
    ensures r.(isBgmMuted := a.isBgmMuted) == a
  {
    a.(isBgmMuted := muted)
  }

  function SetSeMute(a: AudioSettings, muted: bool): (r: AudioSettings)
    ensures r.isSeMuted == muted
    ensures r.(isSeMuted := a.isSeMuted) == a
  {
    a.(isSeMuted := muted)
  }

  function SetVoiceMute(a: AudioSettings, muted: bool): (r: AudioSettings)
    ensures r.isVoiceMuted == muted
    ensures r.(isVoiceMuted := a.isVoiceMuted) == a
  {
    a.(isVoiceMuted := muted)
  }

  function ToggleBgmMute(a: AudioSettings): (r: AudioSettings)
    ensures r.isBgmMuted != a.isBgmMuted
    ensures r.(isBgmMuted := a.isBgmMuted) == a
  {
    a.(isBgmMuted := !a.isBgmMuted)
  }

  function ToggleSeMute(a: AudioSettings): (r: AudioSettings)
    ensures r.isSeMuted != a.isSeMuted
    ensures r.(isSeMuted := a.isSeMuted) == a
  {
    a.(isSeMuted := !a.isSeMuted)
  }

  function ToggleVoiceMute(a: AudioSettings): (r: AudioSettings)
    ensures r.isVoiceMuted != a.isVoiceMuted
    ensures r.(isVoiceMuted := a.isVoiceMuted) == a
  {
    a.(isVoiceMuted := !a.isVoiceMuted)
  }

  /** Toggling one channel's flag twice restores the settings. */
  lemma ToggleTwiceRestores(a: AudioSettings)
    ensures ToggleBgmMute(ToggleBgmMute(a)) == a
    ensures ToggleSeMute(ToggleSeMute(a)) == a
    ensures ToggleVoiceMute(ToggleVoiceMute(a)) == a
  {
  }

  /** If any channel is muted, unmute all; otherwise mute all. */
  function ToggleAllMute(a: AudioSettings): (r: AudioSettings)
    ensures (forall ch :: !IsMuted(a, ch)) ==> (forall ch :: IsMuted(r, ch))
    ensures (exists ch :: IsMuted(a, ch)) ==> (forall ch :: !IsMuted(r, ch))
    ensures forall ch :: Volume(r, ch) == Volume(a, ch)
  {
    var anyMuted := a.isBgmMuted || a.isSeMuted || a.isVoiceMuted;
    var newMuteState := !anyMuted;
    assert IsMuted(a, Bgm) || IsMuted(a, Se) || IsMuted(a, Voice) <==> anyMuted;
    a.(isBgmMuted := newMuteState, isSeMuted := newMuteState, isVoiceMuted := newMuteState)
  }

  /** Two whole-toggles bring a mixed state to all muted, and any uniform
      state back to itself. */
  lemma ToggleAllTwice(a: AudioSettings)
    ensures (exists ch :: IsMuted(a, ch)) ==> (forall ch :: IsMuted(ToggleAllMute(ToggleAllMute(a)), ch))
    ensures a.isBgmMuted == a.isSeMuted == a.isVoiceMuted ==> ToggleAllMute(ToggleAllMute(a)) == a
  {
  }

  /** The volume a channel actually plays at: silent while muted. */
  function GetEffectiveVolume(a: AudioSettings, ch: AudioChannel): (v: real)
    ensures IsMuted(a, ch) ==> v == 0.0
    ensures !IsMuted(a, ch) ==> v == Volume(a, ch)
    ensures Valid(a) ==> 0.0 <= v <= 1.0
  {
    match ch
    case Bgm => if a.isBgmMuted then 0.0 else a.bgmVolume
    case Se => if a.isSeMuted then 0.0 else a.seVolume
    case Voice => if a.isVoiceMuted then 0.0 else a.voiceVolume
  }

  /** Full volume and nothing muted: the same state freshly constructed
      settings have. */
  function ResetToDefault(a: AudioSettings): (r: AudioSettings)
    ensures r == Initial
    ensures Valid(r)
    ensures forall ch :: GetEffectiveVolume(r, ch) == 1.0
  {
    AudioSettings(1.0, 1.0, 1.0, false, false, false)
  }

  /** Volumes go back through the clamping setters, mute flags are copied,
      so any record yields valid settings. */
  function FromData(d: AudioSettingsData): (a: AudioSettings)
    ensures Valid(a)
    ensures Clamped01(d.bgmVolume, a.bgmVolume)
    ensures Clamped01(d.seVolume, a.seVolume)
    ensures Clamped01(d.voiceVolume, a.voiceVolume)
    ensures a.isBgmMuted == d.isBgmMuted && a.isSeMuted == d.isSeMuted && a.isVoiceMuted == d.isVoiceMuted
  {
    var volumes := SetVoiceVolume(SetSeVolume(SetBgmVolume(Initial, d.bgmVolume), d.seVolume), d.voiceVolume);
    volumes.(isBgmMuted := d.isBgmMuted, isSeMuted := d.isSeMuted, isVoiceMuted := d.isVoiceMuted)
  }

  /** A snapshot of the six current values; restoring it gives back the
      same settings. */
  function ToData(a: AudioSettings): (d: AudioSettingsData)
    ensures d.bgmVolume == a.bgmVolume && d.seVolume == a.seVolume && d.voiceVolume == a.voiceVolume
    ensures d.isBgmMuted == a.isBgmMuted && d.isSeMuted == a.isSeMuted && d.isVoiceMuted == a.isVoiceMuted
    ensures Valid(a) ==> FromData(d) == a
  {
    AudioSettingsData(a.bgmVolume, a.seVolume, a.voiceVolume, a.isBgmMuted, a.isSeMuted, a.isVoiceMuted)
  }

  /** The clamping cases exercised by the unit tests. */
  lemma VolumeExamples(a: AudioSettings)
    ensures SetBgmVolume(a, -0.1).bgmVolume == 0.0
    ensures SetBgmVolume(a, 1.1).bgmVolume == 1.0 && SetBgmVolume(a, 2.0).bgmVolume == 1.0
    ensures SetBgmVolume(a, 0.0).bgmVolume == 0.0 && SetBgmVolume(a, 0.5).bgmVolume == 0.5
    ensures SetBgmVolume(a, 1.0).bgmVolume == 1.0
  {
  }
}
