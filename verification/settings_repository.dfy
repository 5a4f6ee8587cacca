/** Persistence of the user settings (UserSettingsRepository.cs) in one text
    file. The file is `Some(text)` when it exists and `None` when it does
    not; each host call that can throw is given its outcome as an input;
    JSON conversion is an opaque `Codec`; the clock is the `now` argument. */
module SettingsRepository {
  import opened Results
  import C = CharacterModel
  import A = AudioModel

  /** The schema version written with every record. */
  const CurrentVersion: int := 1

  /** The whole persisted record: both transfer records, the schema version
      and the save timestamp (a `DateTime.ToBinary` value). */
  datatype UserSettingsData = UserSettingsData(
    character: C.CharacterData,
    audio: A.AudioSettingsData,
    version: int,
    lastSavedAt: int)

  /** The JSON text conversion, which lives outside this model: `parse`
      answers `None` where the JSON reader throws. */
  datatype Codec = Codec(
    serialize: UserSettingsData -> string,
    parse: string -> Option<UserSettingsData>)

  /** What the round-trip results below assume of the JSON conversion for
      the one record they write: its text is not empty and reads back as
      exactly that record. */
  ghost predicate RoundTrips(codec: Codec, d: UserSettingsData) {
    codec.serialize(d) != [] && codec.parse(codec.serialize(d)) == Some(d)
  }

  /** The record used whenever nothing usable is stored: it agrees field by
      field with a freshly constructed character and audio settings. */
  function CreateDefaultSettings(now: int): (d: UserSettingsData)
    ensures d.character == C.ToData(C.Initial)
    ensures d.audio == A.ToData(A.Initial)
    ensures d.version == CurrentVersion == 1
    ensures d.lastSavedAt == now
  {
    UserSettingsData(
      C.CharacterData(C.White, C.White, C.White, C.White, 1.0, 1.0),
      A.AudioSettingsData(1.0, 1.0, 1.0, false, false, false),
      CurrentVersion,
      now)
  }

  /** Reads the settings, falling back to the defaults when the file is
      missing, empty, unreadable or unparseable; it never fails. */
  function Load(file: Option<string>, read: Outcome, codec: Codec, now: int): (d: UserSettingsData)
    ensures file.None? ==> d == CreateDefaultSettings(now)
    ensures read.Fail? ==> d == CreateDefaultSettings(now)
    ensures file == Some([]) ==> d == CreateDefaultSettings(now)
    ensures file.Some? && codec.parse(file.value).None? ==> d == CreateDefaultSettings(now)
    ensures d == CreateDefaultSettings(now) || (file.Some? && codec.parse(file.value) == Some(d))
    ensures file.Some? && read.Pass? && file.value != [] && codec.parse(file.value).Some?
            ==> d == codec.parse(file.value).value
  {
    match file
    case None => CreateDefaultSettings(now)
    case Some(text) =>
      if read.Fail? then CreateDefaultSettings(now)   // the read threw; caught and logged
      else if text == [] then CreateDefaultSettings(now)
      else match codec.parse(text)
        case None => CreateDefaultSettings(now)         // the JSON reader threw; caught and logged
        case Some(settings) => settings
  }

  /** A file after a write attempt, and how the attempt ended. */
  datatype WriteResult = WriteResult(file: Option<string>, outcome: Outcome)

  /** Stamps the record with the current time and writes it; `write` is how
      the directory creation and file write ended. A failure is passed on. */
  function Save(file: Option<string>, settings: UserSettingsData, codec: Codec, now: int, write: Outcome)
    : (r: WriteResult)
    ensures r.outcome == write
    ensures write.Pass? ==> r.file == Some(codec.serialize(settings.(lastSavedAt := now)))
    ensures write.Fail? ==> r.file == file
  {
    var stamped := settings.(lastSavedAt := now);
    var jsonText := codec.serialize(stamped);
    if write.Pass? then WriteResult(Some(jsonText), Pass) else WriteResult(file, write)
  }

  /** Removes the file. With no file there is nothing to do and nothing can
      fail; otherwise `delete` is how the removal ended, and a failure is
      passed on with the file left in place. */
  function Delete(file: Option<string>, delete: Outcome): (r: WriteResult)
    ensures file.None? ==> r == WriteResult(None, Pass)
    ensures file.Some? ==> r.outcome == delete
    ensures r.outcome.Pass? ==> r.file.None?
    ensures r.outcome.Fail? ==> r.file == file
  {
    if file.Some? then
      if delete.Pass? then WriteResult(None, Pass) else WriteResult(file, delete)
    else
      WriteResult(file, Pass)
  }

  function Exists(file: Option<string>): (b: bool)
    ensures b <==> file != None
  {
    file.Some?
  }

  /** The size of the file in bytes; `byteLength` is the length of the text's
      on-disk encoding, which lives outside this model. */
  function GetFileSize(file: Option<string>, byteLength: string -> nat): (n: nat)
    ensures !Exists(file) ==> n == 0
    ensures Exists(file) ==> n == byteLength(file.value)
  {
    if !file.Some? then 0 else byteLength(file.value)
  }

  /** What a successful save writes is read back by the next load, with the
      timestamp of that save. */
  lemma SaveThenLoad(file: Option<string>, settings: UserSettingsData, codec: Codec, now: int, later: int)
    requires RoundTrips(codec, settings.(lastSavedAt := now))
    ensures var saved := Save(file, settings, codec, now, Pass).file;
            Exists(saved) && Load(saved, Pass, codec, later) == settings.(lastSavedAt := now)
  {
  }

  /** After a successful delete the file is gone, its size reads as 0, and
      the next load yields the defaults. */
  lemma DeleteThenLoad(file: Option<string>, delete: Outcome, codec: Codec, byteLength: string -> nat, now: int)
    requires Delete(file, delete).outcome.Pass?
    ensures var left := Delete(file, delete).file;
            !Exists(left) && GetFileSize(left, byteLength) == 0
            && Load(left, Pass, codec, now) == CreateDefaultSettings(now)
  {
  }
}
