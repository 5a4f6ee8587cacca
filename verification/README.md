# User settings of the out-game sample, in Dafny

This project models the user-settings part of a Unity out-game demo:

- **The character's appearance** (`Character`). It has four body-part colours and a head scale and a foot scale. Every scale setter clamps its input to [0.5, 1.5] and rounds it to the nearest tenth (for every input except NaN; see "## Left out").
- **The audio settings** (`DemoAudioSettings`). There are three volumes, which are clamped to [0, 1] on every write (NaN excepted; see "## Left out"), and three mute flags.
- **The settings use case** (`UserSettingsUseCase`). It owns both domain objects and a dirty flag. It offers the update operations the pages call, plus initialise, save, reset-to-default, delete and summary, all built on the repository.
- **The repository** (`UserSettingsRepository`). It reads and writes one JSON record holding both objects' transfer data, a schema version (1) and a save timestamp. A missing, empty, unreadable or unparseable file falls back to the defaults.
- **The page-routing service's lookup and decision** (`PageRoutingService`). It finds a page name's depth in the navigation stack. From that depth it decides whether to push the page, stay, or pop back to it.

The domain objects are immutable datatypes, and each mutator is a pure function from the old value to the new one.

- `float` is modelled as `real`.
- `Mathf.Clamp`, `Mathf.Clamp01` and `Mathf.Round` are in `Numeric`.
- The settings file is `Option<string>`: `None` means the file does not exist.
- Each host call that can throw (read, write, delete) receives its outcome as an input, of type `Outcome = Pass | Fail(message)`.
- The JSON conversion is an opaque `Codec`. The round-trip results assume only `RoundTrips` for the one record they write: its text is not empty and parses back as exactly that record. No such assumption is made about any other record.
- The clock is an `int` argument (`now`).
- The file's byte length is a function argument.
- The page stack is a `seq<string>` of page names, oldest first.

Some behaviours of the code are worth spelling out:

- **Delete with a failing removal.** `DeleteSettingsAsync` rethrows the repository's exception before it resets anything (UserSettingsUseCase.cs:211-226). So a failed delete leaves the state and the file untouched (`SettingsUseCase.DeleteSettings`).
- **Rounding ties.** `Mathf.Round` is documented to send an exact .5 to the even neighbour, and `Numeric.Round` computes that value. Its contract, and every scale contract built on it, promises only the nearest grid point and leaves exact ties open (see `CharacterModel.QuantisedIsUnique`).
- **Reset with a failing save.** UniRx's `ReactiveProperty` skips writes of an equal value, so the dirty flag is raised only when some field actually changes (`SettingsUseCase.Commit`). Consequently, a clean state that is already at the defaults stays clean after a reset even when the save fails. Update contracts promise only that a change leaves the state dirty and that a dirty state stays dirty.
- **Initialisation has no error outcome.** `LoadAsync` catches every exception and returns the defaults. In `InitializeAsync` the only later step that can throw is the log line's `GetLastSavedDateTime` (`DateTime.FromBinary` of an out-of-range stored timestamp). That step runs after both objects have been restored and the flag cleared, and its `catch` only logs (UserSettingsUseCase.cs:132-153). So `SettingsUseCase.Initialize` returns the restored, clean state in every case.

## Model

| member | source | states |
|---|---|---|
| Numeric.Clamp | Assets/Scripts/Domain/Character/Model/Character.cs:76 | The result lies in [lo, hi]. It is lo below the range, hi above it, and the input itself inside. |
| Numeric.Clamp01 | Assets/Scripts/Domain/Settings/Model/DemoAudioSettings.cs:52 | The result lies in [0, 1]. It is 0 below, 1 above, and the input itself inside. |
| Numeric.Round | Assets/Scripts/Domain/Character/Model/Character.cs:77 | The rounded integer is within one half of the input. |
| Numeric.RoundIsNearest | Assets/Scripts/Domain/Character/Model/Character.cs:77 | Every integer other than the rounded value is at least one half from the input. So no integer is closer than the rounded value. |
| Numeric.RoundOfInteger | Assets/Scripts/Domain/Character/Model/Character.cs:77 | Rounding an integral value returns it unchanged. |
| CharacterModel.QuantiseScale | Assets/Scripts/Domain/Character/Model/Character.cs:74-79 | The stored scale is a multiple of 0.1 in [0.5, 1.5], within 0.05 of the clamped input. A value already on that grid is kept as is. |
| CharacterModel.QuantisedIsUnique | Assets/Scripts/Domain/Character/Model/Character.cs:74-79 | Away from an exact tie, only one grid value satisfies the scale setters' contract. |
| CharacterModel.SetRightHandColor | Assets/Scripts/Domain/Character/Model/Character.cs:42-45 | The right-hand colour is stored unchanged and every other field is kept. |
| CharacterModel.SetLeftHandColor | Assets/Scripts/Domain/Character/Model/Character.cs:50-53 | The left-hand colour is stored unchanged and every other field is kept. |
| CharacterModel.SetRightFootColor | Assets/Scripts/Domain/Character/Model/Character.cs:58-61 | The right-foot colour is stored unchanged and every other field is kept. |
| CharacterModel.SetLeftFootColor | Assets/Scripts/Domain/Character/Model/Character.cs:66-69 | The left-foot colour is stored unchanged and every other field is kept. |
| CharacterModel.SetHeadScale | Assets/Scripts/Domain/Character/Model/Character.cs:74-79 | The head scale becomes the grid value nearest the clamped input; a grid input is stored exactly. Other fields are kept and the character stays valid. |
| CharacterModel.SetFootScale | Assets/Scripts/Domain/Character/Model/Character.cs:84-89 | The foot scale becomes the grid value nearest the clamped input; a grid input is stored exactly. Other fields are kept and the character stays valid. |
| CharacterModel.StepUp | Assets/Scripts/Domain/Character/Model/Character.cs:94-97 | Adding 0.1 to a grid scale below 1.5 and quantising gives the next grid point; at 1.5 it stays at 1.5. |
| CharacterModel.StepDown | Assets/Scripts/Domain/Character/Model/Character.cs:102-105 | Subtracting 0.1 from a grid scale above 0.5 and quantising gives the previous grid point; at 0.5 it stays at 0.5. |
| CharacterModel.IncreaseHeadScale | Assets/Scripts/Domain/Character/Model/Character.cs:94-97 | On a valid character the head scale rises by exactly 0.1, saturating at 1.5. Other fields are kept. |
| CharacterModel.DecreaseHeadScale | Assets/Scripts/Domain/Character/Model/Character.cs:102-105 | On a valid character the head scale falls by exactly 0.1, saturating at 0.5. Other fields are kept. |
| CharacterModel.IncreaseFootScale | Assets/Scripts/Domain/Character/Model/Character.cs:110-113 | On a valid character the foot scale rises by exactly 0.1, saturating at 1.5. Other fields are kept. |
| CharacterModel.DecreaseFootScale | Assets/Scripts/Domain/Character/Model/Character.cs:118-121 | On a valid character the foot scale falls by exactly 0.1, saturating at 0.5. Other fields are kept. |
| CharacterModel.StepsCancel | Assets/Scripts/Domain/Character/Model/Character.cs:94-121 | On a valid character, a step up followed by a step down restores the character, for either scale, unless the first step saturates. The reverse order also restores it. |
| CharacterModel.ResetToDefault | Assets/Scripts/Domain/Character/Model/Character.cs:126-134 | The result equals a freshly constructed character (all white, both scales 1.0) and is valid. |
| CharacterModel.FromData | Assets/Scripts/Domain/Character/Model/Character.cs:155-163 | Any record without NaN yields a valid character. Colours are copied verbatim and both scales are normalised as the setters do. |
| CharacterModel.ToData | Assets/Scripts/Domain/Character/Model/Character.cs:139-150 | The snapshot holds the four colours and both scales exactly as they are. Restoring the snapshot of a valid character gives back the same character. |
| CharacterModel.ScaleExamples | Assets/Scripts/Tests/Domain/CharacterTests.cs:88-114 | The documented rounding and clamping cases: 0.851 becomes 0.9, 0.84 becomes 0.8, 0.3 becomes 0.5 and 1.8 becomes 1.5. |
| AudioModel.SetBgmVolume | Assets/Scripts/Domain/Settings/Model/DemoAudioSettings.cs:50-53 | The BGM volume becomes the input clamped to [0, 1]. Every other field is kept and validity is preserved. |
| AudioModel.SetSeVolume | Assets/Scripts/Domain/Settings/Model/DemoAudioSettings.cs:58-61 | The SE volume becomes the input clamped to [0, 1]. Every other field is kept and validity is preserved. |
| AudioModel.SetVoiceVolume | Assets/Scripts/Domain/Settings/Model/DemoAudioSettings.cs:66-69 | The voice volume becomes the input clamped to [0, 1]. Every other field is kept and validity is preserved. |
| AudioModel.SetBgmMute | Assets/Scripts/Domain/Settings/Model/DemoAudioSettings.cs:74-77 | The BGM mute flag takes the given value and nothing else changes. |
| AudioModel.SetSeMute | Assets/Scripts/Domain/Settings/Model/DemoAudioSettings.cs:82-85 | The SE mute flag takes the given value and nothing else changes. |
| AudioModel.SetVoiceMute | Assets/Scripts/Domain/Settings/Model/DemoAudioSettings.cs:90-93 | The voice mute flag takes the given value and nothing else changes. |
| AudioModel.ToggleBgmMute | Assets/Scripts/Domain/Settings/Model/DemoAudioSettings.cs:98-101 | The BGM mute flag is negated and nothing else changes. |
| AudioModel.ToggleSeMute | Assets/Scripts/Domain/Settings/Model/DemoAudioSettings.cs:106-109 | The SE mute flag is negated and nothing else changes. |
| AudioModel.ToggleVoiceMute | Assets/Scripts/Domain/Settings/Model/DemoAudioSettings.cs:114-117 | The voice mute flag is negated and nothing else changes. |
| AudioModel.ToggleTwiceRestores | Assets/Scripts/Domain/Settings/Model/DemoAudioSettings.cs:98-117 | Toggling any one channel twice restores the settings. |
| AudioModel.ToggleAllMute | Assets/Scripts/Domain/Settings/Model/DemoAudioSettings.cs:122-130 | With nothing muted, every channel becomes muted. If any channel was muted, every channel becomes unmuted. Volumes are untouched. |
| AudioModel.ToggleAllTwice | Assets/Scripts/Domain/Settings/Model/DemoAudioSettings.cs:122-130 | Two whole-toggles send a partly muted state to all muted and leave a uniform state as it was. |
| AudioModel.GetEffectiveVolume | Assets/Scripts/Domain/Settings/Model/DemoAudioSettings.cs:177-186 | A muted channel plays at 0 and an unmuted one at its volume. On valid settings the result lies in [0, 1]. |
| AudioModel.ResetToDefault | Assets/Scripts/Domain/Settings/Model/DemoAudioSettings.cs:135-143 | The result equals freshly constructed settings and is valid. Every channel's effective volume is 1. |
| AudioModel.FromData | Assets/Scripts/Domain/Settings/Model/DemoAudioSettings.cs:164-172 | Any record without NaN yields valid settings. Each volume is the stored value clamped to [0, 1] and the flags are copied. |
| AudioModel.ToData | Assets/Scripts/Domain/Settings/Model/DemoAudioSettings.cs:148-159 | The snapshot holds the three volumes and three flags exactly as they are. Restoring the snapshot of valid settings gives back the same settings. |
| AudioModel.VolumeExamples | Assets/Scripts/Tests/Domain/DemoAudioSettingsTests.cs:32-57 | The clamping cases: -0.1 becomes 0, and 1.1 and 2.0 become 1. Values in range (0, 0.5, 1) are kept. |
| SettingsRepository.CreateDefaultSettings | Assets/Scripts/Infrastructure/Settings/UserSettingsRepository.cs:135-160 | The default record holds exactly the transfer data of a fresh character and fresh audio settings, version 1, stamped with the current time. |
| SettingsRepository.Load | Assets/Scripts/Infrastructure/Settings/UserSettingsRepository.cs:27-55 | The result is the defaults when the file is missing, unreadable, empty or unparseable. It is the parsed record when all of these succeed. It is never anything else. |
| SettingsRepository.Save | Assets/Scripts/Infrastructure/Settings/UserSettingsRepository.cs:60-86 | A successful write leaves the file holding the serialised record restamped with the current time. A failed write is passed on and leaves the file unchanged. |
| SettingsRepository.Delete | Assets/Scripts/Infrastructure/Settings/UserSettingsRepository.cs:91-110 | With no file nothing happens and nothing fails. Otherwise the removal's outcome is passed on: on success the file is gone, on failure it is left in place. |
| SettingsRepository.Exists | Assets/Scripts/Infrastructure/Settings/UserSettingsRepository.cs:115-118 | True exactly when the file exists. |
| SettingsRepository.GetFileSize | Assets/Scripts/Infrastructure/Settings/UserSettingsRepository.cs:123-130 | 0 for a missing file, otherwise the stored text's byte length. |
| SettingsRepository.SaveThenLoad | Assets/Scripts/Infrastructure/Settings/UserSettingsRepository.cs:27-86 | If the codec round-trips the stamped record, then after a successful save the file exists and the next load returns that record with that save's timestamp. |
| SettingsRepository.DeleteThenLoad | Assets/Scripts/Infrastructure/Settings/UserSettingsRepository.cs:27-130 | After a successful delete the file does not exist, its size is 0, and the next load returns the defaults. |
| SettingsUseCase.MarkDirty | Assets/Scripts/UseCase/Settings/UserSettingsUseCase.cs:606-609 | The flag is raised and both domain objects are untouched. |
| SettingsUseCase.Commit | Assets/Scripts/UseCase/Settings/UserSettingsUseCase.cs:562-579 | The new domain values are installed. A change to any field leaves the state dirty, a dirty state stays dirty, and a clean state with no change stays clean. |
| SettingsUseCase.Create | Assets/Scripts/UseCase/Settings/UserSettingsUseCase.cs:25-36 | A new use case holds the given objects and is already dirty, because subscribing replays the current values. |
| SettingsUseCase.UpdateRightHandColor | Assets/Scripts/UseCase/Settings/UserSettingsUseCase.cs:251-254 | The character gets the right-hand colour through its setter. Audio is untouched, changes are tracked and validity is kept. |
| SettingsUseCase.UpdateLeftHandColor | Assets/Scripts/UseCase/Settings/UserSettingsUseCase.cs:259-262 | The character gets the left-hand colour through its setter. Audio is untouched, changes are tracked and validity is kept. |
| SettingsUseCase.UpdateRightFootColor | Assets/Scripts/UseCase/Settings/UserSettingsUseCase.cs:267-270 | The character gets the right-foot colour through its setter. Audio is untouched, changes are tracked and validity is kept. |
| SettingsUseCase.UpdateLeftFootColor | Assets/Scripts/UseCase/Settings/UserSettingsUseCase.cs:275-278 | The character gets the left-foot colour through its setter. Audio is untouched, changes are tracked and validity is kept. |
| SettingsUseCase.UpdateHeadScale | Assets/Scripts/UseCase/Settings/UserSettingsUseCase.cs:283-286 | The head scale is set through the quantising setter. Audio is untouched, changes are tracked and validity is kept. |
| SettingsUseCase.UpdateFootScale | Assets/Scripts/UseCase/Settings/UserSettingsUseCase.cs:291-294 | The foot scale is set through the quantising setter. Audio is untouched, changes are tracked and validity is kept. |
| SettingsUseCase.IncreaseHeadScale | Assets/Scripts/UseCase/Settings/UserSettingsUseCase.cs:299-302 | On a valid state below the limit, the head scale rises by 0.1 and the state becomes dirty. At 1.5 the press changes nothing, not even the flag. Audio is untouched. |
| SettingsUseCase.DecreaseHeadScale | Assets/Scripts/UseCase/Settings/UserSettingsUseCase.cs:307-310 | On a valid state above the limit, the head scale falls by 0.1 and the state becomes dirty. At 0.5 the press changes nothing, not even the flag. Audio is untouched. |
| SettingsUseCase.IncreaseFootScale | Assets/Scripts/UseCase/Settings/UserSettingsUseCase.cs:315-318 | On a valid state below the limit, the foot scale rises by 0.1 and the state becomes dirty. At 1.5 the press changes nothing, not even the flag. Audio is untouched. |
| SettingsUseCase.DecreaseFootScale | Assets/Scripts/UseCase/Settings/UserSettingsUseCase.cs:323-326 | On a valid state above the limit, the foot scale falls by 0.1 and the state becomes dirty. At 0.5 the press changes nothing, not even the flag. Audio is untouched. |
| SettingsUseCase.UpdateBodyPartColor | Assets/Scripts/UseCase/Settings/UserSettingsUseCase.cs:331-351 | The chosen part takes the colour. The other three parts, both scales and the audio are untouched. Changes are tracked. |
| SettingsUseCase.UpdateCharacterSettings | Assets/Scripts/UseCase/Settings/UserSettingsUseCase.cs:356-364 | Both hands take the hand colour and both feet the foot colour. Both scales are quantised, the character is valid, and audio is untouched. |
| SettingsUseCase.UpdateBgmVolume | Assets/Scripts/UseCase/Settings/UserSettingsUseCase.cs:373-376 | The BGM volume is set through the clamping setter. The character is untouched, changes are tracked and validity is kept. |
| SettingsUseCase.UpdateSeVolume | Assets/Scripts/UseCase/Settings/UserSettingsUseCase.cs:381-384 | The SE volume is set through the clamping setter. The character is untouched, changes are tracked and validity is kept. |
| SettingsUseCase.UpdateVoiceVolume | Assets/Scripts/UseCase/Settings/UserSettingsUseCase.cs:389-392 | The voice volume is set through the clamping setter. The character is untouched, changes are tracked and validity is kept. |
| SettingsUseCase.UpdateBgmMute | Assets/Scripts/UseCase/Settings/UserSettingsUseCase.cs:397-400 | The BGM mute flag is set. The character is untouched and changes are tracked. |
| SettingsUseCase.UpdateSeMute | Assets/Scripts/UseCase/Settings/UserSettingsUseCase.cs:405-408 | The SE mute flag is set. The character is untouched and changes are tracked. |
| SettingsUseCase.UpdateVoiceMute | Assets/Scripts/UseCase/Settings/UserSettingsUseCase.cs:413-416 | The voice mute flag is set. The character is untouched and changes are tracked. |
| SettingsUseCase.ToggleBgmMute | Assets/Scripts/UseCase/Settings/UserSettingsUseCase.cs:421-424 | Only the BGM flag is negated; the other flags and the character are kept. A negation always changes a field, so the state is dirty afterwards. |
| SettingsUseCase.ToggleSeMute | Assets/Scripts/UseCase/Settings/UserSettingsUseCase.cs:429-432 | Only the SE flag is negated; the other flags and the character are kept. A negation always changes a field, so the state is dirty afterwards. |
| SettingsUseCase.ToggleVoiceMute | Assets/Scripts/UseCase/Settings/UserSettingsUseCase.cs:437-440 | Only the voice flag is negated; the other flags and the character are kept. A negation always changes a field, so the state is dirty afterwards. |
| SettingsUseCase.ToggleAllMute | Assets/Scripts/UseCase/Settings/UserSettingsUseCase.cs:445-448 | Every channel ends muted exactly when none was muted before. Volumes and the character are kept and the state is dirty afterwards. |
| SettingsUseCase.UpdateAudioVolume | Assets/Scripts/UseCase/Settings/UserSettingsUseCase.cs:453-470 | Only the named channel's volume changes, to the clamped input. Every mute flag and the character are untouched. |
| SettingsUseCase.UpdateAudioMute | Assets/Scripts/UseCase/Settings/UserSettingsUseCase.cs:475-492 | Only the named channel's mute flag changes, to the given value. Every volume and the character are untouched. |
| SettingsUseCase.UpdateAudioSettings | Assets/Scripts/UseCase/Settings/UserSettingsUseCase.cs:497-505 | All three volumes are clamped from their inputs and all three flags are taken as given. The character is untouched. |
| SettingsUseCase.UpdateAllVolumes | Assets/Scripts/UseCase/Settings/UserSettingsUseCase.cs:510-515 | Every channel's volume becomes the one clamped input. Mute flags and the character are untouched. |
| SettingsUseCase.Initialize | Assets/Scripts/UseCase/Settings/UserSettingsUseCase.cs:130-154 | Both objects are restored from the loaded record, normalised, valid and clean. With nothing usable stored they equal fresh objects. |
| SettingsUseCase.Snapshot | Assets/Scripts/UseCase/Settings/UserSettingsUseCase.cs:163-169 | The saved record holds both objects' snapshots, version 1 and the current time, and restores to the current objects. |
| SettingsUseCase.Save | Assets/Scripts/UseCase/Settings/UserSettingsUseCase.cs:159-181 | A successful save writes the snapshot and clears the flag. A failed one is passed on with the state and the file unchanged. |
| SettingsUseCase.ResetToDefault | Assets/Scripts/UseCase/Settings/UserSettingsUseCase.cs:186-204 | Memory is at the defaults whatever the save's outcome. A successful save writes the default record and clears the flag. A failed one keeps the file and tracks the change. |
| SettingsUseCase.DeleteSettings | Assets/Scripts/UseCase/Settings/UserSettingsUseCase.cs:209-227 | A successful delete leaves no file and a clean default state. A failed delete is passed on with the state and the file unchanged. With no file it succeeds. |
| SettingsUseCase.GetSummary | Assets/Scripts/UseCase/Settings/UserSettingsUseCase.cs:232-242 | The summary reports whether the file exists, the repository's file size (0 when there is no file) and the flag. Its snapshots are the objects' own, and they restore to the current objects. |
| SettingsUseCase.SaveThenInitializeRestores | Assets/Scripts/UseCase/Settings/UserSettingsUseCase.cs:130-181 | If the codec round-trips the saved snapshot, a successful save followed by an initialisation, from any state and at any later time, restores exactly the saved clean state. |
| SettingsUseCase.InitializeWithoutFile | Assets/Scripts/UseCase/Settings/UserSettingsUseCase.cs:130-154 | Without a file, initialisation yields fresh, clean settings. |
| SettingsUseCase.DeleteThenInitialize | Assets/Scripts/UseCase/Settings/UserSettingsUseCase.cs:130-227 | After a successful delete the in-memory state equals what a new initialisation loads. |
| SettingsUseCase.ResetThenSummary | Assets/Scripts/UseCase/Settings/UserSettingsUseCase.cs:186-242 | After a reset the summary shows the default record's data. After a successful reset it shows an existing file and a clean state. |
| PageRouting.GetPageNames | Assets/Scripts/UseCase/PageRoutingService.cs:71-82 | The names are listed from the top of the stack down: the stack reversed. |
| PageRouting.GetPageIdentifer | Assets/Scripts/UseCase/PageRoutingService.cs:93-107 | The result is the depth of the topmost occurrence of the name, counted from the top. It is -1 exactly when the name is not on the stack, and 0 exactly when it is the top page. |
| PageRouting.PushOrPopPage | Assets/Scripts/UseCase/PageRoutingService.cs:109-125 | Push exactly when the page is absent, stay exactly when it is on top, otherwise pop just enough pages for its topmost occurrence to become the top. Carrying out the decision leaves the page on top, and the resulting stack is a prefix of the old stack with the page appended. |

## Left out

- The autosave (`SetupAutoSave`, a three-second `Throttle` on the dirty flag that calls save) is left out, because timers and schedulers are outside a pure model. It calls `Save`, which is modelled. Its filter passes only `true` values of the flag, so a save fires three seconds after every clean-to-dirty change, even if an initialise, save or delete has cleared the flag in the meantime. For example, a successful delete whose reset changed a field is followed by a save that writes the defaults back to the file.
- UniRx notification plumbing is represented only by its effect on the dirty flag (`SettingsUseCase.Commit`). This covers subscriptions, `CombineLatest` for the effective volumes, and the equal-value de-duplication of `ReactiveProperty`. The library itself is not part of this model.
- JSON serialisation (`JsonUtility`), `DateTime.Now.ToBinary()`, `Application.persistentDataPath`, directory creation and the file system are replaced by the `Codec` argument, the `now` argument, `Option<string>` and host outcomes.
- SettingsRepository.GetFileSize: the byte length of the stored text is an opaque function argument. The UTF-8 encoding of the file is not modelled.
- SettingsRepository.Save: a write that fails part-way leaves the file unchanged in the model. Partially written files are not represented.
- SettingsUseCase.Initialize, SettingsUseCase.Save, SettingsUseCase.ResetToDefault and SettingsUseCase.DeleteSettings are each one atomic step. Updates that run while the load, write or delete is awaited are not represented. Such interleavings can happen because `InitializeAsync` is started without being awaited (FirstPageLifecycle.cs:35) while the footer's buttons stay live. In the source, an update made during a load is overwritten by the two `FromData` calls and its flag is cleared. An update made during a save's write ends clean but unsaved, because the flag is cleared after the write returns (UserSettingsUseCase.cs:171-172), and the autosave takes the same path. An update made during a delete is wiped by the reset that follows it.
- The `Debug.Log` calls and the exception messages are dropped. A failure keeps a message string but its text is not modelled.
- `RandomizeCharacter` and `RandomizeAudio` are left out, because they draw from `UnityEngine.Random`. Their effect goes through the modelled setters.
- `Dispose` on the use case and on the routing service is left out, because subscription lifetime is not state of the model.
- NaN inputs are not represented. `Mathf.Clamp`, `Mathf.Clamp01` and `Mathf.Round` pass NaN through, so the source can store a NaN scale or volume, through a setter or through `FromData`, and the result is outside `Valid`. The range invariants and the `FromData` validity results hold for every non-NaN float.
- Float arithmetic is exact `real` arithmetic. Binary rounding artefacts of `float` and the tie-breaking of `Mathf.Round` at exact halves are not stated in the contracts.
- C# enum values outside `BodyPart` and `AudioChannel` cannot be represented. The `default` branches for them are therefore absent: the ones in the use case's channel and body-part dispatch log and ignore the value, and `GetEffectiveVolume`'s `_ => 0f` (DemoAudioSettings.cs:184) returns 0 without logging.
- The routing service's container operations are left out: the actual `Push`/`Pop` of pages, the page loading, the `Before*`/`After*` callbacks, which only log (the stored event publisher is never used), `GuidCounterService` and `Start`. The model returns the decision that `PushOrPopPage` acts on. A null page container is not represented.
- The page views, lifecycles, toast queue (`ChannelExecutor`) and editor scripts are UI glue and are not part of this model.
- PageRouting.PushOrPopPage: the model follows the `PushOrPopPage(string)` shown in PageRoutingService.cs:109. The footer calls an overload that takes a page builder (FooterLifecycle.cs:67, :71), and that overload is not part of the source shown.
- PageRouting.PushOrPopPage: the outcome is stated through `PageRouting.Apply`, which assumes that a page pushed under key `name` is then identified as `name` by the lookup. The page identifier is assigned inside the third-party page container, which is not part of this model.
