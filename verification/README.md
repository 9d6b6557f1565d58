# pocket20 clicker: state transitions and saved progress

This project models two small pieces of the pocket20 "idle clicker" Android app.

1. **The clicker of `MainActivity`.** The activity remembers three things: the
   screen the bottom navigation bar shows, the score (`globalCount`, starting at
   0) and the shop level (`shopLevel`, starting at 0). "Click here" on the home
   screen adds one point. "Upgrade (10)" in the shop costs a flat 10 points and
   adds one level, and it silently does nothing when fewer than 10 points are
   held. A tab click selects a screen by index, and an unknown index falls back
   to the home screen. The model is a `State` value and one `Step` function
   that dispatches on the event, plus the `MainActivity` class whose callbacks reassign its fields. Each
   callback is proved to perform `Step`. Kotlin `Int` arithmetic is modelled
   exactly: `count + 1` wraps at `Int.MAX_VALUE`.
2. **Four versions of saving and loading progress.** They are `DataStorage`,
   the `SettingsRepository` class, `PreferencesManager` and the script variant of
   `SettingsRepository`. A preferences store is a `map<string, Value>`. A value
   is a tagged `Long`, `Int` or `Boolean`. An `edit` block is a sequence of
   `Write`s applied in order (`Prefs.Apply`). A flow is modelled as one lookup
   with the `?:` default (`LongOr`, `IntOr`, `BoolOr`), taken on the store's
   current contents. Each save method mutates a `DataStore` object in place. Its
   postcondition says the new contents are `Apply` of its writes to the old
   contents.

The generic lemmas about `Apply` are proved once, in module `Prefs`, by
induction. They cover: distinct keys read back, untouched keys are unchanged,
last write wins, repeating an edit is idempotent, and edits on disjoint keys
commute. Each store module then proves its own round trip, its defaults, its
key distinctness, its frame and its last-write-wins property.

The versions differ, and the model pins down each one:

- A missing count reads as 0 in `DataStorage` and `PreferencesManager`.
- It reads as 1 in `SettingsRepository`.
- It reads as 100 in the script, where the count key is an `Int`, not a `Long`.

Files: `kotlin_ints.dfy` (Kotlin `Int`/`Long`), `prefs.dfy` (the store),
`clicker.dfy` (`MainActivity.kt`), `data_storage.dfy` (`DataStorage.kt`),
`settings_repository.dfy` (`SettingsRepository.kt`), `save_data.dfy`
(`SaveData.kt`), `settings_script.dfy` (`app/Settingsrepository.main.kts`).

## Model

| member | source | states |
|---|---|---|
| KotlinInts.Wrap32 | app/src/main/java/com/example/pocket20/MainActivity.kt:108 | an `Int` result equals the exact result when it is in range, and one past `Int.MAX_VALUE` wraps to `Int.MIN_VALUE` |
| Clicker.Screen.Ordinal | app/src/main/java/com/example/pocket20/MainActivity.kt:32-34 | the three screens have ordinals below the number of tabs, and only Home has ordinal 0 |
| Clicker.ScreenOf | app/src/main/java/com/example/pocket20/MainActivity.kt:61-66 | tab indices 0, 1 and 2 select the screen with that ordinal (Home, Shop, Profile); any other index selects Home |
| Clicker.Selected | app/src/main/java/com/example/pocket20/MainActivity.kt:59 | `selected = currentScreen.ordinal == index`; its meaning is stated by `SelectedTab` |
| Clicker.TabOfScreen | app/src/main/java/com/example/pocket20/MainActivity.kt:32-34 | for every screen, clicking the tab at its ordinal shows that screen |
| Clicker.SelectedTab | app/src/main/java/com/example/pocket20/MainActivity.kt:59 | a tab is drawn selected exactly when its index is the current screen's ordinal; after a click on tab i, tab i and no other is selected |
| Clicker.ClickCount | app/src/main/java/com/example/pocket20/MainActivity.kt:108 | a click yields one more point; at `Int.MAX_VALUE` it wraps to `Int.MIN_VALUE` |
| Clicker.ClickWrapsAtMaxInt | app/src/main/java/com/example/pocket20/MainActivity.kt:108 | the click is unguarded: one click at `Int.MAX_VALUE` leaves a negative score |
| Clicker.Purchase | app/src/main/java/com/example/pocket20/MainActivity.kt:133-135 | with at least 10 points the score drops by 10 and the level rises by one; with fewer nothing changes |
| Clicker.UpgradeCostIsFlat | app/src/main/java/com/example/pocket20/MainActivity.kt:133-134 | the price, and whether the upgrade is accepted, do not depend on the level |
| Clicker.NavigationKeepsProgress | app/src/main/java/com/example/pocket20/MainActivity.kt:60-89 | a tab click, and anything done on the profile screen, leaves score and level unchanged |
| Clicker.Enabled | app/src/main/java/com/example/pocket20/MainActivity.kt:78-89 | "Click here" exists only on the home screen and "Upgrade (10)" only in the shop, while the tabs are always shown; the callbacks require it, and `NavigationKeepsProgress` relies on it for the profile screen |
| Clicker.Step | app/src/main/java/com/example/pocket20/MainActivity.kt:60-88 | one event: a tab click sets the screen by `ScreenOf`, a click performs `ClickCount`, an upgrade performs `Purchase`; the three callbacks are proved to perform it, and `RunKeepsLedger` states what runs of it keep |
| Clicker.RunKeepsLedger | app/src/main/java/com/example/pocket20/MainActivity.kt:131-136 | over any run where the points held plus 10 × level plus the clicks stay at or below `Int.MAX_VALUE`: the score stays non-negative, the level never falls, score + 10 × level grows by exactly the clicks, and the level grows by exactly the accepted upgrades |
| Clicker.LedgerFromLaunch | app/src/main/java/com/example/pocket20/MainActivity.kt:43-45 | from the launch state (home, 0, 0): score ≥ 0, level = number of accepted upgrades, score + 10 × level = number of clicks |
| Clicker.RunSplit | app/src/main/java/com/example/pocket20/MainActivity.kt:78-90 | a run of a concatenation is the run of its first part continued by the run of its second part |
| Clicker.LevelNeverDecreases | app/src/main/java/com/example/pocket20/MainActivity.kt:135 | from launch, the level at any point of a run is at most the level at every later point |
| Clicker.MainActivity.constructor | app/src/main/java/com/example/pocket20/MainActivity.kt:43-45 | the activity starts on the home screen with score 0 and level 0 |
| Clicker.MainActivity.OnTabClick | app/src/main/java/com/example/pocket20/MainActivity.kt:60-67 | the tab callback changes only the screen, to the one the index selects |
| Clicker.MainActivity.OnClickHere | app/src/main/java/com/example/pocket20/MainActivity.kt:79-82 | the home button's callback (available only on the home screen) performs the click step |
| Clicker.MainActivity.OnUpgrade | app/src/main/java/com/example/pocket20/MainActivity.kt:83-88 | the shop button's callback (available only on the shop screen) performs the purchase step |
| Prefs.DataStore.constructor | app/src/main/java/com/example/pocket20/DataStorage.kt:9 | a store that was never written holds no keys |
| Prefs.LongOr | app/src/main/java/com/example/pocket20/DataStorage.kt:59 | `pref[key] ?: default`: the stored value when the key is present, else the default |
| Prefs.IntOr | app/src/main/java/com/example/pocket20/DataStorage.kt:60 | the same for an `Int` key |
| Prefs.BoolOr | app/src/main/java/com/example/pocket20/DataStorage.kt:64 | the same for a `Boolean` key |
| Prefs.Apply | app/src/main/java/com/example/pocket20/DataStorage.kt:45-54 | an `edit` block: its assignments applied in order to the old contents; pinned down by `ApplyIsOverride`, `ApplyKeys`, `ApplyLeavesOthers`, `ApplyReadsBack`, `ApplyOverwrites`, `ApplyIdempotent` and `ApplyCommutes` |
| Prefs.KeysOf | app/src/main/java/com/example/pocket20/DataStorage.kt:45-54 | the keys an `edit` block assigns; characterised by `KeysOfNames` |
| Prefs.ApplyKeys | app/src/main/java/com/example/pocket20/DataStorage.kt:45-54 | an edit adds exactly the keys it assigns and removes none |
| Prefs.ApplyIsOverride | app/src/main/java/com/example/pocket20/DataStorage.kt:45-54 | an edit is the old contents overridden by the last value written to each key |
| Prefs.ApplyAppend | app/src/main/java/com/example/pocket20/SaveData.kt:34-64 | two edits in a row act as one edit with both lists of assignments |
| Prefs.Written | app/src/main/java/com/example/pocket20/DataStorage.kt:45-54 | the map of last-written values holds exactly the keys an edit assigns |
| Prefs.ApplyExtend | app/src/main/java/com/example/pocket20/DataStorage.kt:46-53 | each assignment of an edit updates the map the earlier assignments left |
| Prefs.KeysOfNames | app/src/main/java/com/example/pocket20/DataStorage.kt:45-54 | a key is among an edit's keys exactly when one of its assignments names it |
| Prefs.ApplyLeavesOthers | app/src/main/java/com/example/pocket20/DataStorage.kt:45-54 | a key no assignment names keeps its presence and value |
| Prefs.ApplyReadsBack | app/src/main/java/com/example/pocket20/DataStorage.kt:45-54 | when no key is assigned twice, every assigned value is what the store holds afterwards |
| Prefs.ApplyOverwrites | app/src/main/java/com/example/pocket20/SettingsRepository.kt:44-53 | last write wins: an edit whose keys cover an earlier edit's erases it |
| Prefs.ApplyIdempotent | app/Settingsrepository.main.kts:25-29 | repeating an edit changes nothing |
| Prefs.ApplyCommutes | app/src/main/java/com/example/pocket20/SaveData.kt:34-64 | edits on disjoint keys commute |
| DataStorage.SaveGameUpdates | app/src/main/java/com/example/pocket20/DataStorage.kt:45-54 | `saveGame`'s edit is the eight map updates in source order |
| DataStorage.GameWrites | app/src/main/java/com/example/pocket20/DataStorage.kt:45-54 | the eight assignments of `saveGame`'s edit; pinned down by `SaveGameUpdates` and `GameWritesKeys` |
| DataStorage.GameDataFlow | app/src/main/java/com/example/pocket20/DataStorage.kt:57-68 | `gameDataFlow`: each field read from its key with `?:` and its default; pinned down by `SaveGameRoundTrip`, `EmptyStoreReadsDefaults` and `PartialStoreReadsPerField` |
| DataStorage.ScoreFlow | app/src/main/java/com/example/pocket20/DataStorage.kt:70 | `scoreFlow`, default 0; equals `gameDataFlow`'s score by `FieldFlowsAgree` |
| DataStorage.LevelFlow | app/src/main/java/com/example/pocket20/DataStorage.kt:71 | `levelFlow`, default 1; equals `gameDataFlow`'s level by `FieldFlowsAgree` |
| DataStorage.SpeedFlow | app/src/main/java/com/example/pocket20/DataStorage.kt:72 | `speedFlow`, default 1; equals `gameDataFlow`'s speed by `FieldFlowsAgree` |
| DataStorage.RebirthFlow | app/src/main/java/com/example/pocket20/DataStorage.kt:73 | `rebirthFlow`, default 1; equals `gameDataFlow`'s rebirth by `FieldFlowsAgree` |
| DataStorage.RebirthCoefFlow | app/src/main/java/com/example/pocket20/DataStorage.kt:74 | `rCoefFlow`, default 1; equals `gameDataFlow`'s rebirth coefficient by `FieldFlowsAgree` |
| DataStorage.GameKeysDistinct | app/src/main/java/com/example/pocket20/DataStorage.kt:25-32 | the eight key names are pairwise distinct |
| DataStorage.GameWritesKeys | app/src/main/java/com/example/pocket20/DataStorage.kt:45-54 | `saveGame` assigns exactly the eight keys of the store |
| DataStorage.SaveGameRoundTrip | app/src/main/java/com/example/pocket20/DataStorage.kt:35-68 | after `saveGame(s, l, sp, r, rc, w, wt, c)` on any store, whatever it held before, `gameDataFlow` reads `GameData(s, l, sp, r, rc, w, wt, c)` |
| DataStorage.EmptyStoreReadsDefaults | app/src/main/java/com/example/pocket20/DataStorage.kt:57-67 | a store without the keys reads as `GameData(0, 1, 1, 1, 1, false, false, false)` |
| DataStorage.PartialStoreReadsPerField | app/src/main/java/com/example/pocket20/DataStorage.kt:59-66 | with only some keys of a saved record present, each present field reads as saved and each missing field reads as its own default |
| DataStorage.SaveGameFrame | app/src/main/java/com/example/pocket20/DataStorage.kt:45-54 | `saveGame` leaves every other key of the store unchanged |
| DataStorage.SaveGameLastWins | app/src/main/java/com/example/pocket20/DataStorage.kt:45-54 | a second save erases the first |
| DataStorage.FieldFlowsAgree | app/src/main/java/com/example/pocket20/DataStorage.kt:70-74 | the score, level, speed, rebirth and rebirth-coefficient flows agree with the matching fields of `gameDataFlow` |
| DataStorage.DataStorage.constructor | app/src/main/java/com/example/pocket20/DataStorage.kt:9-22 | the repository works on the "game_stats" store |
| DataStorage.DataStorage.SaveGame | app/src/main/java/com/example/pocket20/DataStorage.kt:35-55 | the store's new contents are the old contents after the eight writes |
| SettingsRepository.SaveProgressUpdates | app/src/main/java/com/example/pocket20/SettingsRepository.kt:44-53 | `saveProgress`'s edit is the eight map updates in source order |
| SettingsRepository.ProgressWrites | app/src/main/java/com/example/pocket20/SettingsRepository.kt:44-53 | the eight assignments of `saveProgress`'s edit; pinned down by `SaveProgressUpdates` and `ProgressWritesKeys` |
| SettingsRepository.CountFlow | app/src/main/java/com/example/pocket20/SettingsRepository.kt:25 | `countFlow`, default 1; read back by `SaveProgressRoundTrip`, default by `EmptyStoreReadsDefaults` |
| SettingsRepository.LevelFlow | app/src/main/java/com/example/pocket20/SettingsRepository.kt:26 | `levelFlow`, default 1; read back by `SaveProgressRoundTrip`, default by `EmptyStoreReadsDefaults` |
| SettingsRepository.SpeedFlow | app/src/main/java/com/example/pocket20/SettingsRepository.kt:27 | `speedFlow`, default 1; read back by `SaveProgressRoundTrip`, default by `EmptyStoreReadsDefaults` |
| SettingsRepository.RebirthFlow | app/src/main/java/com/example/pocket20/SettingsRepository.kt:28 | `rebirthFlow`, default 1; read back by `SaveProgressRoundTrip`, default by `EmptyStoreReadsDefaults` |
| SettingsRepository.RebirthCoefFlow | app/src/main/java/com/example/pocket20/SettingsRepository.kt:29 | `rebirthCoefFlow`, default 1; read back by `SaveProgressRoundTrip`, default by `EmptyStoreReadsDefaults` |
| SettingsRepository.CompWasterFlow | app/src/main/java/com/example/pocket20/SettingsRepository.kt:30 | `compWasterFlow`, default false; read back by `SaveProgressRoundTrip`, default by `EmptyStoreReadsDefaults` |
| SettingsRepository.CompWaitFlow | app/src/main/java/com/example/pocket20/SettingsRepository.kt:31 | `compWaitFlow`, default false; read back by `SaveProgressRoundTrip`, default by `EmptyStoreReadsDefaults` |
| SettingsRepository.CompCeoFlow | app/src/main/java/com/example/pocket20/SettingsRepository.kt:32 | `compCEOFlow`, default false; read back by `SaveProgressRoundTrip`, default by `EmptyStoreReadsDefaults` |
| SettingsRepository.ProgressKeysDistinct | app/src/main/java/com/example/pocket20/SettingsRepository.kt:15-22 | the eight key names are pairwise distinct |
| SettingsRepository.ProgressWritesKeys | app/src/main/java/com/example/pocket20/SettingsRepository.kt:44-53 | `saveProgress` assigns exactly the eight keys of the store |
| SettingsRepository.SaveProgressRoundTrip | app/src/main/java/com/example/pocket20/SettingsRepository.kt:25-54 | after `saveProgress(...)` on any store each of the eight flows returns the matching argument, and the store is well typed for the eight keys |
| SettingsRepository.EmptyStoreReadsDefaults | app/src/main/java/com/example/pocket20/SettingsRepository.kt:25-32 | without the keys the count reads as 1 (not 0), level, speed, rebirth and rebirth coefficient read as 1, and the three flags as false |
| SettingsRepository.SaveProgressFrame | app/src/main/java/com/example/pocket20/SettingsRepository.kt:44-53 | `saveProgress` overwrites the eight keys and nothing else |
| SettingsRepository.SaveProgressLastWins | app/src/main/java/com/example/pocket20/SettingsRepository.kt:34-54 | of two successive saves only the second is visible, and saving the same values twice is saving them once |
| SettingsRepository.ScriptSavedStoreReads | app/src/main/java/com/example/pocket20/SettingsRepository.kt:26-27 | after the script's `saveData` on the shared "game_settings" store, `levelFlow` and `speedFlow` read the saved level and speed, because each flow reads only its own key, while "global_count" holds an `Int` where `countFlow` expects a `Long` |
| SettingsRepository.SettingsRepository.constructor | app/src/main/java/com/example/pocket20/SettingsRepository.kt:10-12 | the repository works on the "game_settings" store |
| SettingsRepository.SettingsRepository.SaveProgress | app/src/main/java/com/example/pocket20/SettingsRepository.kt:34-54 | the store's new contents are the old contents after the eight writes |
| SaveData.SaveUpdates | app/src/main/java/com/example/pocket20/SaveData.kt:35 | a single-key save is one map update of its field's key |
| SaveData.KeyOf | app/src/main/java/com/example/pocket20/SaveData.kt:14-23 | the key name of each field of `PreferencesKeys`; `KeysDistinct` shows no two fields share one |
| SaveData.SaveWrites | app/src/main/java/com/example/pocket20/SaveData.kt:34-64 | the single assignment of a `saveX` edit; pinned down by `SaveUpdates` |
| SaveData.FieldFlow | app/src/main/java/com/example/pocket20/SaveData.kt:25-32 | the flow of a field as a tagged value; read back by `SaveReadsBack`, which also shows the other fields unchanged |
| SaveData.GlobalCountFlow | app/src/main/java/com/example/pocket20/SaveData.kt:25 | `globalCountFlow`, default 0; read back by `SaveReadsBack`, default by `EmptyStoreReadsDefaults` |
| SaveData.ShopLevelFlow | app/src/main/java/com/example/pocket20/SaveData.kt:26 | `shopLevelFlow`, default 1; read back by `SaveReadsBack`, default by `EmptyStoreReadsDefaults` |
| SaveData.SpeedCoefFlow | app/src/main/java/com/example/pocket20/SaveData.kt:27 | `speedCoefFlow`, default 1; read back by `SaveReadsBack`, default by `EmptyStoreReadsDefaults` |
| SaveData.RebirthFlow | app/src/main/java/com/example/pocket20/SaveData.kt:28 | `rebirthFlow`, default 1; read back by `SaveReadsBack`, default by `EmptyStoreReadsDefaults` |
| SaveData.RebirthCoefFlow | app/src/main/java/com/example/pocket20/SaveData.kt:29 | `rebirthCoefFlow`, default 1; read back by `SaveReadsBack`, default by `EmptyStoreReadsDefaults` |
| SaveData.CompleteProfessionalFlow | app/src/main/java/com/example/pocket20/SaveData.kt:30 | `completeProfessionalFlow`, default false; read back by `SaveReadsBack`, default by `EmptyStoreReadsDefaults` |
| SaveData.CompleteWaitFlow | app/src/main/java/com/example/pocket20/SaveData.kt:31 | `completeWaitFlow`, default false; read back by `SaveReadsBack`, default by `EmptyStoreReadsDefaults` |
| SaveData.CompleteCeoFlow | app/src/main/java/com/example/pocket20/SaveData.kt:32 | `completeCEOFlow`, default false; read back by `SaveReadsBack`, default by `EmptyStoreReadsDefaults` |
| SaveData.KeysDistinct | app/src/main/java/com/example/pocket20/SaveData.kt:15-22 | two fields share a key name only when they are the same field |
| SaveData.SaveReadsBack | app/src/main/java/com/example/pocket20/SaveData.kt:25-64 | after saving a field on any store, its flow returns the saved value; every other field whose key is well typed reads as before; a well-typed store stays well typed |
| SaveData.SaveFrame | app/src/main/java/com/example/pocket20/SaveData.kt:34-64 | each save changes only its own key |
| SaveData.SavesCommute | app/src/main/java/com/example/pocket20/SaveData.kt:34-64 | saves of different fields commute |
| SaveData.SaveTwiceLastWins | app/src/main/java/com/example/pocket20/SaveData.kt:34-64 | saving the same field twice keeps only the later value |
| SaveData.EmptyStoreReadsDefaults | app/src/main/java/com/example/pocket20/SaveData.kt:25-32 | without the keys the count reads as 0, shop level, speed, rebirth and rebirth coefficient read as 1, and the three completion flags as false |
| SaveData.PreferencesManager.constructor | app/src/main/java/com/example/pocket20/SaveData.kt:10-12 | the manager works on the "game_prefs" store |
| SaveData.PreferencesManager.SaveGlobalCount | app/src/main/java/com/example/pocket20/SaveData.kt:34-36 | writes the `Long` count under its key and nothing else |
| SaveData.PreferencesManager.SaveShopLevel | app/src/main/java/com/example/pocket20/SaveData.kt:38-40 | writes the shop level under its key and nothing else |
| SaveData.PreferencesManager.SaveSpeedCoef | app/src/main/java/com/example/pocket20/SaveData.kt:42-44 | writes the speed coefficient under its key and nothing else |
| SaveData.PreferencesManager.SaveRebirth | app/src/main/java/com/example/pocket20/SaveData.kt:46-48 | writes the rebirth count under its key and nothing else |
| SaveData.PreferencesManager.SaveRebirthCoef | app/src/main/java/com/example/pocket20/SaveData.kt:50-52 | writes the rebirth coefficient under its key and nothing else |
| SaveData.PreferencesManager.SaveCompleteProfessional | app/src/main/java/com/example/pocket20/SaveData.kt:54-56 | writes the flag under its key and nothing else |
| SaveData.PreferencesManager.SaveCompleteWait | app/src/main/java/com/example/pocket20/SaveData.kt:58-60 | writes the flag under its key and nothing else |
| SaveData.PreferencesManager.SaveCompleteCeo | app/src/main/java/com/example/pocket20/SaveData.kt:62-64 | writes the flag under its key and nothing else |
| SettingsScript.SaveDataUpdates | app/Settingsrepository.main.kts:25-29 | `saveData`'s edit is the three map updates in source order |
| SettingsScript.DataWrites | app/Settingsrepository.main.kts:25-29 | the three assignments of `saveData`'s edit; pinned down by `SaveDataUpdates` and `DataWritesKeys` |
| SettingsScript.CountFlow | app/Settingsrepository.main.kts:20 | `countFlow`, default 100; read back by `SaveDataRoundTrip`, default by `EmptyStoreReadsDefaults` |
| SettingsScript.LevelFlow | app/Settingsrepository.main.kts:21 | `levelFlow`, default 1; read back by `SaveDataRoundTrip`, default by `EmptyStoreReadsDefaults` |
| SettingsScript.SpeedFlow | app/Settingsrepository.main.kts:22 | `speedFlow`, default 1; read back by `SaveDataRoundTrip`, default by `EmptyStoreReadsDefaults` |
| SettingsScript.DataKeysDistinct | app/Settingsrepository.main.kts:15-17 | the three key names are pairwise distinct |
| SettingsScript.DataWritesKeys | app/Settingsrepository.main.kts:25-29 | `saveData` assigns exactly the three keys of the store |
| SettingsScript.SaveDataRoundTrip | app/Settingsrepository.main.kts:20-30 | after `saveData(c, l, s)` on any store the three flows return c, l and s, and the store is well typed for the three keys |
| SettingsScript.EmptyStoreReadsDefaults | app/Settingsrepository.main.kts:20-22 | without the keys the count reads as 100, and level and speed read as 1 |
| SettingsScript.SaveDataFrame | app/Settingsrepository.main.kts:25-29 | `saveData` writes only its three keys |
| SettingsScript.SaveDataLastWins | app/Settingsrepository.main.kts:24-30 | a later `saveData` erases every trace of an earlier one |
| SettingsScript.SaveDataRepeatChangesNothing | app/Settingsrepository.main.kts:25-29 | repeating `saveData` with the same arguments leaves the store unchanged |
| SettingsScript.SettingsRepository.constructor | app/Settingsrepository.main.kts:10-12 | the script's repository works on the "game_settings" store |
| SettingsScript.SettingsRepository.SaveData | app/Settingsrepository.main.kts:24-30 | the store's new contents are the old contents after the three writes |

## Left out

- Compose layout and rendering (`Scaffold`, `Column`, `Button`, `Text`, sizes, colours, icons), the theme and the `MyFirstButton` component: presentation only, with no logic.
- Recomposition timing: the callbacks capture `count` and `level` when the screen is composed. The model applies each event to the current state, as happens when every click is followed by a recomposition.
- Android `Context`, the DataStore file I/O, coroutines, `suspend` and the timing of `Flow` delivery. A flow is modelled as one lookup on the store's current contents, and an `edit` as an atomic replacement of the contents.
- Reading a key whose stored value has a different type than the key declares. The source would fail with a cast error inside the library. The model instead requires the read key to hold its declared type:
  - A single-key flow requires only its own key.
  - `gameDataFlow`, which reads all eight keys, requires the whole store to be well typed (`WellTyped`).
  - The round trips of `saveGame`, `saveProgress` and `saveData` hold for any prior store, because each of these saves overwrites every key its flows read.
  - For `PreferencesManager`, `SaveData.SaveReadsBack` reads the saved field back on any store. It states that another field reads as before only when that field's own key is well typed, and that a well-typed store stays well typed.
  - For example, `global_count` is an `Int` key in the script but a `Long` key in `SettingsRepository.kt`, and both use the "game_settings" store. `SettingsRepository.ScriptSavedStoreReads` shows that after the script's save, the level and speed flows still read, while the count key holds an `Int`.
- `DataStorage.kt` and `SaveData.kt` both declare a top-level `Context.dataStore` in the same package, and the script `app/Settingsrepository.main.kts` repeats `SettingsRepository` as a standalone variant. Each file is modelled as a module of its own, over its own `DataStore` object.
- The periodic score tick, rebirth and restart, the achievement thresholds, the win threshold and the developer console. None of them appears in these files. The saved fields `speed`, `rebirth`, `rebirthCoef` and the three flags are stored and read back, but nothing here computes them.
- Clicker.RunKeepsLedger: proved only while the points held, plus 10 per level, plus the clicks of the run stay at or below `Int.MAX_VALUE`. Beyond that bound `count + 1` can overflow, which `ClickWrapsAtMaxInt` exhibits.
- Clicker.LedgerFromLaunch: proved only for runs with at most `Int.MAX_VALUE` clicks, for the same reason.
- Clicker.LevelNeverDecreases: proved only for runs with at most `Int.MAX_VALUE` clicks, for the same reason.
- The model follows `MainActivity.kt` as written:
  - The activity starts at level 0, although every store reads a missing level as 1.
  - The upgrade costs a flat 10 points at every level.
  - The activity saves nothing to any of the stores.
