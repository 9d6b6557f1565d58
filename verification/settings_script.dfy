/** The script variant of `SettingsRepository` (app/Settingsrepository.main.kts):
    three `Int` keys of the "game_settings" store, saved together by `saveData`,
    where a missing count reads as one hundred points. */
module SettingsScript {
  import opened KotlinInts
  import opened Prefs

  const STORE_NAME: string := "game_settings"

  const COUNT_KEY: string := "global_count"
  const LEVEL_KEY: string := "shop_level"
  const SPEED_KEY: string := "speed_coef"

  /** The three keys of the script. */
  const KEYS: set<string> := {COUNT_KEY, LEVEL_KEY, SPEED_KEY}

  /** Every key that is present holds an `Int`, the type all three keys declare. */
  predicate WellTyped(p: Preferences) {
    && (COUNT_KEY in p ==> p[COUNT_KEY].IntValue?)
    && (LEVEL_KEY in p ==> p[LEVEL_KEY].IntValue?)
    && (SPEED_KEY in p ==> p[SPEED_KEY].IntValue?)
  }

  /** `countFlow`: a missing count reads as 100. */
  function CountFlow(p: Preferences): Int32
    requires COUNT_KEY in p ==> p[COUNT_KEY].IntValue?
  {
    IntOr(p, COUNT_KEY, 100)
  }

  /** `levelFlow`. */
  function LevelFlow(p: Preferences): Int32
    requires LEVEL_KEY in p ==> p[LEVEL_KEY].IntValue?
  {
    IntOr(p, LEVEL_KEY, 1)
  }

  /** `speedFlow`. */
  function SpeedFlow(p: Preferences): Int32
    requires SPEED_KEY in p ==> p[SPEED_KEY].IntValue?
  {
    IntOr(p, SPEED_KEY, 1)
  }

  /** The assignments of `saveData`'s edit block, in order. */
  function DataWrites(count: Int32, level: Int32, speed: Int32): seq<Write> {
    [Write(COUNT_KEY, IntValue(count)), Write(LEVEL_KEY, IntValue(level)), Write(SPEED_KEY, IntValue(speed))]
  }

  /** The edit block of `saveData` is three map updates, in source order. */
  lemma SaveDataUpdates(p: Preferences, count: Int32, level: Int32, speed: Int32)
    ensures Apply(p, DataWrites(count, level, speed))
         == p[COUNT_KEY := IntValue(count)][LEVEL_KEY := IntValue(level)][SPEED_KEY := IntValue(speed)]
  {
    var ws := DataWrites(count, level, speed);
    assert ws[..0] == [];
    var m := p;
    assert Apply(p, ws[..0]) == m;
    m := m[COUNT_KEY := IntValue(count)];
    assert Apply(p, ws[..1]) == m by { ApplyExtend(p, ws, 0); }
    m := m[LEVEL_KEY := IntValue(level)];
    assert Apply(p, ws[..2]) == m by { ApplyExtend(p, ws, 1); }
    m := m[SPEED_KEY := IntValue(speed)];
    assert Apply(p, ws[..3]) == m by { ApplyExtend(p, ws, 2); }
    assert ws[..3] == ws;
  }

  /** The three key names are pairwise distinct. */
  lemma DataKeysDistinct(count: Int32, level: Int32, speed: Int32)
    ensures DistinctKeys(DataWrites(count, level, speed))
    ensures |KEYS| == 3
  {
  }

  /** The edit assigns exactly the three keys of the store. */
  lemma DataWritesKeys(count: Int32, level: Int32, speed: Int32)
    ensures KeysOf(DataWrites(count, level, speed)) == KEYS
  {
    SaveDataUpdates(map[], count, level, speed);
    ApplyKeys(map[], DataWrites(count, level, speed));
  }

  /** After `saveData(c, l, s)` the three flows return `c`, `l` and `s`, whatever the store held before. */
  lemma SaveDataRoundTrip(p: Preferences, count: Int32, level: Int32, speed: Int32)
    ensures WellTyped(Apply(p, DataWrites(count, level, speed)))
    ensures CountFlow(Apply(p, DataWrites(count, level, speed))) == count
    ensures LevelFlow(Apply(p, DataWrites(count, level, speed))) == level
    ensures SpeedFlow(Apply(p, DataWrites(count, level, speed))) == speed
  {
    SaveDataUpdates(p, count, level, speed);
  }

  /** A store without the keys: the count reads as 100, the level and the speed as 1. */
  lemma EmptyStoreReadsDefaults(p: Preferences)
    requires p.Keys !! KEYS
    ensures WellTyped(p)
    ensures CountFlow(p) == 100 && LevelFlow(p) == 1 && SpeedFlow(p) == 1
  {
  }

  /** Every key other than the three keeps its presence and its value. */
  lemma SaveDataFrame(p: Preferences, count: Int32, level: Int32, speed: Int32, k: string)
    requires k !in KEYS
    ensures k in Apply(p, DataWrites(count, level, speed)) <==> k in p
    ensures k in p ==> Apply(p, DataWrites(count, level, speed))[k] == p[k]
  {
    DataWritesKeys(count, level, speed);
    ApplyLeavesOthers(p, DataWrites(count, level, speed), k);
  }

  /** A later `saveData` leaves no trace of an earlier one. */
  lemma SaveDataLastWins(p: Preferences, c1: Int32, l1: Int32, s1: Int32, c2: Int32, l2: Int32, s2: Int32)
    ensures Apply(Apply(p, DataWrites(c1, l1, s1)), DataWrites(c2, l2, s2)) == Apply(p, DataWrites(c2, l2, s2))
  {
    DataWritesKeys(c1, l1, s1);
    DataWritesKeys(c2, l2, s2);
    ApplyOverwrites(p, DataWrites(c1, l1, s1), DataWrites(c2, l2, s2));
  }

  /** Once the values are saved, saving them again leaves the store as it is. */
  lemma SaveDataRepeatChangesNothing(p: Preferences, count: Int32, level: Int32, speed: Int32)
    ensures var saved := Apply(p, DataWrites(count, level, speed));
            Apply(saved, DataWrites(count, level, speed)) == saved
  {
    ApplyIdempotent(p, DataWrites(count, level, speed));
  }

  /** The script's repository over the "game_settings" store. */
  class SettingsRepository {
    const store: DataStore

    constructor (store: DataStore)
      requires store.name == STORE_NAME
      ensures this.store == store
    {
      this.store := store;
    }

    /** `saveData`: one edit that assigns the three keys in turn. */
    method SaveData(count: Int32, level: Int32, speed: Int32)
      modifies store
      ensures store.prefs == Apply(old(store.prefs), DataWrites(count, level, speed))
    {
      SaveDataUpdates(store.prefs, count, level, speed);
      var preferences := store.prefs;
      preferences := preferences[COUNT_KEY := IntValue(count)];
      preferences := preferences[LEVEL_KEY := IntValue(level)];
      preferences := preferences[SPEED_KEY := IntValue(speed)];
      store.prefs := preferences;
    }
  }
}
