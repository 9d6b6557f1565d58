/** `SettingsRepository`: the progress saved in one `edit` of the "game_settings"
    store and read back through eight flows, each with its own default. */
module SettingsRepository {
  import opened KotlinInts
  import opened Prefs
  import SettingsScript

  const STORE_NAME: string := "game_settings"

  const COUNT_KEY: string := "global_count"
  const LEVEL_KEY: string := "shop_level"
  const SPEED_KEY: string := "speed_coef"
  const REBIRTH_KEY: string := "rebirth"
  const REBIRTH_COEF_KEY: string := "rebirth_coef"
  const COMP_WASTER_KEY: string := "comp_waster"
  const COMP_WAIT_KEY: string := "comp_wait"
  const COMP_CEO_KEY: string := "comp_ceo"

  /** The eight keys of the store. */
  const KEYS: set<string> := {COUNT_KEY, LEVEL_KEY, SPEED_KEY, REBIRTH_KEY, REBIRTH_COEF_KEY,
                              COMP_WASTER_KEY, COMP_WAIT_KEY, COMP_CEO_KEY}

  /** The arguments of `saveProgress`, as one value. */
  datatype Progress = Progress(
    count: Int64,
    level: Int32,
    speed: Int32,
    rebirth: Int32,
    rebirthCoef: Int32,
    compWaster: bool,
    compWait: bool,
    compCEO: bool)

  /** Every key that is present holds a value of the type its key declares. */
  predicate WellTyped(p: Preferences) {
    && (COUNT_KEY in p ==> p[COUNT_KEY].LongValue?)
    && (LEVEL_KEY in p ==> p[LEVEL_KEY].IntValue?)
    && (SPEED_KEY in p ==> p[SPEED_KEY].IntValue?)
    && (REBIRTH_KEY in p ==> p[REBIRTH_KEY].IntValue?)
    && (REBIRTH_COEF_KEY in p ==> p[REBIRTH_COEF_KEY].IntValue?)
    && (COMP_WASTER_KEY in p ==> p[COMP_WASTER_KEY].BoolValue?)
    && (COMP_WAIT_KEY in p ==> p[COMP_WAIT_KEY].BoolValue?)
    && (COMP_CEO_KEY in p ==> p[COMP_CEO_KEY].BoolValue?)
  }

  /** `countFlow`: note the default of one point, not zero. */
  function CountFlow(p: Preferences): Int64
    requires COUNT_KEY in p ==> p[COUNT_KEY].LongValue?
  {
    LongOr(p, COUNT_KEY, 1)
  }

  /** `levelFlow`. */
  function LevelFlow(p: Preferences): Int32
    requires LEVEL_KEY in p ==> p[LEVEL_KEY].IntValue?
  {
    IntOr(p, LEVEL_KEY, 1)
  }

  /** `speedFlow`. */
  function SpeedFlow(p: Preferences): Int32
    requires SPEED_KEY in p ==> p[SPEED_KEY].IntValue?
  {
    IntOr(p, SPEED_KEY, 1)
  }

  /** `rebirthFlow`. */
  function RebirthFlow(p: Preferences): Int32
    requires REBIRTH_KEY in p ==> p[REBIRTH_KEY].IntValue?
  {
    IntOr(p, REBIRTH_KEY, 1)
  }

  /** `rebirthCoefFlow`. */
  function RebirthCoefFlow(p: Preferences): Int32
    requires REBIRTH_COEF_KEY in p ==> p[REBIRTH_COEF_KEY].IntValue?
  {
    IntOr(p, REBIRTH_COEF_KEY, 1)
  }

  /** `compWasterFlow`. */
  function CompWasterFlow(p: Preferences): bool
    requires COMP_WASTER_KEY in p ==> p[COMP_WASTER_KEY].BoolValue?
  {
    BoolOr(p, COMP_WASTER_KEY, false)
  }

  /** `compWaitFlow`. */
  function CompWaitFlow(p: Preferences): bool
    requires COMP_WAIT_KEY in p ==> p[COMP_WAIT_KEY].BoolValue?
  {
    BoolOr(p, COMP_WAIT_KEY, false)
  }

  /** `compCEOFlow`. */
  function CompCeoFlow(p: Preferences): bool
    requires COMP_CEO_KEY in p ==> p[COMP_CEO_KEY].BoolValue?
  {
    BoolOr(p, COMP_CEO_KEY, false)
  }

  /** The assignments of `saveProgress`'s edit block, in order. */
  function ProgressWrites(g: Progress): seq<Write> {
    [ Write(COUNT_KEY, LongValue(g.count)),
      Write(LEVEL_KEY, IntValue(g.level)),
      Write(SPEED_KEY, IntValue(g.speed)),
      Write(REBIRTH_KEY, IntValue(g.rebirth)),
      Write(REBIRTH_COEF_KEY, IntValue(g.rebirthCoef)),
      Write(COMP_WASTER_KEY, BoolValue(g.compWaster)),
      Write(COMP_WAIT_KEY, BoolValue(g.compWait)),
      Write(COMP_CEO_KEY, BoolValue(g.compCEO)) ]
  }

  /** The edit block of `saveProgress` is eight map updates, one per key, in source order. */
  lemma SaveProgressUpdates(p: Preferences, g: Progress)
    ensures Apply(p, ProgressWrites(g)) == p[COUNT_KEY := LongValue(g.count)][LEVEL_KEY := IntValue(g.level)]
      [SPEED_KEY := IntValue(g.speed)][REBIRTH_KEY := IntValue(g.rebirth)]
      [REBIRTH_COEF_KEY := IntValue(g.rebirthCoef)][COMP_WASTER_KEY := BoolValue(g.compWaster)]
      [COMP_WAIT_KEY := BoolValue(g.compWait)][COMP_CEO_KEY := BoolValue(g.compCEO)]
  {
    var ws := ProgressWrites(g);
    var m := p[COUNT_KEY := LongValue(g.count)];
    assert Apply(p, ws) == Apply(m, ws[1..]);
    assert Apply(m, ws[1..]) == Apply(m[LEVEL_KEY := IntValue(g.level)], ws[2..]) by { assert ws[1..][1..] == ws[2..]; }
    m := m[LEVEL_KEY := IntValue(g.level)];
    assert Apply(m, ws[2..]) == Apply(m[SPEED_KEY := IntValue(g.speed)], ws[3..]) by { assert ws[2..][1..] == ws[3..]; }
    m := m[SPEED_KEY := IntValue(g.speed)];
    assert Apply(m, ws[3..]) == Apply(m[REBIRTH_KEY := IntValue(g.rebirth)], ws[4..]) by { assert ws[3..][1..] == ws[4..]; }
    m := m[REBIRTH_KEY := IntValue(g.rebirth)];
    assert Apply(m, ws[4..]) == Apply(m[REBIRTH_COEF_KEY := IntValue(g.rebirthCoef)], ws[5..]) by { assert ws[4..][1..] == ws[5..]; }
    m := m[REBIRTH_COEF_KEY := IntValue(g.rebirthCoef)];
    assert Apply(m, ws[5..]) == Apply(m[COMP_WASTER_KEY := BoolValue(g.compWaster)], ws[6..]) by { assert ws[5..][1..] == ws[6..]; }
    m := m[COMP_WASTER_KEY := BoolValue(g.compWaster)];
    assert Apply(m, ws[6..]) == Apply(m[COMP_WAIT_KEY := BoolValue(g.compWait)], ws[7..]) by { assert ws[6..][1..] == ws[7..]; }
    m := m[COMP_WAIT_KEY := BoolValue(g.compWait)];
    assert Apply(m, ws[7..]) == Apply(m[COMP_CEO_KEY := BoolValue(g.compCEO)], ws[8..]) by { assert ws[7..][1..] == ws[8..]; }
    m := m[COMP_CEO_KEY := BoolValue(g.compCEO)];
    assert ws[8..] == [];
  }

  /** The eight key names are pairwise distinct. */
  lemma ProgressKeysDistinct(g: Progress)
    ensures DistinctKeys(ProgressWrites(g))
    ensures |KEYS| == 8
  {
  }

  /** The edit assigns exactly the eight keys of the store. */
  lemma ProgressWritesKeys(g: Progress)
    ensures KeysOf(ProgressWrites(g)) == KEYS
  {
    SaveProgressUpdates(map[], g);
    ApplyKeys(map[], ProgressWrites(g));
  }

  /** After a save, each of the eight flows returns the matching argument, whatever the store held
      before: the save overwrites every key, even one that held a value of another type. */
  lemma SaveProgressRoundTrip(p: Preferences, g: Progress)
    ensures WellTyped(Apply(p, ProgressWrites(g)))
    ensures CountFlow(Apply(p, ProgressWrites(g))) == g.count
    ensures LevelFlow(Apply(p, ProgressWrites(g))) == g.level
    ensures SpeedFlow(Apply(p, ProgressWrites(g))) == g.speed
    ensures RebirthFlow(Apply(p, ProgressWrites(g))) == g.rebirth
    ensures RebirthCoefFlow(Apply(p, ProgressWrites(g))) == g.rebirthCoef
    ensures CompWasterFlow(Apply(p, ProgressWrites(g))) == g.compWaster
    ensures CompWaitFlow(Apply(p, ProgressWrites(g))) == g.compWait
    ensures CompCeoFlow(Apply(p, ProgressWrites(g))) == g.compCEO
  {
    SaveProgressUpdates(p, g);
  }

  /** A store that holds none of the keys: the count reads as one, the four tiers
      as one and the three flags as false. */
  lemma EmptyStoreReadsDefaults(p: Preferences)
    requires p.Keys !! KEYS
    ensures WellTyped(p)
    ensures CountFlow(p) == 1
    ensures LevelFlow(p) == 1 && SpeedFlow(p) == 1 && RebirthFlow(p) == 1 && RebirthCoefFlow(p) == 1
    ensures !CompWasterFlow(p) && !CompWaitFlow(p) && !CompCeoFlow(p)
  {
  }

  /** Every key other than the eight keeps its presence and its value. */
  lemma SaveProgressFrame(p: Preferences, g: Progress, k: string)
    requires k !in KEYS
    ensures k in Apply(p, ProgressWrites(g)) <==> k in p
    ensures k in p ==> Apply(p, ProgressWrites(g))[k] == p[k]
  {
    ProgressWritesKeys(g);
    ApplyLeavesOthers(p, ProgressWrites(g), k);
  }

  /** Of two successive saves only the second is visible; saving the same values twice is saving them once. */
  lemma SaveProgressLastWins(p: Preferences, g1: Progress, g2: Progress)
    ensures Apply(Apply(p, ProgressWrites(g1)), ProgressWrites(g2)) == Apply(p, ProgressWrites(g2))
    ensures Apply(Apply(p, ProgressWrites(g2)), ProgressWrites(g2)) == Apply(p, ProgressWrites(g2))
  {
    ProgressWritesKeys(g1);
    ProgressWritesKeys(g2);
    ApplyOverwrites(p, ProgressWrites(g1), ProgressWrites(g2));
    ApplyIdempotent(p, ProgressWrites(g2));
  }

  /** Both repositories use the "game_settings" store. After the script's `saveData`, this
      repository's level and speed flows read what the script saved, because each flow looks
      only at its own key, while "global_count" holds an `Int` where `countFlow` expects a `Long`. */
  lemma ScriptSavedStoreReads(p: Preferences, count: Int32, level: Int32, speed: Int32)
    ensures var q := Apply(p, SettingsScript.DataWrites(count, level, speed));
            && q.Keys >= {COUNT_KEY, LEVEL_KEY, SPEED_KEY}
            && q[LEVEL_KEY] == IntValue(level) && LevelFlow(q) == level
            && q[SPEED_KEY] == IntValue(speed) && SpeedFlow(q) == speed
            && !q[COUNT_KEY].LongValue?
  {
    assert SettingsScript.COUNT_KEY == COUNT_KEY && SettingsScript.LEVEL_KEY == LEVEL_KEY;
    assert SettingsScript.SPEED_KEY == SPEED_KEY;
    SettingsScript.SaveDataUpdates(p, count, level, speed);
  }

  /** The repository over the "game_settings" store. */
  class SettingsRepository {
    const store: DataStore

    constructor (store: DataStore)
      requires store.name == STORE_NAME
      ensures this.store == store
    {
      this.store := store;
    }

    /** `saveProgress`: one edit that assigns the eight keys in turn. */
    method SaveProgress(count: Int64, level: Int32, speed: Int32, rebirth: Int32, rebirthCoef: Int32,
                        compWaster: bool, compWait: bool, compCEO: bool)
      modifies store
      ensures store.prefs == Apply(old(store.prefs), ProgressWrites(
        Progress(count, level, speed, rebirth, rebirthCoef, compWaster, compWait, compCEO)))
    {
      SaveProgressUpdates(store.prefs,
        Progress(count, level, speed, rebirth, rebirthCoef, compWaster, compWait, compCEO));
      var preferences := store.prefs;
      preferences := preferences[COUNT_KEY := LongValue(count)];
      preferences := preferences[LEVEL_KEY := IntValue(level)];
      preferences := preferences[SPEED_KEY := IntValue(speed)];
      preferences := preferences[REBIRTH_KEY := IntValue(rebirth)];
      preferences := preferences[REBIRTH_COEF_KEY := IntValue(rebirthCoef)];
      preferences := preferences[COMP_WASTER_KEY := BoolValue(compWaster)];
      preferences := preferences[COMP_WAIT_KEY := BoolValue(compWait)];
      preferences := preferences[COMP_CEO_KEY := BoolValue(compCEO)];
      store.prefs := preferences;
    }
  }
}
