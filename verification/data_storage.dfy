/** `DataStorage`: the whole game record saved in one `edit` of the "game_stats"
    store and read back as a `GameData`, with a default for every missing key. */
module DataStorage {
  import opened KotlinInts
  import opened Prefs

  const STORE_NAME: string := "game_stats"

  const SCORE: string := "score"
  const LEVEL: string := "level"
  const SPEED: string := "speed"
  const REBIRTH: string := "rebirth"
  const REBIRTH_COEF: string := "rebirth_coef"
  const WASTER: string := "waster"
  const WAIT: string := "wait"
  const CEO: string := "ceo"

  /** The eight keys of the store. */
  const KEYS: set<string> := {SCORE, LEVEL, SPEED, REBIRTH, REBIRTH_COEF, WASTER, WAIT, CEO}

  /** The saved progress: score, the four tiers and the three achievement flags. */
  datatype GameData = GameData(
    score: Int64,
    level: Int32,
    speed: Int32,
    rebirth: Int32,
    rebirthCoef: Int32,
    waster: bool,
    wait: bool,
    ceo: bool)

  /** What a read of a store that holds none of the keys produces. */
  const DEFAULTS: GameData := GameData(0, 1, 1, 1, 1, false, false, false)

  /** Every key that is present holds a value of the type its key declares. */
  predicate WellTyped(p: Preferences) {
    && (SCORE in p ==> p[SCORE].LongValue?)
    && (LEVEL in p ==> p[LEVEL].IntValue?)
    && (SPEED in p ==> p[SPEED].IntValue?)
    && (REBIRTH in p ==> p[REBIRTH].IntValue?)
    && (REBIRTH_COEF in p ==> p[REBIRTH_COEF].IntValue?)
    && (WASTER in p ==> p[WASTER].BoolValue?)
    && (WAIT in p ==> p[WAIT].BoolValue?)
    && (CEO in p ==> p[CEO].BoolValue?)
  }

  /** The assignments of `saveGame`'s edit block, in order. */
  function GameWrites(d: GameData): seq<Write> {
    [ Write(SCORE, LongValue(d.score)),
      Write(LEVEL, IntValue(d.level)),
      Write(SPEED, IntValue(d.speed)),
      Write(REBIRTH, IntValue(d.rebirth)),
      Write(REBIRTH_COEF, IntValue(d.rebirthCoef)),
      Write(WASTER, BoolValue(d.waster)),
      Write(WAIT, BoolValue(d.wait)),
      Write(CEO, BoolValue(d.ceo)) ]
  }

  /** `gameDataFlow`: every field read from its key, or its default. */
  function GameDataFlow(p: Preferences): GameData
    requires WellTyped(p)
  {
    GameData(
      LongOr(p, SCORE, 0),
      IntOr(p, LEVEL, 1),
      IntOr(p, SPEED, 1),
      IntOr(p, REBIRTH, 1),
      IntOr(p, REBIRTH_COEF, 1),
      BoolOr(p, WASTER, false),
      BoolOr(p, WAIT, false),
      BoolOr(p, CEO, false))
  }

  /** `scoreFlow`. */
  function ScoreFlow(p: Preferences): Int64
    requires SCORE in p ==> p[SCORE].LongValue?
  {
    LongOr(p, SCORE, 0)
  }

  /** `levelFlow`. */
  function LevelFlow(p: Preferences): Int32
    requires LEVEL in p ==> p[LEVEL].IntValue?
  {
    IntOr(p, LEVEL, 1)
  }

  /** `speedFlow`. */
  function SpeedFlow(p: Preferences): Int32
    requires SPEED in p ==> p[SPEED].IntValue?
  {
    IntOr(p, SPEED, 1)
  }

  /** `rebirthFlow`. */
  function RebirthFlow(p: Preferences): Int32
    requires REBIRTH in p ==> p[REBIRTH].IntValue?
  {
    IntOr(p, REBIRTH, 1)
  }

  /** `rCoefFlow`. */
  function RebirthCoefFlow(p: Preferences): Int32
    requires REBIRTH_COEF in p ==> p[REBIRTH_COEF].IntValue?
  {
    IntOr(p, REBIRTH_COEF, 1)
  }

  /** The edit block of `saveGame` is eight map updates, one per key, in source order. */
  lemma SaveGameUpdates(p: Preferences, d: GameData)
    ensures Apply(p, GameWrites(d)) == p[SCORE := LongValue(d.score)][LEVEL := IntValue(d.level)]
      [SPEED := IntValue(d.speed)][REBIRTH := IntValue(d.rebirth)][REBIRTH_COEF := IntValue(d.rebirthCoef)]
      [WASTER := BoolValue(d.waster)][WAIT := BoolValue(d.wait)][CEO := BoolValue(d.ceo)]
  {
    var ws := GameWrites(d);
    var m := p[SCORE := LongValue(d.score)];
    assert Apply(p, ws) == Apply(m, ws[1..]);
    assert Apply(m, ws[1..]) == Apply(m[LEVEL := IntValue(d.level)], ws[2..]) by { assert ws[1..][1..] == ws[2..]; }
    m := m[LEVEL := IntValue(d.level)];
    assert Apply(m, ws[2..]) == Apply(m[SPEED := IntValue(d.speed)], ws[3..]) by { assert ws[2..][1..] == ws[3..]; }
    m := m[SPEED := IntValue(d.speed)];
    assert Apply(m, ws[3..]) == Apply(m[REBIRTH := IntValue(d.rebirth)], ws[4..]) by { assert ws[3..][1..] == ws[4..]; }
    m := m[REBIRTH := IntValue(d.rebirth)];
    assert Apply(m, ws[4..]) == Apply(m[REBIRTH_COEF := IntValue(d.rebirthCoef)], ws[5..]) by { assert ws[4..][1..] == ws[5..]; }
    m := m[REBIRTH_COEF := IntValue(d.rebirthCoef)];
    assert Apply(m, ws[5..]) == Apply(m[WASTER := BoolValue(d.waster)], ws[6..]) by { assert ws[5..][1..] == ws[6..]; }
    m := m[WASTER := BoolValue(d.waster)];
    assert Apply(m, ws[6..]) == Apply(m[WAIT := BoolValue(d.wait)], ws[7..]) by { assert ws[6..][1..] == ws[7..]; }
    m := m[WAIT := BoolValue(d.wait)];
    assert Apply(m, ws[7..]) == Apply(m[CEO := BoolValue(d.ceo)], ws[8..]) by { assert ws[7..][1..] == ws[8..]; }
    m := m[CEO := BoolValue(d.ceo)];
    assert ws[8..] == [];
  }

  /** The eight key names are pairwise distinct. */
  lemma GameKeysDistinct(d: GameData)
    ensures DistinctKeys(GameWrites(d))
    ensures |KEYS| == 8
  {
  }

  /** The edit assigns exactly the eight keys of the store. */
  lemma GameWritesKeys(d: GameData)
    ensures KeysOf(GameWrites(d)) == KEYS
  {
    SaveGameUpdates(map[], d);
    ApplyKeys(map[], GameWrites(d));
  }

  /** Saving and then reading gives back exactly what was saved, whatever the store held before. */
  lemma SaveGameRoundTrip(p: Preferences, d: GameData)
    ensures WellTyped(Apply(p, GameWrites(d)))
    ensures GameDataFlow(Apply(p, GameWrites(d))) == d
  {
    SaveGameUpdates(p, d);
  }

  /** Every key other than the eight keeps its presence and its value. */
  lemma SaveGameFrame(p: Preferences, d: GameData, k: string)
    requires k !in KEYS
    ensures k in Apply(p, GameWrites(d)) <==> k in p
    ensures k in p ==> Apply(p, GameWrites(d))[k] == p[k]
  {
    GameWritesKeys(d);
    ApplyLeavesOthers(p, GameWrites(d), k);
  }

  /** A second save leaves no trace of the first; saving the same record twice is saving it once. */
  lemma SaveGameLastWins(p: Preferences, d1: GameData, d2: GameData)
    ensures Apply(Apply(p, GameWrites(d1)), GameWrites(d2)) == Apply(p, GameWrites(d2))
  {
    GameWritesKeys(d1);
    GameWritesKeys(d2);
    ApplyOverwrites(p, GameWrites(d1), GameWrites(d2));
  }

  /** A store that holds none of the keys reads as all defaults. */
  lemma EmptyStoreReadsDefaults(p: Preferences)
    requires p.Keys !! KEYS
    ensures WellTyped(p)
    ensures GameDataFlow(p) == GameData(0, 1, 1, 1, 1, false, false, false)
  {
  }

  /** When only the keys in `present` of a saved record remain, each of them still
      reads as saved and every other field falls back to its own default. */
  lemma PartialStoreReadsPerField(d: GameData, present: set<string>)
    ensures WellTyped(Apply(map[], GameWrites(d)) - (KEYS - present))
    ensures GameDataFlow(Apply(map[], GameWrites(d)) - (KEYS - present)) == GameData(
      if SCORE in present then d.score else DEFAULTS.score,
      if LEVEL in present then d.level else DEFAULTS.level,
      if SPEED in present then d.speed else DEFAULTS.speed,
      if REBIRTH in present then d.rebirth else DEFAULTS.rebirth,
      if REBIRTH_COEF in present then d.rebirthCoef else DEFAULTS.rebirthCoef,
      if WASTER in present then d.waster else DEFAULTS.waster,
      if WAIT in present then d.wait else DEFAULTS.wait,
      if CEO in present then d.ceo else DEFAULTS.ceo)
  {
    SaveGameUpdates(map[], d);
  }

  /** The single-field flows agree with the matching fields of `gameDataFlow`. */
  lemma FieldFlowsAgree(p: Preferences)
    requires WellTyped(p)
    ensures ScoreFlow(p) == GameDataFlow(p).score
    ensures LevelFlow(p) == GameDataFlow(p).level
    ensures SpeedFlow(p) == GameDataFlow(p).speed
    ensures RebirthFlow(p) == GameDataFlow(p).rebirth
    ensures RebirthCoefFlow(p) == GameDataFlow(p).rebirthCoef
  {
  }

  /** The repository over the "game_stats" store. */
  class DataStorage {
    const store: DataStore

    constructor (store: DataStore)
      requires store.name == STORE_NAME
      ensures this.store == store
    {
      this.store := store;
    }

    /** `saveGame`: one edit that assigns the eight keys in turn. */
    method SaveGame(score: Int64, level: Int32, speed: Int32, reb: Int32, rebC: Int32,
                    waster: bool, wait: bool, ceo: bool)
      modifies store
      ensures store.prefs == Apply(old(store.prefs),
                                   GameWrites(GameData(score, level, speed, reb, rebC, waster, wait, ceo)))
    {
      SaveGameUpdates(store.prefs, GameData(score, level, speed, reb, rebC, waster, wait, ceo));
      var pref := store.prefs;
      pref := pref[SCORE := LongValue(score)];
      pref := pref[LEVEL := IntValue(level)];
      pref := pref[SPEED := IntValue(speed)];
      pref := pref[REBIRTH := IntValue(reb)];
      pref := pref[REBIRTH_COEF := IntValue(rebC)];
      pref := pref[WASTER := BoolValue(waster)];
      pref := pref[WAIT := BoolValue(wait)];
      pref := pref[CEO := BoolValue(ceo)];
      store.prefs := pref;
    }
  }
}
