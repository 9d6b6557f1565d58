/** `PreferencesManager`: eight fields of the "game_prefs" store, each saved by
    its own single-key `edit` and read back through its own flow with a default. */
module SaveData {
  import opened KotlinInts
  import opened Prefs

  const STORE_NAME: string := "game_prefs"

  /** The eight stored fields, one per key of `PreferencesKeys`. */
  datatype Field =
    | GlobalCount | ShopLevel | SpeedCoef | Rebirth | RebirthCoef
    | CompleteProfessional | CompleteWait | CompleteCeo

  /** The key name of a field. */
  function KeyOf(f: Field): string {
    match f
    case GlobalCount => "global_count"
    case ShopLevel => "shop_level"
    case SpeedCoef => "speed_coef"
    case Rebirth => "rebirth"
    case RebirthCoef => "rebirth_coef"
    case CompleteProfessional => "complete_professional"
    case CompleteWait => "complete_wait"
    case CompleteCeo => "complete_ceo"
  }

  /** Whether a value has the type the field's key declares. */
  predicate Fits(f: Field, v: Value) {
    match f
    case GlobalCount => v.LongValue?
    case CompleteProfessional | CompleteWait | CompleteCeo => v.BoolValue?
    case _ => v.IntValue?
  }

  /** The field's key, when present, holds a value of the field's type. */
  predicate FieldTyped(p: Preferences, f: Field) {
    KeyOf(f) in p ==> Fits(f, p[KeyOf(f)])
  }

  /** Every field's key that is present holds a value of the field's type. */
  predicate WellTyped(p: Preferences) {
    forall f: Field :: FieldTyped(p, f)
  }

  /** `globalCountFlow`. */
  function GlobalCountFlow(p: Preferences): Int64
    requires FieldTyped(p, GlobalCount)
  {
    LongOr(p, KeyOf(GlobalCount), 0)
  }

  /** `shopLevelFlow`. */
  function ShopLevelFlow(p: Preferences): Int32
    requires FieldTyped(p, ShopLevel)
  {
    IntOr(p, KeyOf(ShopLevel), 1)
  }

  /** `speedCoefFlow`. */
  function SpeedCoefFlow(p: Preferences): Int32
    requires FieldTyped(p, SpeedCoef)
  {
    IntOr(p, KeyOf(SpeedCoef), 1)
  }

  /** `rebirthFlow`. */
  function RebirthFlow(p: Preferences): Int32
    requires FieldTyped(p, Rebirth)
  {
    IntOr(p, KeyOf(Rebirth), 1)
  }

  /** `rebirthCoefFlow`. */
  function RebirthCoefFlow(p: Preferences): Int32
    requires FieldTyped(p, RebirthCoef)
  {
    IntOr(p, KeyOf(RebirthCoef), 1)
  }

  /** `completeProfessionalFlow`. */
  function CompleteProfessionalFlow(p: Preferences): bool
    requires FieldTyped(p, CompleteProfessional)
  {
    BoolOr(p, KeyOf(CompleteProfessional), false)
  }

  /** `completeWaitFlow`. */
  function CompleteWaitFlow(p: Preferences): bool
    requires FieldTyped(p, CompleteWait)
  {
    BoolOr(p, KeyOf(CompleteWait), false)
  }

  /** `completeCEOFlow`. */
  function CompleteCeoFlow(p: Preferences): bool
    requires FieldTyped(p, CompleteCeo)
  {
    BoolOr(p, KeyOf(CompleteCeo), false)
  }

  /** The flow of a field, as a tagged value. */
  function FieldFlow(p: Preferences, f: Field): Value
    requires FieldTyped(p, f)
  {
    match f
    case GlobalCount => LongValue(GlobalCountFlow(p))
    case ShopLevel => IntValue(ShopLevelFlow(p))
    case SpeedCoef => IntValue(SpeedCoefFlow(p))
    case Rebirth => IntValue(RebirthFlow(p))
    case RebirthCoef => IntValue(RebirthCoefFlow(p))
    case CompleteProfessional => BoolValue(CompleteProfessionalFlow(p))
    case CompleteWait => BoolValue(CompleteWaitFlow(p))
    case CompleteCeo => BoolValue(CompleteCeoFlow(p))
  }

  /** The edit block of a `saveX` method: the single assignment of its field. */
  function SaveWrites(f: Field, v: Value): seq<Write> {
    [Write(KeyOf(f), v)]
  }

  /** A single-key edit is one map update. */
  lemma SaveUpdates(p: Preferences, f: Field, v: Value)
    ensures Apply(p, SaveWrites(f, v)) == p[KeyOf(f) := v]
    ensures KeysOf(SaveWrites(f, v)) == {KeyOf(f)}
  {
    var ws := SaveWrites(f, v);
    assert ws[1..] == [];
  }

  /** The key names are pairwise distinct: no two fields share a key. */
  lemma KeysDistinct(f: Field, g: Field)
    ensures KeyOf(f) == KeyOf(g) <==> f == g
  {
  }

  /** A save changes its own field to the saved value, on any store; every other field
      whose key is well typed reads as before; and a well-typed store stays well typed. */
  lemma SaveReadsBack(p: Preferences, f: Field, v: Value)
    requires Fits(f, v)
    ensures FieldTyped(Apply(p, SaveWrites(f, v)), f)
    ensures FieldFlow(Apply(p, SaveWrites(f, v)), f) == v
    ensures forall g :: g != f && FieldTyped(p, g) ==>
              FieldTyped(Apply(p, SaveWrites(f, v)), g) && FieldFlow(Apply(p, SaveWrites(f, v)), g) == FieldFlow(p, g)
    ensures WellTyped(p) ==> WellTyped(Apply(p, SaveWrites(f, v)))
  {
    SaveUpdates(p, f, v);
    var q := p[KeyOf(f) := v];
    forall g | g != f
      ensures KeyOf(g) in q <==> KeyOf(g) in p
      ensures KeyOf(g) in p ==> q[KeyOf(g)] == p[KeyOf(g)]
    {
      KeysDistinct(f, g);
    }
  }

  /** A save changes only its own key. */
  lemma SaveFrame(p: Preferences, f: Field, v: Value, k: string)
    requires k != KeyOf(f)
    ensures k in Apply(p, SaveWrites(f, v)) <==> k in p
    ensures k in p ==> Apply(p, SaveWrites(f, v))[k] == p[k]
  {
    SaveUpdates(p, f, v);
  }

  /** Saves of different fields commute. */
  lemma SavesCommute(p: Preferences, f: Field, v: Value, g: Field, w: Value)
    requires f != g
    ensures Apply(Apply(p, SaveWrites(f, v)), SaveWrites(g, w))
         == Apply(Apply(p, SaveWrites(g, w)), SaveWrites(f, v))
  {
    KeysDistinct(f, g);
    SaveUpdates(p, f, v);
    SaveUpdates(p, g, w);
    ApplyCommutes(p, SaveWrites(f, v), SaveWrites(g, w));
  }

  /** Saving the same field twice keeps only the later value. */
  lemma SaveTwiceLastWins(p: Preferences, f: Field, v: Value, w: Value)
    ensures Apply(Apply(p, SaveWrites(f, v)), SaveWrites(f, w)) == Apply(p, SaveWrites(f, w))
  {
    SaveUpdates(p, f, v);
    SaveUpdates(p, f, w);
    ApplyOverwrites(p, SaveWrites(f, v), SaveWrites(f, w));
  }

  /** A store that holds no field's key: the count reads as 0, the shop level, speed,
      rebirth and rebirth coefficient as 1, and the three completion flags as false. */
  lemma EmptyStoreReadsDefaults(p: Preferences)
    requires forall f :: KeyOf(f) !in p
    ensures WellTyped(p)
    ensures GlobalCountFlow(p) == 0
    ensures ShopLevelFlow(p) == 1 && SpeedCoefFlow(p) == 1 && RebirthFlow(p) == 1 && RebirthCoefFlow(p) == 1
    ensures !CompleteProfessionalFlow(p) && !CompleteWaitFlow(p) && !CompleteCeoFlow(p)
  {
  }

  /** The manager over the "game_prefs" store. */
  class PreferencesManager {
    const store: DataStore

    constructor (store: DataStore)
      requires store.name == STORE_NAME
      ensures this.store == store
    {
      this.store := store;
    }

    /** `saveGlobalCount`. */
    method SaveGlobalCount(count: Int64)
      modifies store
      ensures store.prefs == Apply(old(store.prefs), SaveWrites(GlobalCount, LongValue(count)))
    {
      SaveUpdates(store.prefs, GlobalCount, LongValue(count));
      store.prefs := store.prefs[KeyOf(GlobalCount) := LongValue(count)];
    }

    /** `saveShopLevel`. */
    method SaveShopLevel(level: Int32)
      modifies store
      ensures store.prefs == Apply(old(store.prefs), SaveWrites(ShopLevel, IntValue(level)))
    {
      SaveUpdates(store.prefs, ShopLevel, IntValue(level));
      store.prefs := store.prefs[KeyOf(ShopLevel) := IntValue(level)];
    }

    /** `saveSpeedCoef`. */
    method SaveSpeedCoef(coef: Int32)
      modifies store
      ensures store.prefs == Apply(old(store.prefs), SaveWrites(SpeedCoef, IntValue(coef)))
    {
      SaveUpdates(store.prefs, SpeedCoef, IntValue(coef));
      store.prefs := store.prefs[KeyOf(SpeedCoef) := IntValue(coef)];
    }

    /** `saveRebirth`. */
    method SaveRebirth(rebirth: Int32)
      modifies store
      ensures store.prefs == Apply(old(store.prefs), SaveWrites(Rebirth, IntValue(rebirth)))
    {
      SaveUpdates(store.prefs, Rebirth, IntValue(rebirth));
      store.prefs := store.prefs[KeyOf(Rebirth) := IntValue(rebirth)];
    }

    /** `saveRebirthCoef`. */
    method SaveRebirthCoef(coef: Int32)
      modifies store
      ensures store.prefs == Apply(old(store.prefs), SaveWrites(RebirthCoef, IntValue(coef)))
    {
      SaveUpdates(store.prefs, RebirthCoef, IntValue(coef));
      store.prefs := store.prefs[KeyOf(RebirthCoef) := IntValue(coef)];
    }

    /** `saveCompleteProfessional`. */
    method SaveCompleteProfessional(complete: bool)
      modifies store
      ensures store.prefs == Apply(old(store.prefs), SaveWrites(CompleteProfessional, BoolValue(complete)))
    {
      SaveUpdates(store.prefs, CompleteProfessional, BoolValue(complete));
      store.prefs := store.prefs[KeyOf(CompleteProfessional) := BoolValue(complete)];
    }

    /** `saveCompleteWait`. */
    method SaveCompleteWait(complete: bool)
      modifies store
      ensures store.prefs == Apply(old(store.prefs), SaveWrites(CompleteWait, BoolValue(complete)))
    {
      SaveUpdates(store.prefs, CompleteWait, BoolValue(complete));
      store.prefs := store.prefs[KeyOf(CompleteWait) := BoolValue(complete)];
    }

    /** `saveCompleteCEO`. */
    method SaveCompleteCeo(complete: bool)
      modifies store
      ensures store.prefs == Apply(old(store.prefs), SaveWrites(CompleteCeo, BoolValue(complete)))
    {
      SaveUpdates(store.prefs, CompleteCeo, BoolValue(complete));
      store.prefs := store.prefs[KeyOf(CompleteCeo) := BoolValue(complete)];
    }
  }
}
