/** An abstract preferences store: a map from key names to typed values, changed
    by `edit` blocks and read one key at a time with a fallback default. */
module Prefs {
  import opened KotlinInts

  /** A stored value, tagged with the type of the key it was written under
      (`longPreferencesKey`, `intPreferencesKey`, `booleanPreferencesKey`). */
  datatype Value = LongValue(asLong: Int64) | IntValue(asInt: Int32) | BoolValue(asBool: bool)

  /** The contents of one store. */
  type Preferences = map<string, Value>

  /** One assignment `pref[key] = value` inside an `edit` block. */
  datatype Write = Write(key: string, value: Value)

  /** A named store whose contents `edit` replaces. */
  class DataStore {
    const name: string
    var prefs: Preferences

    /** A store that has never been written holds no keys. */
    constructor (name: string)
      ensures this.name == name && prefs == map[]
    {
      this.name := name;
      prefs := map[];
    }
  }

  /** The keys the writes assign. */
  function KeysOf(ws: seq<Write>): set<string> {
    if ws == [] then {} else {ws[0].key} + KeysOf(ws[1..])
  }

  /** A key is assigned exactly when some write names it. */
  lemma {:induction false} KeysOfNames(ws: seq<Write>, k: string)
    ensures k in KeysOf(ws) <==> exists i :: 0 <= i < |ws| && ws[i].key == k
  {
    if ws != [] {
      KeysOfNames(ws[1..], k);
      if k in KeysOf(ws[1..]) {
        var i :| 0 <= i < |ws[1..]| && ws[1..][i].key == k;
        assert ws[i + 1].key == k;
      }
      if exists i :: 0 <= i < |ws| && ws[i].key == k {
        var i :| 0 <= i < |ws| && ws[i].key == k;
        assert i == 0 || ws[1..][i - 1].key == k;
      }
    }
  }

  /** No key is assigned twice. */
  predicate DistinctKeys(ws: seq<Write>) {
    forall i, j :: 0 <= i < j < |ws| ==> ws[i].key != ws[j].key
  }

  /** The effect of an `edit` block: its assignments applied one after the other. */
  function Apply(p: Preferences, ws: seq<Write>): Preferences
    decreases |ws|
  {
    if ws == [] then p else Apply(p[ws[0].key := ws[0].value], ws[1..])
  }

  /** What the writes leave behind on their own keys: for each key, the last value written to it. */
  function Written(ws: seq<Write>): (m: Preferences)
    ensures m.Keys == KeysOf(ws)
  {
    if ws == [] then map[] else map[ws[0].key := ws[0].value] + Written(ws[1..])
  }

  /** `pref[key] ?: default` for a `Long` key. */
  function LongOr(p: Preferences, key: string, default: Int64): (r: Int64)
    requires key in p ==> p[key].LongValue?
    ensures key !in p ==> r == default
    ensures key in p ==> LongValue(r) == p[key]
  {
    if key in p then p[key].asLong else default
  }

  /** `pref[key] ?: default` for an `Int` key. */
  function IntOr(p: Preferences, key: string, default: Int32): (r: Int32)
    requires key in p ==> p[key].IntValue?
    ensures key !in p ==> r == default
    ensures key in p ==> IntValue(r) == p[key]
  {
    if key in p then p[key].asInt else default
  }

  /** `pref[key] ?: default` for a `Boolean` key. */
  function BoolOr(p: Preferences, key: string, default: bool): (r: bool)
    requires key in p ==> p[key].BoolValue?
    ensures key !in p ==> r == default
    ensures key in p ==> BoolValue(r) == p[key]
  {
    if key in p then p[key].asBool else default
  }

  /** An edit block adds exactly the keys it assigns and removes none. */
  lemma {:induction false} ApplyKeys(p: Preferences, ws: seq<Write>)
    ensures Apply(p, ws).Keys == p.Keys + KeysOf(ws)
    decreases |ws|
  {
    if ws != [] {
      ApplyKeys(p[ws[0].key := ws[0].value], ws[1..]);
    }
  }

  /** An edit block is the old contents overridden by what it writes. */
  lemma {:induction false} ApplyIsOverride(p: Preferences, ws: seq<Write>)
    ensures Apply(p, ws) == p + Written(ws)
    decreases |ws|
  {
    if ws != [] {
      var w := ws[0];
      ApplyIsOverride(p[w.key := w.value], ws[1..]);
      assert p[w.key := w.value] + Written(ws[1..]) == p + (map[w.key := w.value] + Written(ws[1..]));
    }
  }

  /** Two edits in a row are one edit with both lists of assignments. */
  lemma {:induction false} ApplyAppend(p: Preferences, ws1: seq<Write>, ws2: seq<Write>)
    ensures Apply(p, ws1 + ws2) == Apply(Apply(p, ws1), ws2)
    decreases |ws1|
  {
    if ws1 == [] {
      assert ws1 + ws2 == ws2;
    } else {
      assert (ws1 + ws2)[1..] == ws1[1..] + ws2;
      ApplyAppend(p[ws1[0].key := ws1[0].value], ws1[1..], ws2);
    }
  }

  /** Each assignment of an edit block updates the map the previous ones left. */
  lemma ApplyExtend(p: Preferences, ws: seq<Write>, k: nat)
    requires k < |ws|
    ensures Apply(p, ws[..k + 1]) == Apply(p, ws[..k])[ws[k].key := ws[k].value]
  {
    assert ws[..k + 1] == ws[..k] + [ws[k]];
    ApplyAppend(p, ws[..k], [ws[k]]);
    var q := Apply(p, ws[..k]);
    assert Apply(q, [ws[k]]) == Apply(q[ws[k].key := ws[k].value], []);
  }

  /** A key no write assigns keeps its presence and its value. */
  lemma {:induction false} ApplyLeavesOthers(p: Preferences, ws: seq<Write>, k: string)
    requires k !in KeysOf(ws)
    ensures k in Apply(p, ws) <==> k in p
    ensures k in p ==> Apply(p, ws)[k] == p[k]
    decreases |ws|
  {
    if ws != [] {
      ApplyLeavesOthers(p[ws[0].key := ws[0].value], ws[1..], k);
    }
  }

  /** When no key is assigned twice, every write can be read back after the edit. */
  lemma {:induction false} ApplyReadsBack(p: Preferences, ws: seq<Write>, i: nat)
    requires DistinctKeys(ws)
    requires i < |ws|
    ensures ws[i].key in Apply(p, ws) && Apply(p, ws)[ws[i].key] == ws[i].value
    decreases |ws|
  {
    var q := p[ws[0].key := ws[0].value];
    if i == 0 {
      forall j | 0 <= j < |ws[1..]|
        ensures ws[1..][j].key != ws[0].key
      {
        assert ws[1..][j] == ws[j + 1];
      }
      KeysOfNames(ws[1..], ws[0].key);
      ApplyLeavesOthers(q, ws[1..], ws[0].key);
    } else {
      ApplyReadsBack(q, ws[1..], i - 1);
    }
  }

  /** Last write wins: an edit whose keys cover an earlier edit's erases every trace of it. */
  lemma ApplyOverwrites(p: Preferences, ws1: seq<Write>, ws2: seq<Write>)
    requires KeysOf(ws1) <= KeysOf(ws2)
    ensures Apply(Apply(p, ws1), ws2) == Apply(p, ws2)
  {
    ApplyIsOverride(p, ws1);
    ApplyIsOverride(Apply(p, ws1), ws2);
    ApplyIsOverride(p, ws2);
  }

  /** Repeating an edit changes nothing. */
  lemma ApplyIdempotent(p: Preferences, ws: seq<Write>)
    ensures Apply(Apply(p, ws), ws) == Apply(p, ws)
  {
    ApplyOverwrites(p, ws, ws);
  }

  /** Edits on disjoint keys commute. */
  lemma ApplyCommutes(p: Preferences, ws1: seq<Write>, ws2: seq<Write>)
    requires KeysOf(ws1) !! KeysOf(ws2)
    ensures Apply(Apply(p, ws1), ws2) == Apply(Apply(p, ws2), ws1)
  {
    ApplyIsOverride(p, ws1);
    ApplyIsOverride(Apply(p, ws1), ws2);
    ApplyIsOverride(p, ws2);
    ApplyIsOverride(Apply(p, ws2), ws1);
    var a, b := Written(ws1), Written(ws2);
    var l, r := p + a + b, p + b + a;
    assert l.Keys == r.Keys;
    forall k | k in l
      ensures l[k] == r[k]
    {
    }
    assert l == r;
  }
}
