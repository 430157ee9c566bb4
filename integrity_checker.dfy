/**
  The integrity check of the custom system settings: a two-level dictionary of
  categories (`debug`, `model_settings`, `event_detector_details`) holding
  named settings.  Absent categories are copied from the default settings, and
  in every category that is present each required key that is absent is filled
  in from the defaults; settings already present are never overwritten.  A
  lookup of the defaults that misses raises `KeyError`, which is modelled as a
  status; the insertions made before it stay in place.
 */
module IntegrityChecker {
  import opened Wrappers

  /** A setting's value, never inspected by the check. */
  datatype Value = Value(text: string)

  /** The settings of one category, by name. */
  type Category = map<string, Value>

  /** The categories of a configuration, by name. */
  type Preferences = map<string, Category>

  const DebugKey := "debug"
  const EventDetectorDetailsKey := "event_detector_details"
  const ModelSettingsKey := "model_settings"

  /** `default_main_keys`. */
  const MainKeys := [DebugKey, EventDetectorDetailsKey, ModelSettingsKey]

  /** `default_debug_keys`. */
  const DebugKeys := ["debug_mode", "negative_prediction_text_color",
                      "positive_prediction_text_color", "output_video_path"]

  /** `default_model_settings_keys`. */
  const ModelSettingsKeys := ["image_type", "video_fps_rate", "min_tampering_length",
                              "send_frames_in_second", "device"]

  /** `default_detector_details_exist`. */
  const EventDetectorKeys := ["model_type"]

  /** How a check ends: normally, or with the `KeyError` raised for a key. */
  datatype Status = Ok | KeyError(key: string)

  // ------------------------------------------------ filling one category

  /** The state of `__check_missing_keys`: the settings so far, the `missing_key`
      flag, and the key whose default lookup raised, if one did. */
  datatype Fill = Fill(settings: Category, missing: bool, failed: Option<string>)

  /** The loop of `__check_missing_keys` over the keys still to visit, from the
      settings and flag reached so far. */
  function FillFrom(settings: Category, missing: bool, keys: seq<string>, defaults: Category): (f: Fill)
    ensures f.failed.None? ==> f.missing == (missing || exists k :: k in keys && k !in settings)
    decreases |keys|
  {
    if keys == [] then Fill(settings, missing, None)
    else
      var key := keys[0];
      if key in settings then
        var f := FillFrom(settings, missing, keys[1..], defaults);
        assert forall k :: k in keys ==> k == key || k in keys[1..];
        f
      else if key in defaults then FillFrom(settings[key := defaults[key]], true, keys[1..], defaults)
      else Fill(settings, missing, Some(key))
  }

  /** `__check_missing_keys(settings, keys, defaults)`. */
  function FillMissing(settings: Category, keys: seq<string>, defaults: Category): Fill
  {
    FillFrom(settings, false, keys, defaults)
  }

  /** Settings already present keep their values, even when a lookup fails. */
  lemma {:induction false} FillPreserves(settings: Category, missing: bool, keys: seq<string>, defaults: Category)
    ensures var f := FillFrom(settings, missing, keys, defaults);
      forall k :: k in settings ==> k in f.settings && f.settings[k] == settings[k]
    decreases |keys|
  {
    if keys != [] {
      var key := keys[0];
      if key in settings {
        FillPreserves(settings, missing, keys[1..], defaults);
      } else if key in defaults {
        FillPreserves(settings[key := defaults[key]], true, keys[1..], defaults);
      }
    }
  }

  /** Every added setting is a listed key, with its default value. */
  lemma {:induction false} FillAddsOnlyDefaults(settings: Category, missing: bool, keys: seq<string>, defaults: Category)
    ensures var f := FillFrom(settings, missing, keys, defaults);
      forall k :: k in f.settings && k !in settings ==>
        k in keys && k in defaults && f.settings[k] == defaults[k]
    decreases |keys|
  {
    if keys != [] {
      var key := keys[0];
      if key in settings {
        FillAddsOnlyDefaults(settings, missing, keys[1..], defaults);
      } else if key in defaults {
        var s := settings[key := defaults[key]];
        FillAddsOnlyDefaults(s, true, keys[1..], defaults);
        FillPreserves(s, true, keys[1..], defaults);
      }
    }
  }

  /** Without a failed lookup every listed key ends up present. */
  lemma {:induction false} FillComplete(settings: Category, missing: bool, keys: seq<string>, defaults: Category)
    ensures var f := FillFrom(settings, missing, keys, defaults);
      f.failed.None? ==> forall k :: k in keys ==> k in f.settings
    decreases |keys|
  {
    if keys != [] {
      var key := keys[0];
      var f := FillFrom(settings, missing, keys, defaults);
      if key in settings {
        FillComplete(settings, missing, keys[1..], defaults);
        FillPreserves(settings, missing, keys[1..], defaults);
      } else if key in defaults {
        var s := settings[key := defaults[key]];
        FillComplete(s, true, keys[1..], defaults);
        FillPreserves(s, true, keys[1..], defaults);
      }
      assert forall k :: k in keys ==> k == key || k in keys[1..];
    }
  }

  /** A lookup fails exactly when some listed key is absent from both the
      settings and the defaults, and the key reported is such a key. */
  lemma {:induction false} FillFails(settings: Category, missing: bool, keys: seq<string>, defaults: Category)
    ensures var f := FillFrom(settings, missing, keys, defaults);
      (f.failed.Some? <==> exists k :: k in keys && k !in settings && k !in defaults) &&
      (f.failed.Some? ==> f.failed.value in keys && f.failed.value !in settings && f.failed.value !in defaults)
    decreases |keys|
  {
    if keys != [] {
      var key := keys[0];
      assert forall k :: k in keys ==> k == key || k in keys[1..];
      if key in settings {
        FillFails(settings, missing, keys[1..], defaults);
      } else if key in defaults {
        var s := settings[key := defaults[key]];
        FillFails(s, true, keys[1..], defaults);
        assert forall k :: k !in defaults ==> (k in s <==> k in settings);
      }
    }
  }

  /** With nothing missing nothing changes. */
  lemma {:induction false} FillNothingMissing(settings: Category, missing: bool, keys: seq<string>, defaults: Category)
    requires forall k :: k in keys ==> k in settings
    ensures FillFrom(settings, missing, keys, defaults) == Fill(settings, missing, None)
    decreases |keys|
  {
    if keys != [] {
      FillNothingMissing(settings, missing, keys[1..], defaults);
    }
  }

  /** `__check_missing_keys`: present keys kept, only listed defaults added,
      all listed keys present unless a lookup fails, which happens exactly when
      a listed key is in neither dictionary, and `missing_key` set exactly when
      some listed key was absent. */
  lemma FillMissingSpec(settings: Category, keys: seq<string>, defaults: Category)
    ensures var f := FillMissing(settings, keys, defaults);
      (forall k :: k in settings ==> k in f.settings && f.settings[k] == settings[k]) &&
      (forall k :: k in f.settings && k !in settings ==>
        k in keys && k in defaults && f.settings[k] == defaults[k]) &&
      (f.failed.Some? <==> exists k :: k in keys && k !in settings && k !in defaults) &&
      (f.failed.None? ==>
        (forall k :: k in keys ==> k in f.settings) &&
        (f.missing <==> exists k :: k in keys && k !in settings))
  {
    FillPreserves(settings, false, keys, defaults);
    FillAddsOnlyDefaults(settings, false, keys, defaults);
    FillFails(settings, false, keys, defaults);
    FillComplete(settings, false, keys, defaults);
  }

  /** A second fill of a filled category finds nothing missing. */
  lemma FillMissingIdempotent(settings: Category, keys: seq<string>, defaults: Category)
    requires FillMissing(settings, keys, defaults).failed.None?
    ensures var s := FillMissing(settings, keys, defaults).settings;
      FillMissing(s, keys, defaults) == Fill(s, false, None)
  {
    FillComplete(settings, false, keys, defaults);
    FillNothingMissing(FillMissing(settings, keys, defaults).settings, false, keys, defaults);
  }

  // ---------------------------------------------- checking one category

  /** The preferences after a step of the check, and how the step ended. */
  datatype Checked = Checked(prefs: Preferences, status: Status)

  /** One block of `__check_main_categories`: `__key_exists(cat)`, then, for a
      category that was present, `__check_missing_keys` on it.  The dictionary
      of the category is filled in place, so the keys inserted before a failed
      lookup remain. */
  function CheckCategory(prefs: Preferences, defaults: Preferences, cat: string, keys: seq<string>): Checked
  {
    if cat !in prefs then
      if cat in defaults then Checked(prefs[cat := defaults[cat]], Ok)
      else Checked(prefs, KeyError(cat))
    else if cat !in defaults then Checked(prefs, KeyError(cat))
    else
      var f := FillMissing(prefs[cat], keys, defaults[cat]);
      match f.failed
      case Some(k) => Checked(prefs[cat := f.settings], KeyError(k))
      case None => if f.missing then Checked(prefs[cat := f.settings], Ok) else Checked(prefs, Ok)
  }

  /** When a category's block ends normally: the defaults hold the category and,
      for a category that is present, every listed key is present in it or in
      the defaults. */
  predicate Checkable(prefs: Preferences, defaults: Preferences, cat: string, keys: seq<string>)
  {
    && cat in defaults
    && (cat in prefs ==> forall k :: k in keys ==> k in prefs[cat] || k in defaults[cat])
  }

  /** A block changes its own category and no other. */
  lemma CheckCategoryFrame(prefs: Preferences, defaults: Preferences, cat: string, keys: seq<string>)
    ensures var r := CheckCategory(prefs, defaults, cat, keys).prefs;
      r.Keys <= prefs.Keys + {cat} && prefs.Keys <= r.Keys &&
      forall c :: c in prefs && c != cat ==> r[c] == prefs[c]
  {
  }

  /** after has the categories of before, at most the categories in cats besides,
      and every category of before outside cats unchanged. */
  predicate Unchanged(before: Preferences, after: Preferences, cats: set<string>)
  {
    after.Keys <= before.Keys + cats && before.Keys <= after.Keys &&
    forall c :: c in before && c !in cats ==> after[c] == before[c]
  }

  lemma UnchangedTrans(a: Preferences, b: Preferences, c: Preferences, cats: set<string>)
    requires Unchanged(a, b, cats) && Unchanged(b, c, cats)
    ensures Unchanged(a, c, cats)
  {
  }

  /** A block changes at most its own category among any cats that include it. */
  lemma CheckCategoryUnchanged(prefs: Preferences, defaults: Preferences, cat: string, keys: seq<string>,
                               cats: set<string>)
    requires cat in cats
    ensures Unchanged(prefs, CheckCategory(prefs, defaults, cat, keys).prefs, cats)
  {
    CheckCategoryFrame(prefs, defaults, cat, keys);
  }

  /** A block ends normally exactly when its category is checkable, and then the
      category is present: copied from the defaults when it was absent, with
      every listed key when it was present. */
  lemma CheckCategoryStatus(prefs: Preferences, defaults: Preferences, cat: string, keys: seq<string>)
    ensures var r := CheckCategory(prefs, defaults, cat, keys);
      (r.status == Ok <==> Checkable(prefs, defaults, cat, keys)) &&
      (r.status.KeyError? ==> r.status.key == cat || r.status.key in keys) &&
      (r.status == Ok ==> (cat in r.prefs &&
        (cat !in prefs ==> r.prefs[cat] == defaults[cat]) &&
        (cat in prefs ==> forall k :: k in keys ==> k in r.prefs[cat])))
  {
    if cat in prefs && cat in defaults {
      FillFails(prefs[cat], false, keys, defaults[cat]);
      FillComplete(prefs[cat], false, keys, defaults[cat]);
    }
  }

  /** after keeps every category and every setting of before. */
  predicate Extends(before: Preferences, after: Preferences)
  {
    && before.Keys <= after.Keys
    && forall c, k :: c in before && k in before[c] ==> k in after[c] && after[c][k] == before[c][k]
  }

  lemma ExtendsTransitive(a: Preferences, b: Preferences, c: Preferences)
    requires Extends(a, b) && Extends(b, c)
    ensures Extends(a, c)
  {
    forall x, k | x in a && k in a[x]
      ensures k in c[x] && c[x][k] == a[x][k]
    {
      assert k in b[x] && b[x][k] == a[x][k];
    }
  }

  /** Settings already present keep their values, whatever the outcome, and the
      settings a block adds to a present category come from its defaults. */
  lemma CheckCategoryPreserves(prefs: Preferences, defaults: Preferences, cat: string, keys: seq<string>)
    ensures var r := CheckCategory(prefs, defaults, cat, keys).prefs;
      Extends(prefs, r) &&
      (cat in prefs && cat in r ==> forall k :: k in r[cat] && k !in prefs[cat] ==>
        k in keys && k in defaults[cat] && r[cat][k] == defaults[cat][k])
  {
    if cat in prefs && cat in defaults {
      FillPreserves(prefs[cat], false, keys, defaults[cat]);
      FillAddsOnlyDefaults(prefs[cat], false, keys, defaults[cat]);
    }
  }

  // ------------------------------------------------------ the whole check

  /** `__check_main_categories`: debug, then model_settings, then
      event_detector_details, stopping at the first `KeyError`. */
  function CheckAll(prefs: Preferences, defaults: Preferences): Checked
  {
    var d := CheckCategory(prefs, defaults, DebugKey, DebugKeys);
    if d.status.KeyError? then d
    else
      var m := CheckCategory(d.prefs, defaults, ModelSettingsKey, ModelSettingsKeys);
      if m.status.KeyError? then m
      else CheckCategory(m.prefs, defaults, EventDetectorDetailsKey, EventDetectorKeys)
  }

  /** All three categories can be checked. */
  predicate AllCheckable(prefs: Preferences, defaults: Preferences)
  {
    && Checkable(prefs, defaults, DebugKey, DebugKeys)
    && Checkable(prefs, defaults, ModelSettingsKey, ModelSettingsKeys)
    && Checkable(prefs, defaults, EventDetectorDetailsKey, EventDetectorKeys)
  }

  /** Every category that was present holds its listed keys afterwards, and
      every category that was absent holds a copy of its defaults. */
  predicate Completed(before: Preferences, after: Preferences, defaults: Preferences, cat: string, keys: seq<string>)
  {
    && cat in after
    && (cat in before ==> forall k :: k in keys ==> k in after[cat])
    && (cat !in before ==> cat in defaults && after[cat] == defaults[cat])
  }

  /** What a block leaves of another category: it is there exactly when it was,
      with the same settings, so its checkability and completion are unchanged. */
  lemma CheckCategoryOthers(prefs: Preferences, defaults: Preferences, cat: string, keys: seq<string>,
                            before: Preferences, other: string, otherKeys: seq<string>)
    requires other != cat
    ensures var r := CheckCategory(prefs, defaults, cat, keys).prefs;
      (other in r <==> other in prefs) && (other in prefs ==> r[other] == prefs[other]) &&
      (Checkable(r, defaults, other, otherKeys) <==> Checkable(prefs, defaults, other, otherKeys)) &&
      (Completed(before, r, defaults, other, otherKeys) <==> Completed(before, prefs, defaults, other, otherKeys))
  {
    CheckCategoryFrame(prefs, defaults, cat, keys);
  }

  /** The check ends normally exactly when all three categories are checkable,
      and then all three categories are present and complete. */
  lemma CheckAllOk(prefs: Preferences, defaults: Preferences)
    ensures var r := CheckAll(prefs, defaults);
      (r.status == Ok <==> AllCheckable(prefs, defaults)) &&
      (r.status == Ok ==>
        Completed(prefs, r.prefs, defaults, DebugKey, DebugKeys) &&
        Completed(prefs, r.prefs, defaults, ModelSettingsKey, ModelSettingsKeys) &&
        Completed(prefs, r.prefs, defaults, EventDetectorDetailsKey, EventDetectorKeys))
  {
    var D, M, E := DebugKey, ModelSettingsKey, EventDetectorDetailsKey;
    var DK, MK, EK := DebugKeys, ModelSettingsKeys, EventDetectorKeys;
    assert D != M && D != E && M != E;
    var d := CheckCategory(prefs, defaults, D, DK);
    var m := CheckCategory(d.prefs, defaults, M, MK);
    var e := CheckCategory(m.prefs, defaults, E, EK);
    CheckCategoryStatus(prefs, defaults, D, DK);
    CheckCategoryStatus(d.prefs, defaults, M, MK);
    CheckCategoryStatus(m.prefs, defaults, E, EK);
    CheckCategoryOthers(prefs, defaults, D, DK, prefs, M, MK);
    CheckCategoryOthers(prefs, defaults, D, DK, prefs, E, EK);
    CheckCategoryOthers(d.prefs, defaults, M, MK, prefs, E, EK);
    CheckCategoryOthers(d.prefs, defaults, M, MK, prefs, D, DK);
    CheckCategoryOthers(m.prefs, defaults, E, EK, prefs, D, DK);
    CheckCategoryOthers(m.prefs, defaults, E, EK, prefs, M, MK);
  }

  /** Whatever the outcome, no category is dropped and no setting that was present changes. */
  lemma CheckAllPreserves(prefs: Preferences, defaults: Preferences)
    ensures Extends(prefs, CheckAll(prefs, defaults).prefs)
  {
    var d := CheckCategory(prefs, defaults, DebugKey, DebugKeys).prefs;
    var m := CheckCategory(d, defaults, ModelSettingsKey, ModelSettingsKeys).prefs;
    var e := CheckCategory(m, defaults, EventDetectorDetailsKey, EventDetectorKeys).prefs;
    CheckCategoryPreserves(prefs, defaults, DebugKey, DebugKeys);
    CheckCategoryPreserves(d, defaults, ModelSettingsKey, ModelSettingsKeys);
    CheckCategoryPreserves(m, defaults, EventDetectorDetailsKey, EventDetectorKeys);
    ExtendsTransitive(prefs, d, m);
    ExtendsTransitive(prefs, m, e);
  }

  /** Only the three categories can be added or changed; every other top-level
      key keeps its value. */
  lemma CheckAllFrame(prefs: Preferences, defaults: Preferences)
    ensures Unchanged(prefs, CheckAll(prefs, defaults).prefs, {DebugKey, ModelSettingsKey, EventDetectorDetailsKey})
  {
    var all := {DebugKey, ModelSettingsKey, EventDetectorDetailsKey};
    var d := CheckCategory(prefs, defaults, DebugKey, DebugKeys);
    var m := CheckCategory(d.prefs, defaults, ModelSettingsKey, ModelSettingsKeys);
    var e := CheckCategory(m.prefs, defaults, EventDetectorDetailsKey, EventDetectorKeys);
    CheckCategoryUnchanged(prefs, defaults, DebugKey, DebugKeys, all);
    if !d.status.KeyError? {
      CheckCategoryUnchanged(d.prefs, defaults, ModelSettingsKey, ModelSettingsKeys, all);
      UnchangedTrans(prefs, d.prefs, m.prefs, all);
      if !m.status.KeyError? {
        CheckCategoryUnchanged(m.prefs, defaults, EventDetectorDetailsKey, EventDetectorKeys, all);
        UnchangedTrans(prefs, m.prefs, e.prefs, all);
      }
    }
  }

  /** What after holds of cat beyond before comes from the defaults: the settings
      added to a category that was present are listed keys with their default
      values, and a category that was absent is a copy of its defaults. */
  predicate FilledFrom(before: Preferences, after: Preferences, defaults: Preferences, cat: string, keys: seq<string>)
  {
    && (cat in before && cat in after ==> forall k :: k in after[cat] && k !in before[cat] ==>
         k in keys && cat in defaults && k in defaults[cat] && after[cat][k] == defaults[cat][k])
    && (cat !in before && cat in after ==> cat in defaults && after[cat] == defaults[cat])
  }

  /** a and b agree on cat: both lack it, or both hold the same settings. */
  predicate SameCategory(a: Preferences, b: Preferences, cat: string)
  {
    (cat in a <==> cat in b) && (cat in a ==> a[cat] == b[cat])
  }

  lemma SameFilled(a: Preferences, b: Preferences, defaults: Preferences, cat: string, keys: seq<string>)
    requires SameCategory(a, b, cat)
    ensures FilledFrom(a, b, defaults, cat, keys)
  {
  }

  lemma FilledBefore(before: Preferences, mid: Preferences, after: Preferences, defaults: Preferences,
                     cat: string, keys: seq<string>)
    requires SameCategory(before, mid, cat) && FilledFrom(mid, after, defaults, cat, keys)
    ensures FilledFrom(before, after, defaults, cat, keys)
  {
  }

  lemma FilledAfter(before: Preferences, mid: Preferences, after: Preferences, defaults: Preferences,
                    cat: string, keys: seq<string>)
    requires FilledFrom(before, mid, defaults, cat, keys) && SameCategory(mid, after, cat)
    ensures FilledFrom(before, after, defaults, cat, keys)
  {
  }

  /** A block fills its own category from the defaults, whatever the outcome. */
  lemma CheckCategoryFills(prefs: Preferences, defaults: Preferences, cat: string, keys: seq<string>)
    ensures FilledFrom(prefs, CheckCategory(prefs, defaults, cat, keys).prefs, defaults, cat, keys)
  {
    CheckCategoryPreserves(prefs, defaults, cat, keys);
  }

  /** A block leaves every other category as it was. */
  lemma CheckCategorySame(prefs: Preferences, defaults: Preferences, cat: string, keys: seq<string>, other: string)
    requires other != cat
    ensures SameCategory(prefs, CheckCategory(prefs, defaults, cat, keys).prefs, other)
  {
    CheckCategoryFrame(prefs, defaults, cat, keys);
  }

  /** Whatever the outcome, everything the check adds to the three categories comes
      from the defaults: a listed key with its default value in a category that
      was present, or a copy of the defaults for a category that was absent. */
  lemma CheckAllFillsFromDefaults(prefs: Preferences, defaults: Preferences)
    ensures var r := CheckAll(prefs, defaults).prefs;
      && FilledFrom(prefs, r, defaults, DebugKey, DebugKeys)
      && FilledFrom(prefs, r, defaults, ModelSettingsKey, ModelSettingsKeys)
      && FilledFrom(prefs, r, defaults, EventDetectorDetailsKey, EventDetectorKeys)
  {
    var D, M, E := DebugKey, ModelSettingsKey, EventDetectorDetailsKey;
    var DK, MK, EK := DebugKeys, ModelSettingsKeys, EventDetectorKeys;
    assert D != M && D != E && M != E;
    var d := CheckCategory(prefs, defaults, D, DK);
    var m := CheckCategory(d.prefs, defaults, M, MK);
    var e := CheckCategory(m.prefs, defaults, E, EK);
    CheckCategoryFills(prefs, defaults, D, DK);
    CheckCategorySame(prefs, defaults, D, DK, M);
    CheckCategorySame(prefs, defaults, D, DK, E);
    if d.status.KeyError? {
      SameFilled(prefs, d.prefs, defaults, M, MK);
      SameFilled(prefs, d.prefs, defaults, E, EK);
    } else {
      CheckCategoryFills(d.prefs, defaults, M, MK);
      FilledBefore(prefs, d.prefs, m.prefs, defaults, M, MK);
      CheckCategorySame(d.prefs, defaults, M, MK, D);
      FilledAfter(prefs, d.prefs, m.prefs, defaults, D, DK);
      CheckCategorySame(d.prefs, defaults, M, MK, E);
      assert SameCategory(prefs, m.prefs, E);
      if m.status.KeyError? {
        SameFilled(prefs, m.prefs, defaults, E, EK);
      } else {
        CheckCategoryFills(m.prefs, defaults, E, EK);
        FilledBefore(prefs, m.prefs, e.prefs, defaults, E, EK);
        CheckCategorySame(m.prefs, defaults, E, EK, D);
        FilledAfter(prefs, m.prefs, e.prefs, defaults, D, DK);
        CheckCategorySame(m.prefs, defaults, E, EK, M);
        FilledAfter(prefs, m.prefs, e.prefs, defaults, M, MK);
      }
    }
  }

  /** The defaults hold all three categories with all their listed keys. */
  predicate CompleteDefaults(defaults: Preferences)
  {
    && DebugKey in defaults && (forall k :: k in DebugKeys ==> k in defaults[DebugKey])
    && ModelSettingsKey in defaults && (forall k :: k in ModelSettingsKeys ==> k in defaults[ModelSettingsKey])
    && EventDetectorDetailsKey in defaults &&
       (forall k :: k in EventDetectorKeys ==> k in defaults[EventDetectorDetailsKey])
  }

  /** With complete defaults the check always ends normally. */
  lemma CompleteDefaultsOk(prefs: Preferences, defaults: Preferences)
    requires CompleteDefaults(defaults)
    ensures CheckAll(prefs, defaults).status == Ok
  {
    CheckAllOk(prefs, defaults);
  }

  /** A category complete in the preferences and in the defaults is left alone. */
  lemma CheckCategoryStable(prefs: Preferences, defaults: Preferences, cat: string, keys: seq<string>)
    requires cat in prefs && cat in defaults && forall k :: k in keys ==> k in prefs[cat]
    ensures CheckCategory(prefs, defaults, cat, keys) == Checked(prefs, Ok)
  {
    FillNothingMissing(prefs[cat], false, keys, defaults[cat]);
  }

  /** With complete defaults a second check of the check's own output changes nothing. */
  lemma CheckAllIdempotent(prefs: Preferences, defaults: Preferences)
    requires CompleteDefaults(defaults)
    ensures var r := CheckAll(prefs, defaults).prefs;
      CheckAll(r, defaults) == Checked(r, Ok)
  {
    var r := CheckAll(prefs, defaults).prefs;
    CompleteDefaultsOk(prefs, defaults);
    CheckAllOk(prefs, defaults);
    CheckCategoryStable(r, defaults, DebugKey, DebugKeys);
    CheckCategoryStable(r, defaults, ModelSettingsKey, ModelSettingsKeys);
    CheckCategoryStable(r, defaults, EventDetectorDetailsKey, EventDetectorKeys);
  }

  /** Without complete defaults a second check can fail where the first did not:
      a missing debug category is copied from defaults that lack `debug_mode`,
      and on the second run that copy is checked and the lookup raises. */
  lemma SecondCheckCanFail()
    ensures var defaults: Preferences := map[DebugKey := map[], ModelSettingsKey := map[],
                                             EventDetectorDetailsKey := map[]];
      var first := CheckAll(map[], defaults);
      first.status == Ok && CheckAll(first.prefs, defaults).status == KeyError("debug_mode")
  {
    var defaults: Preferences := map[DebugKey := map[], ModelSettingsKey := map[],
                                     EventDetectorDetailsKey := map[]];
    var first := CheckAll(map[], defaults);
    assert first.prefs == defaults;
    assert FillMissing(map[], DebugKeys, map[]).failed == Some("debug_mode");
  }

  // ------------------------------------------------------- the checker

  /** `IntegrityChecker` with the defaults passed in instead of read from a file. */
  class IntegrityChecker {
    var systemPreferences: Preferences
    const defaultPreferences: Preferences

    constructor (systemPreferences: Preferences, defaultPreferences: Preferences)
      ensures this.systemPreferences == systemPreferences
      ensures this.defaultPreferences == defaultPreferences
    {
      this.systemPreferences := systemPreferences;
      this.defaultPreferences := defaultPreferences;
    }

    /** `run_integrity_check`: the preferences after the check, or the `KeyError` it raised. */
    method RunIntegrityCheck() returns (prefs: Preferences, status: Status)
      modifies this
      ensures Checked(systemPreferences, status) == CheckAll(old(systemPreferences), defaultPreferences)
      ensures prefs == systemPreferences
    {
      status := CheckMainCategories();
      prefs := systemPreferences;
    }

    /** `__check_main_categories`. */
    method CheckMainCategories() returns (status: Status)
      modifies this
      ensures Checked(systemPreferences, status) == CheckAll(old(systemPreferences), defaultPreferences)
    {
      var unknown := CheckDefaultKeys(MainKeys, systemPreferences);

      status := CheckOneCategory(DebugKey, DebugKeys);
      if status.KeyError? {
        return;
      }
      status := CheckOneCategory(ModelSettingsKey, ModelSettingsKeys);
      if status.KeyError? {
        return;
      }
      status := CheckOneCategory(EventDetectorDetailsKey, EventDetectorKeys);
    }

    /** One of the three blocks of `__check_main_categories`. */
    method CheckOneCategory(cat: string, keys: seq<string>) returns (status: Status)
      modifies this
      ensures Checked(systemPreferences, status) == CheckCategory(old(systemPreferences), defaultPreferences, cat, keys)
    {
      var keyExists;
      keyExists, status := KeyExists(cat);
      if status.KeyError? || !keyExists {
        return;
      }
      var unknown := CheckDefaultKeys(keys, systemPreferences[cat]);
      if cat !in defaultPreferences {
        return KeyError(cat);
      }
      var missingKey, preferences, failed := CheckMissingKeys(systemPreferences[cat], keys, defaultPreferences[cat]);
      if failed.Some? {
        // the category's dictionary was filled in place up to the failed lookup
        systemPreferences := systemPreferences[cat := preferences];
        return KeyError(failed.value);
      }
      if missingKey {
        systemPreferences := systemPreferences[cat := preferences];
      }
    }

    /** `__key_exists`: whether the category was present; an absent one is copied
        from the defaults, and the lookup raises when the defaults lack it. */
    method KeyExists(key: string) returns (keyExists: bool, status: Status)
      modifies this
      ensures keyExists <==> key in old(systemPreferences)
      ensures status == (if keyExists || key in defaultPreferences then Ok else KeyError(key))
      ensures systemPreferences ==
        if !keyExists && key in defaultPreferences then old(systemPreferences)[key := defaultPreferences[key]]
        else old(systemPreferences)
    {
      keyExists := false;
      status := Ok;
      if key in systemPreferences {
        keyExists := true;
      } else {
        if key !in defaultPreferences {
          return false, KeyError(key);
        }
        systemPreferences := systemPreferences[key := defaultPreferences[key]];
        keyExists := false;
      }
    }

    /** `__check_default_keys`: the keys of `prefs` that are not listed, for which
        a warning is printed; nothing is changed. */
    method CheckDefaultKeys<V>(keys: seq<string>, prefs: map<string, V>) returns (unknown: set<string>)
      ensures forall k :: k in unknown <==> k in prefs && k !in keys
    {
      unknown := {};
      var rest := prefs.Keys;
      while rest != {}
        invariant rest <= prefs.Keys
        invariant forall k :: k in unknown <==> k in prefs && k !in rest && k !in keys
        decreases |rest|
      {
        var key :| key in rest;
        if key !in keys {
          unknown := unknown + {key};
        }
        rest := rest - {key};
      }
    }

    /** `__check_missing_keys`: fills the listed keys absent from `inputKeys`
        from the defaults, in list order, and reports whether any was absent;
        `failed` names the key whose default lookup raised. */
    method CheckMissingKeys(inputKeys: Category, defaultKeys: seq<string>, defaults: Category)
      returns (missingKey: bool, settings: Category, failed: Option<string>)
      ensures Fill(settings, missingKey, failed) == FillMissing(inputKeys, defaultKeys, defaults)
    {
      missingKey := false;
      settings := inputKeys;
      failed := None;
      var i := 0;
      while i < |defaultKeys|
        invariant 0 <= i <= |defaultKeys|
        invariant FillFrom(settings, missingKey, defaultKeys[i..], defaults) ==
                  FillMissing(inputKeys, defaultKeys, defaults)
      {
        var key := defaultKeys[i];
        assert defaultKeys[i..][1..] == defaultKeys[i + 1..];
        if key !in settings {
          if key !in defaults {
            failed := Some(key);
            return;
          }
          settings := settings[key := defaults[key]];
          missingKey := true;
        }
        i := i + 1;
      }
    }
  }
}
