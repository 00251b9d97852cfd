/**
 * The system-settings cache of back/src/core/config.ts: the module-level `cachedSysSettings`,
 * `cachedSysSettingsForm` and `cachedTime`, refreshed from the store when missing or stale.
 * Time is milliseconds as an integer, passed in; what the store would answer at refresh time is `SettingsDb`.
 */
module SysSettings {
  import opened Wrappers
  import opened JsonValue
  import opened Config

  /** A system setting document. */
  datatype Setting = Setting(simpleId: string, value: Json)

  /** An element of the `systemSettings` form; `publicSetting` is `elemData?.publicSetting`. */
  datatype SettingsElem = SettingsElem(elemId: string, publicSetting: Option<Json>)

  datatype SettingsForm = SettingsForm(formElems: seq<SettingsElem>)

  /** The store's answers at refresh time: all settings, and the `systemSettings` form if it exists. */
  datatype SettingsDb = SettingsDb(settings: seq<Setting>, form: Option<SettingsForm>)

  const DefaultCacheTime: int := 180000

  /** A path whose first segment is missing from the configuration object gives the default. */
  lemma MissingSectionGivesDefault(section: string, rest: string, defaultValue: Option<Json>, config: Json)
    requires section != "" && '.' !in section
    requires config.JObj? && section !in config.fields
    ensures GetConfigSpec(Some(section + ['.'] + rest), defaultValue, config) == Value(defaultValue)
  {
    SplitAfterFirstSeparator(section, rest, '.');
  }

  /** `SETTINGS_CACHE_TIME` is 180000 when the configuration object has no `caches` section. */
  lemma CacheTimeDefault(config: Json)
    requires config.JObj? && "caches" !in config.fields
    ensures GetConfigSpec(Some("caches.systemSettingsCache"), Some(JNum(DefaultCacheTime)), config) == Value(Some(JNum(DefaultCacheTime)))
  {
    assert "caches.systemSettingsCache" == "caches" + ['.'] + "systemSettingsCache";
    MissingSectionGivesDefault("caches", "systemSettingsCache", Some(JNum(DefaultCacheTime)), config);
  }

  /** `settings.find((item) => item.simpleId === id)?.value`: the value of the first setting with that id. */
  function FindSetting(settings: seq<Setting>, id: string): (r: Option<Json>)
    ensures r.None? <==> forall i :: 0 <= i < |settings| ==> settings[i].simpleId != id
    ensures r.Some? ==> exists i :: 0 <= i < |settings| && settings[i].simpleId == id && r.value == settings[i].value
                                    && forall j :: 0 <= j < i ==> settings[j].simpleId != id
  {
    if settings == [] then None
    else if settings[0].simpleId == id then Some(settings[0].value)
    else
      var r := FindSetting(settings[1..], id);
      assert r.Some? ==> exists i :: 1 <= i < |settings| && settings[i].simpleId == id && r.value == settings[i].value
                                     && forall j :: 0 <= j < i ==> settings[j].simpleId != id by {
        if r.Some? {
          var i :| 0 <= i < |settings[1..]| && settings[1..][i].simpleId == id && r.value == settings[1..][i].value
                   && forall j :: 0 <= j < i ==> settings[1..][j].simpleId != id;
          assert settings[i + 1].simpleId == id;
          forall j | 0 <= j < i + 1 ensures settings[j].simpleId != id {
            if j > 0 { assert settings[j] == settings[1..][j - 1]; }
          }
        }
      }
      r
  }

  /** `elem.elemData?.publicSetting` is truthy. */
  predicate IsPublic(e: SettingsElem) {
    e.publicSetting.Some? && Truthy(e.publicSetting.value)
  }

  /** Some public element among `elems` is named `k` and has a setting. */
  ghost predicate PublicKey(settings: seq<Setting>, elems: seq<SettingsElem>, k: string) {
    exists i :: 0 <= i < |elems| && elems[i].elemId == k && IsPublic(elems[i]) && FindSetting(settings, k).Some?
  }

  /** The loop of `getPublicSysSettings`: every public element that has a setting contributes `elemId -> value`. */
  method CollectPublicSettings(settings: seq<Setting>, elems: seq<SettingsElem>) returns (publicSettings: map<string, Json>)
    ensures forall k :: k in publicSettings <==> PublicKey(settings, elems, k)
    ensures forall k :: k in publicSettings ==> FindSetting(settings, k).Some? && publicSettings[k] == FindSetting(settings, k).value
  {
    publicSettings := map[];
    for i := 0 to |elems|
      invariant forall k :: k in publicSettings <==> PublicKey(settings, elems[..i], k)
      invariant forall k :: k in publicSettings ==> FindSetting(settings, k).Some? && publicSettings[k] == FindSetting(settings, k).value
    {
      var elem := elems[i];
      if IsPublic(elem) {
        var setting := FindSetting(settings, elem.elemId);
        if setting.Some? {
          publicSettings := publicSettings[elem.elemId := setting.value];
        }
      }
      assert elems[..i + 1][..i] == elems[..i];
      forall k ensures k in publicSettings <==> PublicKey(settings, elems[..i + 1], k) {
        if PublicKey(settings, elems[..i + 1], k) {
          var j :| 0 <= j < i + 1 && elems[..i + 1][j].elemId == k && IsPublic(elems[..i + 1][j]) && FindSetting(settings, k).Some?;
          if j < i {
            assert elems[..i][j] == elems[..i + 1][j];
          }
        }
        if k in publicSettings && k != elem.elemId {
          var j :| 0 <= j < i && elems[..i][j].elemId == k && IsPublic(elems[..i][j]) && FindSetting(settings, k).Some?;
          assert elems[..i + 1][j] == elems[..i][j];
        }
        if k in publicSettings && k == elem.elemId && IsPublic(elem) && FindSetting(settings, k).Some? {
          assert elems[..i + 1][i] == elem;
        }
      }
    }
    assert elems[..|elems|] == elems;
  }

  /** The module-level cache. */
  class SettingsCache {
    var cachedSysSettings: Option<seq<Setting>>
    var cachedSysSettingsForm: Option<SettingsForm>
    var cachedTime: Option<int>
    const cacheTime: int

    /** Module load: nothing cached yet. */
    constructor (cacheTime: int)
      ensures cachedSysSettings.None? && cachedSysSettingsForm.None? && cachedTime.None?
      ensures this.cacheTime == cacheTime
    {
      cachedSysSettings := None;
      cachedSysSettingsForm := None;
      cachedTime := None;
      this.cacheTime := cacheTime;
    }

    /** The timestamp is missing, or strictly more than `cacheTime` old: a cache exactly `cacheTime` old is still used. */
    predicate Stale(now: int)
      reads this
    {
      cachedTime.None? || cachedTime.value + cacheTime < now
    }

    predicate SettingsNeedRefresh(now: int)
      reads this
    {
      cachedSysSettings.None? || Stale(now)
    }

    predicate FormNeedsRefresh(now: int)
      reads this
    {
      cachedSysSettingsForm.None? || Stale(now)
    }

    /** `setCachedSysSettings`: reload both from the store and stamp the current time. */
    method SetCachedSysSettings(db: SettingsDb, now: int)
      modifies this
      ensures cachedSysSettings == Some(db.settings) && cachedSysSettingsForm == db.form && cachedTime == Some(now)
    {
      cachedSysSettings := Some(db.settings);
      cachedSysSettingsForm := db.form;
      cachedTime := Some(now);
    }

    /** `getCachedSysSettings`: refresh exactly when the settings or the timestamp is missing or stale. */
    method GetCachedSysSettings(db: SettingsDb, now: int) returns (settings: seq<Setting>)
      modifies this
      ensures old(SettingsNeedRefresh(now)) ==>
        cachedSysSettings == Some(db.settings) && cachedSysSettingsForm == db.form && cachedTime == Some(now)
      ensures !old(SettingsNeedRefresh(now)) ==>
        cachedSysSettings == old(cachedSysSettings) && cachedSysSettingsForm == old(cachedSysSettingsForm) && cachedTime == old(cachedTime)
      ensures cachedSysSettings == Some(settings)
      ensures cacheTime >= 0 ==> !SettingsNeedRefresh(now)
    {
      if cachedSysSettings.None? || cachedTime.None? || cachedTime.value + cacheTime < now {
        SetCachedSysSettings(db, now);
      }
      settings := cachedSysSettings.value;
    }

    /** `getSysSetting(id)`: the value of the first cached setting with that id. */
    method GetSysSetting(id: string, db: SettingsDb, now: int) returns (r: Option<Json>)
      modifies this
      ensures old(SettingsNeedRefresh(now)) ==> cachedSysSettings == Some(db.settings) && cachedTime == Some(now)
      ensures !old(SettingsNeedRefresh(now)) ==> cachedSysSettings == old(cachedSysSettings) && cachedTime == old(cachedTime)
      ensures cachedSysSettingsForm == if old(SettingsNeedRefresh(now)) then db.form else old(cachedSysSettingsForm)
      ensures cachedSysSettings.Some? && r == FindSetting(cachedSysSettings.value, id)
    {
      var settings := GetCachedSysSettings(db, now);
      r := FindSetting(settings, id);
    }

    /** `getSysSettingsForm`: refresh exactly when the form or the timestamp is missing or stale. */
    method GetSysSettingsForm(db: SettingsDb, now: int) returns (form: Option<SettingsForm>)
      modifies this
      ensures old(FormNeedsRefresh(now)) ==>
        cachedSysSettings == Some(db.settings) && cachedSysSettingsForm == db.form && cachedTime == Some(now)
      ensures !old(FormNeedsRefresh(now)) ==>
        cachedSysSettings == old(cachedSysSettings) && cachedSysSettingsForm == old(cachedSysSettingsForm) && cachedTime == old(cachedTime)
      ensures form == cachedSysSettingsForm
    {
      if cachedSysSettingsForm.None? || cachedTime.None? || cachedTime.value + cacheTime < now {
        SetCachedSysSettings(db, now);
      }
      form := cachedSysSettingsForm;
    }

    /**
     * `getPublicSysSettings`: `{}` without a cached form; otherwise exactly the public elements of the
     * cached form that have a setting, each mapped to that setting's value.
     */
    method GetPublicSysSettings(db: SettingsDb, now: int) returns (r: map<string, Json>)
      modifies this
      ensures old(SettingsNeedRefresh(now)) ==>
        cachedSysSettings == Some(db.settings) && cachedSysSettingsForm == db.form && cachedTime == Some(now)
      ensures !old(SettingsNeedRefresh(now)) ==>
        cachedSysSettings == old(cachedSysSettings) && cachedSysSettingsForm == old(cachedSysSettingsForm) && cachedTime == old(cachedTime)
      ensures cachedSysSettingsForm.None? ==> r == map[]
      ensures cachedSysSettings.Some? && cachedSysSettingsForm.Some? ==>
        (forall k :: k in r <==> PublicKey(cachedSysSettings.value, cachedSysSettingsForm.value.formElems, k)) &&
        (forall k :: k in r ==> r[k] == FindSetting(cachedSysSettings.value, k).value)
    {
      var settings := GetCachedSysSettings(db, now);
      if cachedSysSettingsForm.None? {
        return map[];
      }
      r := CollectPublicSettings(settings, cachedSysSettingsForm.value.formElems);
    }
  }
}
