/** src/services/api/settingsService.js: the module variable `settingsData` and
    the two calls over it. */
module SettingsService {
  import opened Json

  class SettingsStore {
    /** The module-level record `settingsData`. */
    var settingsData: Record

    constructor (seed: Record)
      ensures settingsData == seed
    {
      settingsData := seed;
    }

    /** `getStoreSettings`: a copy of the stored settings. */
    method Get() returns (current: Record)
      ensures current == settingsData
    {
      current := settingsData;
    }

    /** `updateStoreSettings`: `settingsData = { ...settingsData, ...newSettings }`,
        and the call returns a copy of the new settings. */
    method Update(newSettings: Record) returns (saved: Record)
      modifies this
      ensures settingsData == Spread(old(settingsData), newSettings)
      ensures saved == settingsData
    {
      settingsData := Spread(settingsData, newSettings);
      saved := settingsData;
    }
  }

  /** After an update, every key the update names has the update's value and every
      other key keeps its previous value. */
  lemma UpdateOverridesNamedKeys(current: Record, newSettings: Record, k: string)
    ensures k in newSettings ==> Spread(current, newSettings)[k] == newSettings[k]
    ensures k !in newSettings ==>
      (k in Spread(current, newSettings) <==> k in current) &&
      (k in current ==> Spread(current, newSettings)[k] == current[k])
  {
  }

  /** The merge is shallow: a nested object in the update replaces the stored one
      whole, so a nested field the update leaves out is gone afterwards. */
  lemma MergeIsShallow(current: Record, newSettings: Record, key: string, field: string)
    requires key in newSettings && newSettings[key].Obj?
    requires key in current && current[key].Obj? && field in current[key].fields
    requires field !in newSettings[key].fields
    ensures field !in FieldsOf(Spread(current, newSettings)[key])
  {
  }

  /** Saving the same settings twice stores what saving them once stores. */
  lemma UpdateIdempotent(current: Record, newSettings: Record)
    ensures Spread(Spread(current, newSettings), newSettings) == Spread(current, newSettings)
  {
    SpreadIdempotent(current, newSettings);
  }

  /** What an update returns is what a later get returns. */
  method UpdateThenGet(store: SettingsStore, newSettings: Record) returns (saved: Record, fetched: Record)
    modifies store
    ensures saved == fetched == Spread(old(store.settingsData), newSettings)
  {
    saved := store.Update(newSettings);
    fetched := store.Get();
  }
}
