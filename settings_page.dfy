/** src/components/pages/Settings.jsx: the settings form. Its `settings` state
    is a record held by the page, edited one field or one nested field at a
    time, and sent whole to `updateStoreSettings` on save. */
module SettingsPage {
  import opened Wrappers
  import opened Json
  import opened Text
  import SettingsService

  /** The page's initial `settings`, shown until the load completes. */
  const Initial: Record := map[
    "name" := Str(""),
    "description" := Str(""),
    "logo" := Str(""),
    "theme" := Str("default"),
    "currency" := Str("USD"),
    "notifications" := Obj(map["email" := Bool(true), "sms" := Bool(false), "push" := Bool(true)]),
    "shipping" := Obj(map["enabled" := Bool(true), "freeThreshold" := Num(100.0), "defaultRate" := Num(9.99)])
  ]

  /** `{ ...prev, [field]: value }`: the field has the value, every other key
      is as it was. */
  function WithField(prev: Record, field: string, value: Value): (r: Record)
    ensures r.Keys == prev.Keys + {field}
    ensures r[field] == value
    ensures forall k :: k in prev && k != field ==> r[k] == prev[k]
  {
    Spread(prev, map[field := value])
  }

  /** `{ ...prev, [parent]: { ...prev[parent], [field]: value } }`: the nested
      field has the value, the parent's other fields and every other top-level
      key are as they were. A missing parent starts from no fields. */
  function WithNested(prev: Record, parent: string, field: string, value: Value): (r: Record)
    ensures r.Keys == prev.Keys + {parent}
    ensures r[parent].Obj? && field in r[parent].fields && r[parent].fields[field] == value
    ensures parent in prev ==> r[parent].fields.Keys == FieldsOf(prev[parent]).Keys + {field}
    ensures forall f :: parent in prev && f in FieldsOf(prev[parent]) && f != field ==>
      r[parent].fields[f] == FieldsOf(prev[parent])[f]
    ensures forall k :: k in prev && k != parent ==> r[k] == prev[k]
  {
    var siblings := if parent in prev then FieldsOf(prev[parent]) else map[];
    Spread(prev, map[parent := Obj(Spread(siblings, map[field := value]))])
  }

  /** `parseFloat(text) || 0`: `NaN` and 0 are both falsy, so either gives 0. */
  function NumberOrZero(text: string): (v: real)
    ensures ParseFloat(text).NaN? ==> v == 0.0
    ensures ParseFloat(text).Number? ==> v == ParseFloat(text).value
  {
    match ParseFloat(text)
    case NaN => 0.0
    case Number(x) => if x == 0.0 then 0.0 else x
  }

  /** A cleared input and text that is not a number both store 0; a price
      typed as dollars and cents stores that amount. */
  lemma NumberInputs(cents: nat)
    ensures NumberOrZero("") == 0.0
    ensures NumberOrZero("abc") == 0.0
    ensures NumberOrZero(CentsToString(cents)) == cents as real / 100.0
  {
    assert DigitPrefix("abc") == [] by { assert !IsDigit('a'); }
    assert TrimStart("abc") == "abc" by { assert !IsSpace('a'); }
    ParseFloatOfCents(cents);
  }

  /** Saving sends the whole record: every key the page holds takes the page's
      value, keys only the store has keep theirs, and when the page holds every
      stored key the store ends up equal to the page. */
  lemma SaveOverwritesHeldKeys(stored: Record, page: Record)
    ensures forall k :: k in page ==> Spread(stored, page)[k] == page[k]
    ensures forall k :: k in stored && k !in page ==> Spread(stored, page)[k] == stored[k]
    ensures stored.Keys <= page.Keys ==> Spread(stored, page) == page
  {
    if stored.Keys <= page.Keys {
      assert Spread(stored, page).Keys == page.Keys;
    }
  }

  /** Editing a shipping number keeps shipping's other fields, so the other
      number and the enabled flag survive the edit. */
  lemma ShippingEditKeepsSiblings(prev: Record, text: string)
    requires "shipping" in prev && prev["shipping"] == Initial["shipping"]
    ensures var r := WithNested(prev, "shipping", "defaultRate", Num(NumberOrZero(text)));
      r["shipping"].fields["freeThreshold"] == Num(100.0) &&
      r["shipping"].fields["enabled"] == Bool(true) &&
      r["shipping"].fields["defaultRate"] == Num(NumberOrZero(text))
  {
    assert "freeThreshold" in FieldsOf(prev["shipping"]);
    assert "enabled" in FieldsOf(prev["shipping"]);
  }

  class SettingsForm {
    var settings: Record
    var loading: bool
    var saving: bool
    var error: Option<string>

    constructor ()
      ensures settings == Initial && loading && !saving && error == None
    {
      settings := Initial;
      loading := true;
      saving := false;
      error := None;
    }

    /** `loadSettings`, with the outcome of `getStoreSettings` as a parameter. */
    method LoadSettings(outcome: Result<Record>)
      modifies this
      ensures !loading && saving == old(saving)
      ensures outcome.Ok? ==> error == None && settings == outcome.value
      ensures outcome.Err? ==> error == Some(outcome.error) && settings == old(settings)
    {
      error := None;
      loading := true;
      match outcome {
        case Ok(data) => settings := data;
        case Err(message) => error := Some(message);
      }
      loading := false;
    }

    /** `handleInputChange`. */
    method HandleInputChange(field: string, value: Value)
      modifies this
      ensures settings == WithField(old(settings), field, value)
      ensures loading == old(loading) && saving == old(saving) && error == old(error)
    {
      settings := WithField(settings, field, value);
    }

    /** `handleNestedChange`. */
    method HandleNestedChange(parent: string, field: string, value: Value)
      modifies this
      ensures settings == WithNested(old(settings), parent, field, value)
      ensures loading == old(loading) && saving == old(saving) && error == old(error)
    {
      settings := WithNested(settings, parent, field, value);
    }

    /** The shipping rate and threshold inputs: the text is read with
        `parseFloat(...) || 0` and stored as a nested field of "shipping". */
    method HandleShippingNumber(field: string, text: string)
      modifies this
      ensures settings == WithNested(old(settings), "shipping", field, Num(NumberOrZero(text)))
      ensures loading == old(loading) && saving == old(saving) && error == old(error)
    {
      HandleNestedChange("shipping", field, Num(NumberOrZero(text)));
    }

    /** `handleSubmit`: the whole record goes to `updateStoreSettings`, which
        spreads it over the stored settings; the page's own record is kept. */
    method HandleSubmit(store: SettingsService.SettingsStore)
      modifies this, store
      ensures store.settingsData == Spread(old(store.settingsData), old(settings))
      ensures settings == old(settings) && !saving
      ensures loading == old(loading) && error == old(error)
    {
      saving := true;
      var _ := store.Update(settings);
      saving := false;
    }
  }
}
