/**
 * Loading and saving the timer settings. `load` reads the stored JSON record
 * (falling back to the defaults when nothing parsable is stored) and coerces
 * each field with `Number(raw.field) || default`; `save` stores the record as
 * JSON.
 */
module SettingsRepository {
  import opened Wrappers
  import opened JsValues
  import opened Constants
  import opened Storage

  /** `JSON.stringify(settings)` as `JSON.parse` reads it back. */
  function SettingsToJson(s: Settings): Json
  {
    JObj(map["focus" := JNum(s.focus), "shortBreak" := JNum(s.shortBreak),
             "longBreak" := JNum(s.longBreak), "longBreakInterval" := JNum(s.longBreakInterval)])
  }

  /** `save(settings)`: what storage holds afterwards, one number under each field's name. */
  function Save(s: Settings): (r: Stored)
    ensures r.Parsed? && r.value.JObj?
    ensures r.value.fields.Keys == {"focus", "shortBreak", "longBreak", "longBreakInterval"}
    ensures Field(r.value, "focus") == Some(JNum(s.focus))
    ensures Field(r.value, "shortBreak") == Some(JNum(s.shortBreak))
    ensures Field(r.value, "longBreak") == Some(JNum(s.longBreak))
    ensures Field(r.value, "longBreakInterval") == Some(JNum(s.longBreakInterval))
  {
    Parsed(SettingsToJson(s))
  }

  /** The raw record `load` works on: the stored document, or the defaults. */
  function Raw(stored: Stored): Json
  {
    GetJson(stored, SettingsToJson(DefaultSettings))
  }

  /** `Number(raw.key)` for the loaded raw record. */
  function StoredNumber(stored: Stored, key: string): Num
  {
    NumberOf(Field(Raw(stored), key))
  }

  /**
   * The record expression of `load` on a raw value. Property access on a value
   * that is not an object yields `undefined`, so every field falls back.
   */
  function FromRaw(raw: Json): Settings
  {
    Settings(
      OrDefault(NumberOf(Field(raw, "focus")), DefaultSettings.focus),
      OrDefault(NumberOf(Field(raw, "shortBreak")), DefaultSettings.shortBreak),
      OrDefault(NumberOf(Field(raw, "longBreak")), DefaultSettings.longBreak),
      OrDefault(NumberOf(Field(raw, "longBreakInterval")), DefaultSettings.longBreakInterval))
  }

  /**
   * `load()`, with a stored JSON `null` read as a record without fields. Each
   * field is the stored number when it is usable and that field's default
   * otherwise, so the result never has a zero field.
   */
  function Load(stored: Stored): (r: Settings)
    ensures Usable(StoredNumber(stored, "focus")) ==> r.focus == StoredNumber(stored, "focus").value
    ensures !Usable(StoredNumber(stored, "focus")) ==> r.focus == DefaultSettings.focus
    ensures Usable(StoredNumber(stored, "shortBreak")) ==> r.shortBreak == StoredNumber(stored, "shortBreak").value
    ensures !Usable(StoredNumber(stored, "shortBreak")) ==> r.shortBreak == DefaultSettings.shortBreak
    ensures Usable(StoredNumber(stored, "longBreak")) ==> r.longBreak == StoredNumber(stored, "longBreak").value
    ensures !Usable(StoredNumber(stored, "longBreak")) ==> r.longBreak == DefaultSettings.longBreak
    ensures Usable(StoredNumber(stored, "longBreakInterval")) ==> r.longBreakInterval == StoredNumber(stored, "longBreakInterval").value
    ensures !Usable(StoredNumber(stored, "longBreakInterval")) ==> r.longBreakInterval == DefaultSettings.longBreakInterval
    ensures NonZero(r)
  {
    FromRaw(Raw(stored))
  }

  /** The outcome of a call that may throw a `TypeError`. */
  datatype Outcome<T> = Returned(value: T) | TypeError

  /**
   * `load()` as written: reading `raw.focus` when the stored document is the
   * JSON literal `null` throws. Everywhere else it agrees with `Load`.
   */
  function LoadAsWritten(stored: Stored): (r: Outcome<Settings>)
    ensures r.TypeError? <==> stored == Parsed(JNull)
    ensures r.Returned? ==> r.value == Load(stored)
  {
    var raw := Raw(stored);
    if raw.JNull? then TypeError else Returned(FromRaw(raw))
  }

  /** A stored `null` makes the written load throw instead of falling back. */
  lemma NullStoredThrows()
    ensures LoadAsWritten(Parsed(JNull)) == TypeError
    ensures Load(Parsed(JNull)) == DefaultSettings
  {
  }

  /** Nothing stored, or a document `JSON.parse` rejects, loads the defaults. */
  lemma AbsentLoadsDefaults()
    ensures Load(Missing) == DefaultSettings
    ensures Load(Malformed) == DefaultSettings
  {
  }

  /** A saved record loads back unchanged exactly when none of its fields is zero. */
  lemma SaveLoadRoundTrip(s: Settings)
    ensures Load(Save(s)) == s <==> NonZero(s)
  {
    var raw := SettingsToJson(s);
    assert Field(raw, "focus") == Some(JNum(s.focus));
    assert Field(raw, "shortBreak") == Some(JNum(s.shortBreak));
    assert Field(raw, "longBreak") == Some(JNum(s.longBreak));
    assert Field(raw, "longBreakInterval") == Some(JNum(s.longBreakInterval));
  }

  /** A corrupt field falls back to its own default and leaves the others as they were. */
  lemma CorruptFieldDefaultsOnlyItself(fields: map<string, Json>, v: Json)
    requires !Usable(NumberOfValue(v))
    ensures Load(Parsed(JObj(fields["focus" := v])))
         == Load(Parsed(JObj(fields))).(focus := DefaultSettings.focus)
    ensures Load(Parsed(JObj(fields["shortBreak" := v])))
         == Load(Parsed(JObj(fields))).(shortBreak := DefaultSettings.shortBreak)
    ensures Load(Parsed(JObj(fields["longBreak" := v])))
         == Load(Parsed(JObj(fields))).(longBreak := DefaultSettings.longBreak)
    ensures Load(Parsed(JObj(fields["longBreakInterval" := v])))
         == Load(Parsed(JObj(fields))).(longBreakInterval := DefaultSettings.longBreakInterval)
  {
    CorruptField(fields, "focus", v);
    CorruptField(fields, "shortBreak", v);
    CorruptField(fields, "longBreak", v);
    CorruptField(fields, "longBreakInterval", v);
  }

  /** Overwriting one key changes what that key reads and no other. */
  lemma CorruptField(fields: map<string, Json>, key: string, v: Json)
    ensures Field(JObj(fields[key := v]), key) == Some(v)
    ensures forall k :: k != key ==> Field(JObj(fields[key := v]), k) == Field(JObj(fields), k)
  {
  }

  /** Loading checks no range: a 500-minute focus block saved by hand comes back as it is. */
  lemma LoadKeepsOutOfRangeValues()
    ensures Load(Save(Settings(500, 5, 15, 4))).focus == 500
  {
    SaveLoadRoundTrip(Settings(500, 5, 15, 4));
  }
}

/**
 * The legacy build's settings repository: the same coercion, on the three
 * minute fields only. A stored `longBreakInterval` is never read back.
 */
module LegacySettingsRepository {
  import opened Wrappers
  import opened JsValues
  import opened Constants
  import opened Storage
  import SettingsRepository

  function SettingsToJson(s: LegacySettings): Json
  {
    JObj(map["focus" := JNum(s.focus), "shortBreak" := JNum(s.shortBreak), "longBreak" := JNum(s.longBreak)])
  }

  /** `save(settings)` for a three-field record: an object of exactly its three numbers. */
  function Save(s: LegacySettings): (r: Stored)
    ensures r.Parsed? && r.value.JObj?
    ensures r.value.fields.Keys == {"focus", "shortBreak", "longBreak"}
    ensures Field(r.value, "focus") == Some(JNum(s.focus))
    ensures Field(r.value, "shortBreak") == Some(JNum(s.shortBreak))
    ensures Field(r.value, "longBreak") == Some(JNum(s.longBreak))
  {
    Parsed(SettingsToJson(s))
  }

  /**
   * `save(settings)` for any record: the legacy app passes what it is given,
   * so the stored document is that record, every key with its own value.
   */
  function SaveRecord(fields: map<string, Json>): (r: Stored)
    ensures r == Parsed(JObj(fields))
    ensures forall k :: Field(r.value, k) == (if k in fields then Some(fields[k]) else None)
  {
    Parsed(JObj(fields))
  }

  function Raw(stored: Stored): Json
  {
    GetJson(stored, SettingsToJson(LegacyDefaultSettings))
  }

  function StoredNumber(stored: Stored, key: string): Num
  {
    NumberOf(Field(Raw(stored), key))
  }

  function FromRaw(raw: Json): LegacySettings
  {
    LegacySettings(
      OrDefault(NumberOf(Field(raw, "focus")), LegacyDefaultSettings.focus),
      OrDefault(NumberOf(Field(raw, "shortBreak")), LegacyDefaultSettings.shortBreak),
      OrDefault(NumberOf(Field(raw, "longBreak")), LegacyDefaultSettings.longBreak))
  }

  /** `load()`, with a stored `null` read as a record without fields. */
  function Load(stored: Stored): (r: LegacySettings)
    ensures Usable(StoredNumber(stored, "focus")) ==> r.focus == StoredNumber(stored, "focus").value
    ensures !Usable(StoredNumber(stored, "focus")) ==> r.focus == LegacyDefaultSettings.focus
    ensures Usable(StoredNumber(stored, "shortBreak")) ==> r.shortBreak == StoredNumber(stored, "shortBreak").value
    ensures !Usable(StoredNumber(stored, "shortBreak")) ==> r.shortBreak == LegacyDefaultSettings.shortBreak
    ensures Usable(StoredNumber(stored, "longBreak")) ==> r.longBreak == StoredNumber(stored, "longBreak").value
    ensures !Usable(StoredNumber(stored, "longBreak")) ==> r.longBreak == LegacyDefaultSettings.longBreak
    ensures r.focus != 0 && r.shortBreak != 0 && r.longBreak != 0
  {
    FromRaw(Raw(stored))
  }

  /** `load()` as written: a stored `null` throws on `raw.focus`. */
  function LoadAsWritten(stored: Stored): (r: SettingsRepository.Outcome<LegacySettings>)
    ensures r.TypeError? <==> stored == Parsed(JNull)
    ensures r.Returned? ==> r.value == Load(stored)
  {
    var raw := Raw(stored);
    if raw.JNull? then SettingsRepository.TypeError else SettingsRepository.Returned(FromRaw(raw))
  }

  lemma NullStoredThrows()
    ensures LoadAsWritten(Parsed(JNull)) == SettingsRepository.TypeError
    ensures Load(Parsed(JNull)) == LegacyDefaultSettings
  {
  }

  lemma AbsentLoadsDefaults()
    ensures Load(Missing) == LegacyDefaultSettings
    ensures Load(Malformed) == LegacyDefaultSettings
  {
  }

  /** A saved three-field record loads back unchanged exactly when no field is zero. */
  lemma SaveLoadRoundTrip(s: LegacySettings)
    ensures Load(Save(s)) == s <==> (s.focus != 0 && s.shortBreak != 0 && s.longBreak != 0)
  {
    var raw := SettingsToJson(s);
    assert Field(raw, "focus") == Some(JNum(s.focus));
    assert Field(raw, "shortBreak") == Some(JNum(s.shortBreak));
    assert Field(raw, "longBreak") == Some(JNum(s.longBreak));
  }

  /**
   * A full record saved with a long-break interval loads without it: the
   * loaded value is the same whatever interval was stored.
   */
  lemma IntervalIsDropped(s: Settings, otherInterval: Json)
    ensures Load(SaveRecord(SettingsRepository.SettingsToJson(s).fields))
         == Load(SaveRecord(SettingsRepository.SettingsToJson(s).fields["longBreakInterval" := otherInterval]))
    ensures Load(SaveRecord(SettingsRepository.SettingsToJson(s).fields))
         == FromRaw(SettingsToJson(LegacySettings(s.focus, s.shortBreak, s.longBreak)))
  {
  }
}
