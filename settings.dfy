/**
 * The five-field settings record: how it is loaded from the slot with a
 * default per field (src/App.jsx:27-41) and what the persistence effect
 * writes back (src/App.jsx:45-56).
 */
module Settings {
  import opened Wrappers
  import opened Storage

  const DefaultTheme: string := "anOldHope"
  const DefaultCode: string := "let x = 'cool';"
  const DefaultTabSize: string := "    "
  const DefaultLanguage: string := "javascript"

  /** The component's five state cells; each holds whatever JavaScript value it was given. */
  datatype Settings = Settings(
    currentTheme: Value,
    code: Value,
    showLineNumber: Value,
    tabSize: Value,
    language: Value)

  /** The names the record is written and read under. */
  const FieldNames: set<string> := {"currentTheme", "code", "showLineNumber", "tabSize", "language"}

  /** The value of the field named `key`, `undefined` for any other name. */
  function Field(s: Settings, key: string): Value {
    match key
    case "currentTheme" => s.currentTheme
    case "code" => s.code
    case "showLineNumber" => s.showLineNumber
    case "tabSize" => s.tabSize
    case "language" => s.language
    case _ => Undefined
  }

  /** No field is `undefined`, which is the case for every state the component can reach. */
  predicate Defined(s: Settings) {
    s.currentTheme != Undefined && s.code != Undefined && s.showLineNumber != Undefined &&
    s.tabSize != Undefined && s.language != Undefined
  }

  /**
   * The record survives a save and a reload: each `||` field is truthy and
   * the `??` field is neither `null` nor `undefined`.
   */
  predicate Reloadable(s: Settings) {
    Truthy(s.currentTheme) && Truthy(s.code) && !Nullish(s.showLineNumber) &&
    Truthy(s.tabSize) && Truthy(s.language)
  }

  /**
   * The five initialisers, in the order the component runs them: the first
   * read that throws aborts the whole load.
   */
  function Load(stored: Option<Blob>): (r: Result<Settings, Error>)
    ensures r.Err? <==> Throws(stored)
    ensures r.Ok? ==> Reloadable(r.value) && Defined(r.value)
  {
    var theme :- GetSetting(stored, "currentTheme");
    // whether a read throws depends on the slot only, so the other four cannot
    var code := GetSetting(stored, "code").value;
    var show := GetSetting(stored, "showLineNumber").value;
    var tab := GetSetting(stored, "tabSize").value;
    var lang := GetSetting(stored, "language").value;
    Ok(Settings(
      Or(theme, Str(DefaultTheme)),
      Or(code, Str(DefaultCode)),
      Coalesce(show, Bool(true)),
      Or(tab, Str(DefaultTabSize)),
      Or(lang, Str(DefaultLanguage))))
  }

  /**
   * The record `JSON.stringify` makes of the five state cells: every field
   * under its own name, except that a property whose value is `undefined`
   * is dropped.
   */
  function Snapshot(s: Settings): (m: map<string, Value>)
    ensures m.Keys <= FieldNames
    ensures Defined(s) ==> m.Keys == FieldNames
    ensures forall key :: key in m ==> m[key] != Undefined
  {
    map key | key in FieldNames && Field(s, key) != Undefined :: Field(s, key)
  }

  /** The blob the persistence effect leaves in the slot. */
  function Saved(s: Settings): Option<Blob> {
    Some(JsonObject(Snapshot(s)))
  }

  /** With nothing stored (or the empty string), the documented defaults load. */
  lemma NothingStoredLoadsDefaults(stored: Option<Blob>)
    requires stored == None || stored == Some(EmptyText)
    ensures Load(stored) == Ok(Settings(
      Str("anOldHope"), Str("let x = 'cool';"), Bool(true), Str("    "), Str("javascript")))
  {
  }

  /**
   * A stored JSON value that is neither an object nor `null` (a number, a
   * string, a boolean, an array) has none of the five fields, so all five
   * defaults load.
   */
  lemma NonObjectLoadsDefaults()
    ensures Load(Some(JsonOther)) == Ok(Settings(
      Str("anOldHope"), Str("let x = 'cool';"), Bool(true), Str("    "), Str("javascript")))
  {
  }

  /** Text that is not JSON, or the JSON `null`, makes the load throw. */
  lemma UnreadableSlotThrows()
    ensures Load(Some(Malformed)) == Err(SyntaxError)
    ensures Load(Some(JsonNull)) == Err(TypeError)
  {
  }

  /**
   * `showLineNumber` uses `??`: a stored `false` loads as `false`, any
   * stored value other than `null`/`undefined` loads unchanged, and the
   * default `true` is used exactly when nothing usable is stored.
   */
  lemma ShowLineNumberCoalesces(fields: map<string, Value>)
    ensures Load(Some(JsonObject(fields))).Ok?
    ensures var loaded := Load(Some(JsonObject(fields))).value.showLineNumber;
      && ("showLineNumber" in fields && !Nullish(fields["showLineNumber"]) ==> loaded == fields["showLineNumber"])
      && ("showLineNumber" !in fields || Nullish(fields["showLineNumber"]) ==> loaded == Bool(true))
  {
  }

  /** The case the `??` is there for: a stored `false` is kept. */
  lemma StoredFalseSurvives(fields: map<string, Value>)
    requires "showLineNumber" in fields && fields["showLineNumber"] == Bool(false)
    ensures Load(Some(JsonObject(fields))).Ok?
    ensures Load(Some(JsonObject(fields))).value.showLineNumber == Bool(false)
  {
  }

  /** The default each `||` field falls back to. */
  function StringDefault(key: string): Value {
    match key
    case "currentTheme" => Str(DefaultTheme)
    case "code" => Str(DefaultCode)
    case "tabSize" => Str(DefaultTabSize)
    case _ => Str(DefaultLanguage)
  }

  /**
   * The four string fields use `||`: a stored truthy value (a non-empty
   * string among others) loads unchanged, while an absent, `undefined`,
   * `null`, `false`, `0` or empty-string value loads as the field's default.
   */
  lemma StringFieldOrDefault(fields: map<string, Value>, key: string)
    requires key in {"currentTheme", "code", "tabSize", "language"}
    ensures Load(Some(JsonObject(fields))).Ok?
    ensures var loaded := Field(Load(Some(JsonObject(fields))).value, key);
      && (key in fields && Truthy(fields[key]) ==> loaded == fields[key])
      && (key !in fields || !Truthy(fields[key]) ==> loaded == StringDefault(key))
  {
  }

  /** A stored empty string is not kept: it loads as the field's default. */
  lemma EmptyStringLoadsDefault(fields: map<string, Value>, key: string)
    requires key in {"currentTheme", "code", "tabSize", "language"}
    requires key in fields && fields[key] == Str("")
    ensures Load(Some(JsonObject(fields))).Ok?
    ensures Field(Load(Some(JsonObject(fields))).value, key) == StringDefault(key) != Str("")
  {
  }

  /** A record with no `undefined` field is written with all five fields. */
  lemma SnapshotWritesAllFields(s: Settings)
    requires Defined(s)
    ensures Snapshot(s).Keys == FieldNames
  {
  }

  /**
   * Write-on-change: after one field changes, the written record holds the
   * new value under that field's name and the old record's value under
   * every other name.
   */
  lemma WriteOnChange(s: Settings, t: Settings, key: string)
    requires Defined(s) && Defined(t) && key in FieldNames
    requires forall other :: other in FieldNames && other != key ==> Field(t, other) == Field(s, other)
    ensures Snapshot(t).Keys == Snapshot(s).Keys == FieldNames
    ensures Snapshot(t)[key] == Field(t, key)
    ensures forall other :: other in FieldNames && other != key ==> Snapshot(t)[other] == Snapshot(s)[other]
  {
  }

  /**
   * Save then load gives back the same record exactly when the record is
   * reloadable: a falsy string field, or a `null` line-number flag, comes
   * back as its default instead.
   */
  lemma SaveLoadRoundTrip(s: Settings)
    ensures Load(Saved(s)) == Ok(s) <==> Reloadable(s)
  {
  }

  /** Loading, saving what was loaded and loading again gives the first load's record. */
  lemma LoadSaveLoad(stored: Option<Blob>)
    requires Load(stored).Ok?
    ensures Load(Saved(Load(stored).value)) == Load(stored)
  {
  }

  /** Clearing the editor is not remembered: the next load shows the default code. */
  lemma ClearedCodeReloadsDefault(s: Settings)
    ensures Load(Saved(s.(code := Str("")))).Ok?
    ensures Load(Saved(s.(code := Str("")))).value.code == Str(DefaultCode)
  {
  }
}
