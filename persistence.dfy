/**
 * The component's settings state together with the storage slot, and the
 * persistence effect that writes the whole record back after every change
 * (src/App.jsx:25-56, 90-153).
 */
module Persistence {
  import opened Wrappers
  import opened Storage
  import opened Settings

  class SettingsStore {
    /** The content of the slot under `StorageKey`. */
    var slot: Option<Blob>
    /** The five state cells. */
    var state: Settings

    /** The slot always holds the snapshot of the current state, and no cell is `undefined`. */
    ghost predicate Valid()
      reads this
    {
      slot == Saved(state) && Defined(state)
    }

    /** The first render: the state cells are initialised, the effect has not run yet. */
    constructor Render(stored: Option<Blob>, initial: Settings)
      requires Load(stored) == Ok(initial)
      ensures slot == stored && state == initial
    {
      slot := stored;
      state := initial;
    }

    /**
     * Mounting the component: load the five cells, which throws for a slot
     * that cannot be read; otherwise render, after which the persistence
     * effect runs once and writes the full record, defaults included.
     */
    static method Mount(stored: Option<Blob>) returns (r: Result<SettingsStore, Error>)
      ensures r.Err? <==> Throws(stored)
      ensures r.Err? ==> r.error == Load(stored).error
      ensures r.Ok? ==> fresh(r.value) && r.value.Valid() && Load(stored) == Ok(r.value.state)
    {
      var loaded := Load(stored);
      if loaded.Err? {
        return Err(loaded.error);
      }
      var store := new SettingsStore.Render(stored, loaded.value);
      store.Save();
      r := Ok(store);
    }

    /** The persistence effect: overwrite the slot with the whole record. */
    method Save()
      modifies this`slot
      ensures slot == Saved(state)
    {
      slot := Some(JsonObject(Snapshot(state)));
    }

    /*
     * Each setter below is a state update followed by the effect. Setting a
     * cell to the value it already holds does not re-render the component,
     * so the effect does not run; the slot then already holds the snapshot.
     */

    /** Theme selector. */
    method SetCurrentTheme(name: string)
      requires Valid()
      modifies this
      ensures Valid()
      ensures state == old(state).(currentTheme := Str(name))
    {
      if state.currentTheme != Str(name) {
        state := state.(currentTheme := Str(name));
        Save();
      }
    }

    /** The textarea's input event, with the textarea's whole text. */
    method SetCode(text: string)
      requires Valid()
      modifies this
      ensures Valid()
      ensures state == old(state).(code := Str(text))
    {
      if state.code != Str(text) {
        state := state.(code := Str(text));
        Save();
      }
    }

    /** Line-number checkbox. */
    method SetShowLineNumber(checked: bool)
      requires Valid()
      modifies this
      ensures Valid()
      ensures state == old(state).(showLineNumber := Bool(checked))
    {
      if state.showLineNumber != Bool(checked) {
        state := state.(showLineNumber := Bool(checked));
        Save();
      }
    }

    /** Tab-size selector. */
    method SetTabSize(tab: string)
      requires Valid()
      modifies this
      ensures Valid()
      ensures state == old(state).(tabSize := Str(tab))
    {
      if state.tabSize != Str(tab) {
        state := state.(tabSize := Str(tab));
        Save();
      }
    }

    /** Language selector. */
    method SetLanguage(lang: string)
      requires Valid()
      modifies this
      ensures Valid()
      ensures state == old(state).(language := Str(lang))
    {
      if state.language != Str(lang) {
        state := state.(language := Str(lang));
        Save();
      }
    }
  }

  /**
   * A session: mount, turn line numbers off, clear the editor. A reload
   * keeps the `false` but brings the default code back.
   */
  method ClearEditorSession(stored: Option<Blob>)
    requires !Throws(stored)
  {
    var mounted := SettingsStore.Mount(stored);
    var store := mounted.value;
    store.SetShowLineNumber(false);
    store.SetCode("");
    ghost var s := store.state;
    ghost var reloaded := Load(store.slot).value;
    assert Field(s, "showLineNumber") == Bool(false);
    StoredFalseSurvives(Snapshot(s));
    assert s.(code := Str("")) == s;
    ClearedCodeReloadsDefault(s);
    assert reloaded.code == Str(DefaultCode);
    assert reloaded.showLineNumber == Bool(false);
  }
}
