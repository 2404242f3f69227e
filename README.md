# make_twite settings and editor core, in Dafny

make_twite is a one-page tool that renders pasted source code with a chosen
theme, language, tab size and line-number setting, and exports the result as
a PNG. Under the rendering sits a small core, all in `src/App.jsx`, which this
project models and proves properties of:

- **Loading settings** (`Storage`, `Settings`). `getSittings` reads one JSON
  blob stored under the key `__STORAGE_KEY` and returns one field of it, or
  `null` when nothing is stored. Five state initialisers each put a default in
  place of what was read. Four of them use `||`, so any falsy stored value
  (absent, `undefined`, `null`, `false`, `0`, `""`) gives the default. The line
  number flag uses `??`, so a stored `false` is kept. The slot is an
  `Option<Blob>`. A `Blob` is what `JSON.parse` makes of the stored text. Text
  that is not JSON, and the JSON `null`, make loading throw. This is modelled
  as an `Err` result.
- **Persistence** (`Persistence.SettingsStore`). A class holds the slot and
  the five state cells. Every setter updates one cell. The effect then writes
  the whole five-field record back. The invariant `Valid()` says that the slot
  always holds the snapshot of the state. Saving and then loading gives the
  record back exactly when its four `||` fields are truthy and its flag is
  neither `null` nor `undefined`. So clearing the editor is not remembered: the next load shows the
  default code.
- **Tab insertion** (`Editor.TextArea`). On key code 9 the handler prevents
  the default action and inserts the tab-size string at `selectionStart`. The
  caret then moves to just after the inserted text.
- **Theme names** (`Themes.ThemesNames`). A loop collects the keys of the
  theme object in `Object.entries` order.

Two client methods show the contracts in use: `Persistence.ClearEditorSession`
and `Editor.TabWithDefaultSize`.

Four consequences of the code that the model states:

- Mounting writes the full record at once, defaults included, because the
  persistence effect also runs after the first render (`Mount`).
- Every falsy stored value of a string field falls back to its default, the
  empty string included (`StringFieldOrDefault`).
- Unparsable stored text and a stored JSON `null` make the first render throw
  (`Load`, `UnreadableSlotThrows`).
- A stored theme name is not checked against the theme set: any truthy stored
  name loads unchanged.

## Model

| member | source | states |
|---|---|---|
| Storage.GetSetting | src/App.jsx:18-23 | reading throws exactly for unparsable text (SyntaxError) or a stored JSON `null` (TypeError); an empty slot or empty text gives `null`; a stored object gives the property's value when present and `undefined` when missing; any other JSON value gives `undefined` |
| Storage.FailureIndependentOfKey | src/App.jsx:18-23 | whether and with which error a read throws depends on the slot only, never on the key |
| Storage.Or | src/App.jsx:28 | `a \|\| b` is truthy iff either operand is, and is `a` whenever `a` is truthy and `b` whenever it is falsy |
| Storage.Coalesce | src/App.jsx:34 | `a ?? b` is nullish iff both operands are, and is `a` whenever `a` is not nullish and `b` whenever it is |
| Settings.Load | src/App.jsx:27-41 | loading throws exactly when the slot is unreadable; a loaded record never has an `undefined` field and always survives a save and reload |
| Settings.Snapshot | src/App.jsx:46-55 | the written record uses only the five field names, holds all five for a record with no `undefined` field, and never holds `undefined` |
| Settings.NothingStoredLoadsDefaults | src/App.jsx:18-41 | with nothing stored, the record is exactly "anOldHope", "let x = 'cool';", `true`, four spaces and "javascript" |
| Settings.NonObjectLoadsDefaults | src/App.jsx:18-41 | a stored JSON number, string, boolean or array loads as all five defaults |
| Settings.UnreadableSlotThrows | src/App.jsx:21-22 | unparsable text loads as a SyntaxError; a stored JSON `null` as a TypeError |
| Settings.ShowLineNumberCoalesces | src/App.jsx:33-35 | a stored non-nullish flag loads unchanged; an absent or nullish one loads as `true` |
| Settings.StoredFalseSurvives | src/App.jsx:33-35 | a stored `showLineNumber: false` loads as `false` |
| Settings.StringFieldOrDefault | src/App.jsx:27-41 | each of the four string fields loads unchanged when stored truthy, and as its own default when absent or falsy |
| Settings.EmptyStringLoadsDefault | src/App.jsx:27-41 | a stored empty string loads as the field's non-empty default |
| Settings.SnapshotWritesAllFields | src/App.jsx:45-56 | a record with no `undefined` field is written with all five names |
| Settings.WriteOnChange | src/App.jsx:45-56 | after one field changes, the written record has the new value for that field and the old values for the other four |
| Settings.SaveLoadRoundTrip | src/App.jsx:18-56 | loading after saving gives the same record if and only if the four `\|\|` fields are truthy and the flag is not nullish |
| Settings.LoadSaveLoad | src/App.jsx:18-56 | load, save, load gives the first load's record |
| Settings.ClearedCodeReloadsDefault | src/App.jsx:30-56 | a record saved with empty code reloads with the default code |
| Persistence.SettingsStore.Render | src/App.jsx:25-41 | the first render, for a slot that loads, holds the slot as stored and exactly the loaded record |
| Persistence.SettingsStore.Mount | src/App.jsx:25-56 | mounting fails exactly when loading throws, with the same error; otherwise the state is the loaded record and the slot already holds its full snapshot |
| Persistence.SettingsStore.Save | src/App.jsx:45-56 | the slot is overwritten with the snapshot of the whole state |
| Persistence.SettingsStore.SetCurrentTheme | src/App.jsx:87-92 | only the theme cell changes, to the selected name, and the slot holds the new snapshot |
| Persistence.SettingsStore.SetLanguage | src/App.jsx:103-106 | only the language cell changes, and the slot holds the new snapshot |
| Persistence.SettingsStore.SetTabSize | src/App.jsx:117-120 | only the tab-size cell changes, and the slot holds the new snapshot |
| Persistence.SettingsStore.SetShowLineNumber | src/App.jsx:129-135 | only the flag changes, to the checkbox state, and the slot holds the new snapshot |
| Persistence.SettingsStore.SetCode | src/App.jsx:152-153 | only the code cell changes, to the editor's text, and the slot holds the new snapshot |
| Themes.ThemesNames | src/App.jsx:8-14 | the result has one name per entry, and name i is entry i's key |
| Themes.OfferedNamesAreKeys | src/App.jsx:8-14 | every offered name is a key of the theme object, and every key is offered |
| Editor.Splice | src/App.jsx:144-149 | the new text is the text before the caret, then the tab string, then the text from the caret on; its length grows by the tab's length |
| Editor.SpliceRemoved | src/App.jsx:144-149 | removing the inserted segment gives back the original text |
| Editor.TabChoicesAreSpaces | src/App.jsx:122-124 | each selectable tab size is all spaces, of length 2, 4 or 6, and the default is one of them |
| Editor.TabInsertsTabWidthSpaces | src/App.jsx:162 | with a selectable tab size, Tab inserts as many spaces as the rendered tab width |
| Editor.TextArea.OnKeyDown | src/App.jsx:140-150 | on key code 9 the default is prevented, the tab string is spliced in at the selection start and the caret collapses after it; any other key leaves text and selection unchanged |

## Left out

- Image export (`takeSnapShootOfCodeBlok`, `download`, src/App.jsx:58-80): DOM queries, a foreign rasteriser, promise callbacks and a synthetic anchor click, with no data contract to state.
- Rendering: the JSX, the selectors' option lists, `SyntaxHighlighter` and React's scheduling. A setter is modelled as the state update followed directly by the effect.
- The `themes` and `languages` modules are not part of this model. The theme object is given as its `Object.entries` list. The order in which JavaScript enumerates integer-like keys is not modelled.
- Real `localStorage`, `JSON.parse` and `JSON.stringify`: the slot holds the parsed form. Failing writes (quota exceeded, storage disabled) and writes by other tabs are not modelled.
- Storage.Value: numbers are integers, and arrays and objects are one opaque `Compound` value assumed to survive a JSON round trip unchanged.
- Storage.GetSetting: inherited properties (such as `toString`) and index or `length` properties of a stored non-object are read as `undefined`. The component only asks for its five field names, which are none of these.
- Editor.TextArea.OnKeyDown: takes the tab size as a string. A non-string stored tab size would be converted by JavaScript's `ToString`, which is not modelled. The browser's own handling of other keys is not modelled either; its result reaches the state through the input event (`SetCode`).
- Editor.TextArea.OnKeyDown: `setRangeText` with a start past the end, or a non-empty range, is not modelled beyond what this handler uses: start and end are both `selectionStart`. Tab does not fire an input event, so the `code` cell is updated only by the next input.
- Editor.TextArea.OnKeyDown: in the browser `selectionStart` counts UTF-16 code units, while the model indexes the text as a sequence of characters; the two differ for text outside the Basic Multilingual Plane.
