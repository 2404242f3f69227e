/**
 * The code editor: a textarea whose key handler inserts the configured tab
 * string at the caret instead of moving focus (src/App.jsx:139-154), and the
 * tab sizes the selector offers (src/App.jsx:115-126, 162).
 */
module Editor {
  import Settings

  /** `KeyboardEvent.keyCode` of the Tab key. */
  const TabKey: int := 9

  /** The tab-size selector's option values: 2, 4 and 6 spaces. */
  const TabChoices: seq<string> := ["  ", "    ", "      "]

  predicate AllSpaces(s: string) {
    forall i :: 0 <= i < |s| ==> s[i] == ' '
  }

  /** The width the rendered code block gives a tab character: the tab string's length. */
  function TabWidth(tabSize: string): nat {
    |tabSize|
  }

  /**
   * `text` with `ins` inserted at `at`: the text before `at`, then `ins`,
   * then the text from `at` on.
   */
  function Splice(text: string, at: nat, ins: string): (r: string)
    requires at <= |text|
    ensures |r| == |text| + |ins|
    ensures r[..at] == text[..at]
    ensures r[at..at + |ins|] == ins
    ensures r[at + |ins|..] == text[at..]
  {
    text[..at] + ins + text[at..]
  }

  /** Removing the inserted segment gives back the original text. */
  lemma SpliceRemoved(text: string, at: nat, ins: string)
    requires at <= |text|
    ensures Splice(text, at, ins)[..at] + Splice(text, at, ins)[at + |ins|..] == text
  {
  }

  /**
   * Every selectable tab size is a string of spaces of length 2, 4 or 6,
   * and the default tab size is among them.
   */
  lemma TabChoicesAreSpaces()
    ensures forall t :: t in TabChoices ==> AllSpaces(t) && |t| in {2, 4, 6}
    ensures Settings.DefaultTabSize in TabChoices
  {
  }

  /**
   * With a selectable tab size, Tab inserts exactly as many spaces as the
   * rendered block uses for one tab.
   */
  lemma TabInsertsTabWidthSpaces(text: string, at: nat, tab: string)
    requires at <= |text| && tab in TabChoices
    ensures |Splice(text, at, tab)| - |text| == TabWidth(tab)
    ensures TabWidth(tab) in {2, 4, 6}
    ensures AllSpaces(Splice(text, at, tab)[at..at + |tab|])
  {
  }

  /** The editor element: its text and its selection. */
  class TextArea {
    var value: string
    var selectionStart: nat
    var selectionEnd: nat

    ghost predicate Valid()
      reads this
    {
      selectionStart <= selectionEnd <= |value|
    }

    constructor (text: string, start: nat, end: nat)
      requires start <= end <= |text|
      ensures Valid()
      ensures value == text && selectionStart == start && selectionEnd == end
    {
      value := text;
      selectionStart := start;
      selectionEnd := end;
    }

    /**
     * The `keydown` handler. On Tab the default action (leaving the
     * editor) is prevented and `setRangeText(tabSize, selectionStart,
     * selectionStart, "end")` runs: the tab string goes in at the start of
     * the selection, any selected text stays after it, and the selection
     * collapses to the end of the inserted text. Any other key is left to
     * the browser.
     */
    method OnKeyDown(keyCode: int, tabSize: string) returns (defaultPrevented: bool)
      requires Valid()
      modifies this
      ensures Valid()
      ensures defaultPrevented <==> keyCode == TabKey
      ensures keyCode == TabKey ==>
                && value == Splice(old(value), old(selectionStart), tabSize)
                && selectionStart == selectionEnd == old(selectionStart) + |tabSize|
      ensures keyCode != TabKey ==>
                value == old(value) && selectionStart == old(selectionStart) && selectionEnd == old(selectionEnd)
    {
      defaultPrevented := false;
      if keyCode == TabKey {
        defaultPrevented := true;
        var at := selectionStart;
        value := value[..at] + tabSize + value[at..];
        selectionStart, selectionEnd := at + |tabSize|, at + |tabSize|;
      }
    }
  }

  /**
   * Tab with the default four-space tab size and the caret at `p`: four
   * spaces go in at `p`, the text around them keeps its order, and the
   * caret ends at `p + 4`.
   */
  method TabWithDefaultSize(text: string, p: nat)
    requires p <= |text|
  {
    var area := new TextArea(text, p, p);
    var prevented := area.OnKeyDown(TabKey, "    ");
    assert prevented;
    assert area.value == text[..p] + "    " + text[p..];
    assert |area.value| == |text| + 4;
    assert area.selectionStart == area.selectionEnd == p + 4;
    prevented := area.OnKeyDown(13, "    ");
    assert !prevented && area.selectionStart == p + 4;
  }
}
