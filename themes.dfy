/** The theme selector's option list (src/App.jsx:8-14, 26). */
module Themes {

  /**
   * `themesNames(obj)`, given `Object.entries(obj)`: the object's own
   * enumerable string-keyed properties as key/value pairs, in enumeration
   * order. The loop pushes each key in turn.
   */
  method ThemesNames<V>(entries: seq<(string, V)>) returns (names: seq<string>)
    ensures |names| == |entries|
    ensures forall i :: 0 <= i < |entries| ==> names[i] == entries[i].0
  {
    names := [];
    for i := 0 to |entries|
      invariant |names| == i
      invariant forall j :: 0 <= j < i ==> names[j] == entries[j].0
    {
      var (key, _) := entries[i];
      names := names + [key];
    }
  }

  /**
   * The names the loop offers are exactly the keys of the theme object:
   * each offered name is a key, and each key is offered.
   */
  lemma OfferedNamesAreKeys<V>(entries: seq<(string, V)>, names: seq<string>)
    requires |names| == |entries|
    requires forall i :: 0 <= i < |entries| ==> names[i] == entries[i].0
    ensures forall name :: name in names <==> exists v :: (name, v) in entries
  {
  }
}
