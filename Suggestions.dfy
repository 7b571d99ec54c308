/** Location suggestions and the case-insensitive lookup behind Enter and "Get Weather". */
module Suggestions {
  import opened Wrappers
  import opened Text

  /** A candidate location returned by the location search. */
  datatype Suggestion = Suggestion(id: string, name: string, country: string)

  /** The predicate passed to `find`: the suggestion's name equals the typed text, ignoring case. */
  predicate NameMatches(s: Suggestion, city: string): (m: bool)
    ensures m ==> |s.name| == |city|
    ensures s.name == city ==> m
  {
    EqualsIgnoringCase(s.name, city)
  }

  /** Entry `i` is the earliest entry whose name matches. */
  ghost predicate FirstMatchAt(suggestions: seq<Suggestion>, city: string, i: int) {
    0 <= i < |suggestions| && NameMatches(suggestions[i], city) &&
    forall j :: 0 <= j < i ==> !NameMatches(suggestions[j], city)
  }

  /** `suggestions.find(s => s.name.toLowerCase() === city.toLowerCase())`. */
  function FindByName(suggestions: seq<Suggestion>, city: string): (r: Option<Suggestion>)
    ensures r.None? <==> forall i :: 0 <= i < |suggestions| ==> !NameMatches(suggestions[i], city)
    ensures r.Some? ==> exists i :: FirstMatchAt(suggestions, city, i) && suggestions[i] == r.value
  {
    if suggestions == [] then
      None
    else if NameMatches(suggestions[0], city) then
      Some(suggestions[0])
    else
      var r := FindByName(suggestions[1..], city);
      assert r.Some? ==> exists i :: FirstMatchAt(suggestions, city, i) && suggestions[i] == r.value by {
        if r.Some? {
          var i :| FirstMatchAt(suggestions[1..], city, i) && suggestions[1..][i] == r.value;
          assert FirstMatchAt(suggestions, city, i + 1);
        }
      }
      r
  }

  /** The first matching suggestion is picked even when later entries also match (two "Paris" entries, say). */
  lemma {:induction false} FindPicksFirst(suggestions: seq<Suggestion>, city: string, i: int)
    requires FirstMatchAt(suggestions, city, i)
    ensures FindByName(suggestions, city) == Some(suggestions[i])
  {
    if i > 0 {
      FindPicksFirst(suggestions[1..], city, i - 1);
    }
  }

  /** The lookup sees the typed text only up to case: texts equal ignoring case find the same suggestion. */
  lemma {:induction false} FindIgnoresCase(suggestions: seq<Suggestion>, a: string, b: string)
    requires EqualsIgnoringCase(a, b)
    ensures FindByName(suggestions, a) == FindByName(suggestions, b)
  {
    if suggestions != [] {
      FindIgnoresCase(suggestions[1..], a, b);
    }
  }

  /** A suggestion is found by its own name, in any case, unless an earlier entry matches first. */
  lemma FindsOwnName(suggestions: seq<Suggestion>, i: int, typed: string)
    requires 0 <= i < |suggestions| && EqualsIgnoringCase(typed, suggestions[i].name)
    ensures FindByName(suggestions, typed).Some?
    ensures NameMatches(FindByName(suggestions, typed).value, typed)
  {
    assert NameMatches(suggestions[i], typed);
  }
}
