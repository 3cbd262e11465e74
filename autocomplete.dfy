/** The match rule of the reusable autocomplete widget: the typed text is
    trimmed and lower-cased, and the first ten airports whose IATA code,
    ICAO code, name or city contains it (ignoring case) are suggested. */
module Autocomplete {
  import opened Base
  import opened Text
  import opened Sequences
  import opened Airports

  const MaxSuggestions: nat := 10

  /** `a.field?.toLowerCase().includes(query)`: a missing field never matches. */
  predicate FieldContains(field: Option<string>, query: string) {
    field.Some? && Contains(Lower(field.value), query)
  }

  /** The filter callback of the input handler. */
  predicate Matches(a: Airport, query: string) {
    FieldContains(a.iata, query) || FieldContains(a.icao, query) ||
    FieldContains(a.name, query) || FieldContains(a.city, query)
  }

  /** The airports offered for the typed text `input`. */
  function Suggestions(airports: seq<Airport>, input: string): (r: seq<Airport>)
    ensures Normalize(input) == [] ==> r == []
    ensures |r| <= MaxSuggestions
    ensures forall i :: 0 <= i < |r| ==> r[i] in airports && Matches(r[i], Normalize(input))
  {
    var query := Normalize(input);
    if query == [] then []
    else Take(Filter(airports, a => Matches(a, query)), MaxSuggestions)
  }

  /** The suggestions are exactly the matching airports of a prefix of the
      list, in list order, and that prefix is the whole list unless ten
      matches were already found: no match is skipped before the cut-off. */
  lemma SuggestionsAreFirstMatches(airports: seq<Airport>, input: string) returns (k: nat)
    requires Normalize(input) != []
    ensures k <= |airports|
    ensures Suggestions(airports, input) == Filter(airports[..k], a => Matches(a, Normalize(input)))
    ensures k < |airports| ==> |Suggestions(airports, input)| == MaxSuggestions
  {
    var query := Normalize(input);
    k := FirstMatches(airports, a => Matches(a, query), MaxSuggestions);
  }

  /** When fewer than ten airports match, every matching airport is offered. */
  lemma FewMatchesAllOffered(airports: seq<Airport>, input: string, j: nat)
    requires Normalize(input) != []
    requires |Filter(airports, a => Matches(a, Normalize(input)))| < MaxSuggestions
    requires j < |airports| && Matches(airports[j], Normalize(input))
    ensures airports[j] in Suggestions(airports, input)
  {
  }

  /** Typing the same text in another letter case gives the same suggestions. */
  lemma SuggestionsIgnoreCase(airports: seq<Airport>, s: string, t: string)
    requires Lower(s) == Lower(t)
    ensures Suggestions(airports, s) == Suggestions(airports, t)
  {
    NormalizeIgnoresCase(s, t);
  }

  /** Whitespace around the typed text does not change the suggestions. */
  lemma SuggestionsIgnorePadding(airports: seq<Airport>, before: string, s: string, after: string)
    requires AllSpace(before) && AllSpace(after)
    ensures Suggestions(airports, before + s + after) == Suggestions(airports, s)
  {
    NormalizeIgnoresPadding(before, s, after);
  }
}
