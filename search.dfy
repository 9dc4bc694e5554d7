/** The search box shared by the user and course lists: no data gives an empty list, an
    empty query gives the data unchanged, and otherwise the list is filtered on the
    lower-cased query. */
module Search {
  import opened Wrappers
  import opened Text
  import opened Lists

  /** `value?.toLowerCase().includes(query)`: an absent field never matches. */
  predicate FieldMatches(value: Option<string>, query: string) {
    value.Some? && Contains(Lower(value.value), query)
  }

  /** `if (!data) return []; if (!searchQuery) return data; data.filter(...)`, where
      `matches` receives the lower-cased query. */
  function SearchList<T(!new)>(data: Option<seq<T>>, query: string, matches: (T, string) -> bool): (r: seq<T>)
    ensures data.None? ==> r == []
    ensures data.Some? && query == "" ==> r == data.value
    ensures data.Some? && query != "" ==> forall x :: x in r <==> x in data.value && matches(x, Lower(query))
    ensures data.Some? ==> IsSubsequence(r, data.value)
  {
    if data.None? then []
    else if query == "" then
      SubsequenceReflexive(data.value);
      data.value
    else
      var q := Lower(query);
      var keep := (x: T) => matches(x, q);
      FilterMembers(data.value, keep);
      FilterIsSubsequence(data.value, keep);
      Filter(data.value, keep)
  }

  /** The search is case-insensitive: queries that agree once lower-cased select the same
      items. */
  lemma SearchIgnoresCase<T(!new)>(data: Option<seq<T>>, q1: string, q2: string, matches: (T, string) -> bool)
    requires Lower(q1) == Lower(q2)
    ensures SearchList(data, q1, matches) == SearchList(data, q2, matches)
  {
    assert |q1| == |Lower(q1)|;
  }
}
