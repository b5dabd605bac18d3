/**
 * The list page, components/scenario-list.tsx: case-insensitive search over
 * the scenarios, the position of the selection in the filtered list, and
 * the selection handlers (next, previous, random, select, clear).
 */
module ScenarioList {
  import opened Types
  import opened Js

  /** Some line's lower-cased text contains `lowerQuery` (`conversation.some(...)`). */
  predicate SomeLineMatches(conversation: seq<Conversation>, lowerQuery: string)
  {
    exists k :: 0 <= k < |conversation| && Includes(Lower(conversation[k].text), lowerQuery)
  }

  /** The filter's test for one entry: id, summary or some line contains the query. */
  predicate Matches(entry: Entry, query: string)
  {
    var lowerQuery := Lower(query);
    Includes(Lower(entry.0), lowerQuery) ||
    Includes(Lower(entry.1.summary), lowerQuery) ||
    SomeLineMatches(entry.1.conversation, lowerQuery)
  }

  /**
   * `filteredScenarios`: the entries that match, in their order. The
   * result keeps exactly the matching entries, as a subsequence, and keeps
   * ids distinct.
   */
  function Filtered(data: ScenariosData, query: string): (r: ScenariosData)
    ensures forall e :: e in r <==> e in data && Matches(e, query)
    ensures Subsequence(r, data)
    ensures DistinctIds(data) ==> DistinctIds(r)
    ensures |r| <= |data|
  {
    if data == [] then []
    else
      var rest := Filtered(data[1..], query);
      assert data == [data[0]] + data[1..];
      if Matches(data[0], query) then
        assert ([data[0]] + rest)[1..] == rest;
        assert DistinctIds(data) ==> forall e :: e in rest ==> e.0 != data[0].0;
        [data[0]] + rest
      else
        SubsequenceOfTail(rest, data);
        rest
  }

  /** Every entry matches the empty query. */
  lemma EmptyQueryMatches(e: Entry)
    ensures Matches(e, "")
  {
    assert Lower("") == "";
    IncludesEmpty(Lower(e.0));
  }

  /** An empty search shows every scenario, in order. */
  lemma {:induction false} EmptyQueryKeepsAll(data: ScenariosData)
    ensures Filtered(data, "") == data
  {
    if data != [] {
      EmptyQueryMatches(data[0]);
      EmptyQueryKeepsAll(data[1..]);
    }
  }

  /** The search ignores ASCII case: a query and its lower-cased form filter alike. */
  lemma {:induction false} QueryCaseIgnored(data: ScenariosData, query: string)
    ensures Filtered(data, Lower(query)) == Filtered(data, query)
  {
    LowerIdempotent(query);
    if data != [] {
      QueryCaseIgnored(data[1..], query);
    }
  }

  /** `findIndex(([id]) => id === target)`: the first position with that id, or -1. */
  function FindIndex(list: ScenariosData, target: string): (r: int)
    ensures -1 <= r < |list|
    ensures r == -1 <==> forall i :: 0 <= i < |list| ==> list[i].0 != target
    ensures r >= 0 ==> list[r].0 == target && forall i :: 0 <= i < r ==> list[i].0 != target
  {
    if list == [] then -1
    else if list[0].0 == target then 0
    else
      var r := FindIndex(list[1..], target);
      assert forall i :: 1 <= i < |list| ==> list[i] == list[1..][i - 1];
      if r == -1 then -1 else r + 1
  }

  /** `getCurrentScenarioIndex`: -1 without a (truthy) selection. */
  function CurrentIndex(list: ScenariosData, selected: Option<string>): (r: int)
    ensures -1 <= r < |list|
    ensures r >= 0 ==> selected.Some? && list[r].0 == selected.value
    ensures r == -1 <==> !Truthy(selected) || forall i :: 0 <= i < |list| ==> list[i].0 != selected.value
  {
    if !Truthy(selected) then -1 else FindIndex(list, selected.value)
  }

  /** `hasNext`: the selection is listed and some entry follows it. */
  function HasNext(list: ScenariosData, selected: Option<string>): (b: bool)
    ensures b ==> 0 <= CurrentIndex(list, selected) < |list| - 1
    ensures b ==> Truthy(selected) && selected.value == list[CurrentIndex(list, selected)].0
  {
    var i := CurrentIndex(list, selected);
    i < |list| - 1 && i != -1
  }

  /** `hasPrevious`: the selection is listed and some entry precedes it. */
  function HasPrevious(list: ScenariosData, selected: Option<string>): (b: bool)
    ensures b ==> 1 <= CurrentIndex(list, selected) < |list|
    ensures b ==> Truthy(selected) && selected.value == list[CurrentIndex(list, selected)].0
  {
    CurrentIndex(list, selected) > 0
  }

  /** `hasNext` holds iff the selection is listed and is not the last entry. */
  lemma HasNextIff(list: ScenariosData, selected: Option<string>)
    ensures HasNext(list, selected) <==>
      Truthy(selected) && exists i :: 0 <= i < |list| - 1 && list[i].0 == selected.value
  {
    if Truthy(selected) && exists i :: 0 <= i < |list| - 1 && list[i].0 == selected.value {
      var i :| 0 <= i < |list| - 1 && list[i].0 == selected.value;
      assert FindIndex(list, selected.value) <= i;
    }
  }

  /** `hasPrevious` holds iff the selection is listed, and not first. */
  lemma HasPreviousIff(list: ScenariosData, selected: Option<string>)
    requires DistinctIds(list)
    ensures HasPrevious(list, selected) <==>
      Truthy(selected) && exists i :: 0 < i < |list| && list[i].0 == selected.value
  {
    if Truthy(selected) && exists i :: 0 < i < |list| && list[i].0 == selected.value {
      var i :| 0 < i < |list| && list[i].0 == selected.value;
      assert FindIndex(list, selected.value) == i;
    }
  }

  /**
   * With distinct ids, `navigateToNext` while `hasNext` moves to another
   * id, which (unless it is "") then sits one position further on.
   */
  lemma NextIsAnotherEntry(list: ScenariosData, selected: Option<string>)
    requires DistinctIds(list) && HasNext(list, selected)
    ensures var i := CurrentIndex(list, selected);
      list[i + 1].0 != selected.value &&
      (list[i + 1].0 != "" ==> CurrentIndex(list, Some(list[i + 1].0)) == i + 1)
  {
    var i := CurrentIndex(list, selected);
    assert list[i + 1].0 != "" ==> FindIndex(list, list[i + 1].0) == i + 1;
  }

  /**
   * With distinct ids, `navigateToPrevious` while `hasPrevious` moves to
   * another id, which (unless it is "") then sits one position earlier.
   */
  lemma PreviousIsAnotherEntry(list: ScenariosData, selected: Option<string>)
    requires DistinctIds(list) && HasPrevious(list, selected)
    ensures var i := CurrentIndex(list, selected);
      list[i - 1].0 != selected.value &&
      (list[i - 1].0 != "" ==> CurrentIndex(list, Some(list[i - 1].0)) == i - 1)
  {
    var i := CurrentIndex(list, selected);
    assert list[i - 1].0 != "" ==> FindIndex(list, list[i - 1].0) == i - 1;
  }

  /**
   * Next then previous comes back, when ids are distinct and the next id
   * is not the empty string (a selection of "" is falsy and has no position).
   */
  lemma NextThenPrevious(list: ScenariosData, selected: Option<string>)
    requires DistinctIds(list) && HasNext(list, selected)
    ensures var next := Some(list[CurrentIndex(list, selected) + 1].0);
      next.value != "" ==>
        HasPrevious(list, next) && list[CurrentIndex(list, next) - 1].0 == selected.value
  {
    var i := CurrentIndex(list, selected);
    assert list[i + 1].0 != "" ==> CurrentIndex(list, Some(list[i + 1].0)) == i + 1;
  }

  class ListView {
    const scenarios: ScenariosData
    var selectedScenario: Option<string>
    var searchQuery: string

    constructor (scenarios: ScenariosData)
      ensures this.scenarios == scenarios
      ensures selectedScenario == None && searchQuery == ""
    {
      this.scenarios := scenarios;
      selectedScenario := None;
      searchQuery := "";
    }

    /** The filtered list as rendered now. */
    function Visible(): (r: ScenariosData)
      reads this
      ensures forall e :: e in r <==> e in scenarios && Matches(e, searchQuery)
    {
      Filtered(scenarios, searchQuery)
    }

    /** The search box's `onChange`. */
    method SetSearchQuery(query: string)
      modifies this`searchQuery
      ensures searchQuery == query
    {
      searchQuery := query;
    }

    /** `handleScenarioSelect(id)`. */
    method HandleScenarioSelect(id: string)
      modifies this`selectedScenario
      ensures selectedScenario == Some(id)
    {
      selectedScenario := Some(id);
    }

    /** `clearSelection`. */
    method ClearSelection()
      modifies this`selectedScenario
      ensures selectedScenario == None
    {
      selectedScenario := None;
    }

    /**
     * `navigateToNext`: with `hasNext`, the next listed entry; a truthy
     * selection that is not listed jumps to the first entry; otherwise
     * nothing changes.
     */
    method NavigateToNext()
      modifies this`selectedScenario
      ensures var list := Visible(); var sel := old(selectedScenario);
        if HasNext(list, sel) then
          selectedScenario == Some(list[CurrentIndex(list, sel) + 1].0)
        else if Truthy(sel) && CurrentIndex(list, sel) == -1 && |list| > 0 then
          selectedScenario == Some(list[0].0)
        else
          selectedScenario == sel
    {
      if !Truthy(selectedScenario) {
        return;
      }
      var list := Visible();
      var currentIndex := FindIndex(list, selectedScenario.value);
      if currentIndex < |list| - 1 {
        selectedScenario := Some(list[currentIndex + 1].0);
      }
    }

    /** `navigateToPrevious`: with `hasPrevious`, the entry before; otherwise nothing changes. */
    method NavigateToPrevious()
      modifies this`selectedScenario
      ensures var list := Visible(); var sel := old(selectedScenario);
        if HasPrevious(list, sel) then
          selectedScenario == Some(list[CurrentIndex(list, sel) - 1].0)
        else
          selectedScenario == sel
    {
      if !Truthy(selectedScenario) {
        return;
      }
      var list := Visible();
      var currentIndex := FindIndex(list, selectedScenario.value);
      if currentIndex > 0 {
        selectedScenario := Some(list[currentIndex - 1].0);
      }
    }

    /**
     * `navigateToRandom`, with `pick` the index the do-while loop settles
     * on: a position of the list other than the current one whenever the
     * list has two entries or more. An empty list changes nothing, and a
     * one-entry list selects that entry.
     */
    method NavigateToRandom(pick: nat)
      requires |Visible()| > 1 ==> pick < |Visible()| && pick != CurrentIndex(Visible(), selectedScenario)
      modifies this`selectedScenario
      ensures var list := Visible();
        if |list| == 0 then selectedScenario == old(selectedScenario)
        else if |list| == 1 then selectedScenario == Some(list[0].0)
        else selectedScenario == Some(list[pick].0)
      ensures var list := Visible();
        |list| > 1 && DistinctIds(scenarios) && old(selectedScenario) != Some("") ==>
          selectedScenario != old(selectedScenario)
    {
      var list := Visible();
      if |list| == 0 {
        return;
      }
      if |list| == 1 {
        selectedScenario := Some(list[0].0);
        return;
      }
      var currentIndex := -1;
      if Truthy(selectedScenario) {
        currentIndex := FindIndex(list, selectedScenario.value);
      }
      assert DistinctIds(scenarios) ==> DistinctIds(list);
      assert currentIndex == CurrentIndex(list, selectedScenario);
      selectedScenario := Some(list[pick].0);
    }
  }
}
