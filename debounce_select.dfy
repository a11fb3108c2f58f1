/**
 * `DebounceSelect`: a remote-search select. Every lookup takes the next value
 * of a counter as its id; a result is shown only when its id is still the
 * counter's value, so a slow answer to an older query never replaces the
 * answer to the latest one. The debounce timer in front of the lookups is
 * not part of this model.
 */
module DebounceSelect {

  datatype SelectOption = SelectOption(value: string, caption: string)

  /** The component's state: the counter `fetchRef`, the shown `options` and the `fetching` flag. */
  datatype LookupState = LookupState(fetchRef: nat, options: seq<SelectOption>, fetching: bool)

  const Initial := LookupState(0, [], false)

  /** What can happen to the component: a lookup starts, or the lookup with an id fulfils or rejects. */
  datatype Event = Search | Resolved(id: nat, result: seq<SelectOption>) | Rejected(id: nat)

  function Step(s: LookupState, e: Event): LookupState
  {
    match e
    case Search => LookupState(s.fetchRef + 1, [], true)
    case Resolved(id, result) =>
      if id != s.fetchRef then s else s.(options := result, fetching := false)
    case Rejected(_) => s
  }

  /** The state after the events, in order. */
  function Run(s: LookupState, events: seq<Event>): LookupState
    decreases |events|
  {
    if events == [] then s else Step(Run(s, events[..|events| - 1]), events[|events| - 1])
  }

  /** How many lookups the events start. */
  function Searches(events: seq<Event>): nat
    decreases |events|
  {
    if events == [] then 0
    else Searches(events[..|events| - 1]) + (if events[|events| - 1].Search? then 1 else 0)
  }

  /**
   * From the initial state, whatever order results arrive in: the counter
   * is the number of lookups started, so each lookup had a fresh id; while a
   * lookup is pending the list is empty; and a non-empty list, or a finished
   * lookup, is the result delivered for the latest lookup after that lookup
   * started.
   */
  lemma {:induction false} OnlyLatestResultShown(events: seq<Event>)
    ensures Run(Initial, events).fetchRef == Searches(events)
    ensures Run(Initial, events).fetching ==> Run(Initial, events).options == []
    ensures var s := Run(Initial, events);
            s.options != [] || (!s.fetching && s.fetchRef > 0) ==>
              exists k :: 0 <= k < |events| && events[k] == Resolved(s.fetchRef, s.options)
                          && Searches(events[..k]) == s.fetchRef
    decreases |events|
  {
    if events != [] {
      var n := |events|;
      var pre := events[..n - 1];
      OnlyLatestResultShown(pre);
      var p := Run(Initial, pre);
      var s := Run(Initial, events);
      assert s == Step(p, events[n - 1]);
      if s == p && (s.options != [] || (!s.fetching && s.fetchRef > 0)) {
        var k :| 0 <= k < |pre| && pre[k] == Resolved(p.fetchRef, p.options)
                 && Searches(pre[..k]) == p.fetchRef;
        assert events[..k] == pre[..k];
        assert events[k] == pre[k];
      }
    }
  }

  /**
   * Rejections (which have no handler) and stale results (whose id is not
   * the counter's value) change nothing, however many arrive and in
   * whatever order, as long as no lookup starts and the current lookup is
   * not answered.
   */
  lemma {:induction false} UnansweredEventsChangeNothing(s: LookupState, later: seq<Event>)
    requires forall e :: e in later ==> !e.Search? && !(e.Resolved? && e.id == s.fetchRef)
    ensures Run(s, later) == s
    decreases |later|
  {
    if later != [] {
      var pre := later[..|later| - 1];
      assert forall e :: e in pre ==> e in later;
      UnansweredEventsChangeNothing(s, pre);
      assert later[|later| - 1] in later;
    }
  }

  /**
   * Once a lookup starts, the list stays empty and `fetching` stays set
   * until that lookup's own result arrives: a rejection of it, or any
   * number of older results, leave the loading state on.
   */
  lemma {:induction false} LatestLookupPendingUntilAnswered(s: LookupState, later: seq<Event>)
    requires forall e :: e in later ==> !e.Search? && !(e.Resolved? && e.id == s.fetchRef + 1)
    ensures Run(Step(s, Search), later) == LookupState(s.fetchRef + 1, [], true)
  {
    UnansweredEventsChangeNothing(Step(s, Search), later);
  }

  /** Two lookups in flight: whichever answer arrives first, the second lookup's answer is shown. */
  lemma RaceShowsSecondAnswer(s: LookupState, first: seq<SelectOption>, second: seq<SelectOption>)
    ensures var n := s.fetchRef;
            var started := Step(Step(s, Search), Search);
            Step(Step(started, Resolved(n + 1, first)), Resolved(n + 2, second))
            == Step(Step(started, Resolved(n + 2, second)), Resolved(n + 1, first))
            == LookupState(n + 2, second, false)
  {
  }

  /** The component, with its three state fields updated in place. */
  class DebouncedSelect {
    var fetching: bool
    var options: seq<SelectOption>
    var fetchRef: nat

    function State(): LookupState
      reads this
    {
      LookupState(fetchRef, options, fetching)
    }

    constructor ()
      ensures State() == Initial
    {
      fetching := false;
      options := [];
      fetchRef := 0;
    }

    /** `loadOptions`: takes a fresh id, empties the list and raises `fetching` before the lookup starts. */
    method LoadOptions() returns (fetchId: nat)
      modifies this
      ensures fetchId == old(fetchRef) + 1 == fetchRef
      ensures State() == Step(old(State()), Search)
    {
      fetchRef := fetchRef + 1;
      fetchId := fetchRef;
      options := [];
      fetching := true;
    }

    /** The lookup's `then` handler. */
    method OnLookupResult(fetchId: nat, newOptions: seq<SelectOption>)
      modifies this
      ensures State() == Step(old(State()), Resolved(fetchId, newOptions))
    {
      if fetchId != fetchRef {
        return;
      }
      options := newOptions;
      fetching := false;
    }
  }
}
