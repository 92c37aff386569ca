/** The `SearchInput` component: an input whose changes are reported at
    once through `onChange` and, after a quiet interval, through the
    optional `onSearch`. The debounce timer is one slot holding the value
    it will search; the callbacks the component makes are recorded in
    order. */
module SearchInput {
  import opened Wrappers

  /** One call the component makes to its parent. */
  datatype Callback = OnChange(value: string) | OnSearch(value: string)

  /** The component's own state: the pending debounce timer and every
      callback made so far. */
  datatype Input = Input(pending: Option<string>, calls: seq<Callback>)

  /** `handleChange`: reports the new value at once, drops the pending
      timer and, when `onSearch` is given, schedules a search of the new
      value. */
  function HandleChange(s: Input, hasOnSearch: bool, newValue: string): (r: Input)
    ensures r.calls == s.calls + [OnChange(newValue)]
    ensures r.pending == if hasOnSearch then Some(newValue) else None
  {
    Input(if hasOnSearch then Some(newValue) else None, s.calls + [OnChange(newValue)])
  }

  /** `handleClear`: reports "" through `onChange` and then, when given,
      through `onSearch`, both at once. The pending timer is left as it is. */
  function HandleClear(s: Input, hasOnSearch: bool): (r: Input)
    ensures r.pending == s.pending
    ensures r.calls == s.calls + [OnChange("")] + (if hasOnSearch then [OnSearch("")] else [])
  {
    s.(calls := s.calls + [OnChange("")] + (if hasOnSearch then [OnSearch("")] else []))
  }

  /** The debounce timer fires and searches the value it was set with. */
  function FireTimer(s: Input): (r: Input)
    ensures r.pending.None?
    ensures r.calls == s.calls + (if s.pending.Some? then [OnSearch(s.pending.value)] else [])
  {
    match s.pending
    case None => s
    case Some(v) => Input(None, s.calls + [OnSearch(v)])
  }

  /** The unmount cleanup drops the pending timer. */
  function Unmount(s: Input): (r: Input)
    ensures r == s.(pending := None)
  {
    s.(pending := None)
  }

  /** A burst of typing: one change per value, in order. */
  function Typed(s: Input, hasOnSearch: bool, values: seq<string>): Input
    decreases |values|
  {
    if values == [] then s else Typed(HandleChange(s, hasOnSearch, values[0]), hasOnSearch, values[1..])
  }

  /** Every typed value is reported through `onChange` in order, and the
      only pending timer afterwards is the one for the last value. */
  lemma {:induction false} TypedReports(s: Input, hasOnSearch: bool, values: seq<string>)
    requires values != []
    ensures var r := Typed(s, hasOnSearch, values);
      |r.calls| == |s.calls| + |values|
      && r.calls[..|s.calls|] == s.calls
      && (forall i | 0 <= i < |values| :: r.calls[|s.calls| + i] == OnChange(values[i]))
      && r.pending == if hasOnSearch then Some(values[|values| - 1]) else None
    decreases |values|
  {
    var s1 := HandleChange(s, hasOnSearch, values[0]);
    if |values| > 1 {
      TypedReports(s1, hasOnSearch, values[1..]);
      var r := Typed(s1, hasOnSearch, values[1..]);
      assert r.calls[..|s.calls|] == r.calls[..|s1.calls|][..|s.calls|];
      forall i | 0 <= i < |values|
        ensures r.calls[|s.calls| + i] == OnChange(values[i])
      {
        if i > 0 {
          assert r.calls[|s1.calls| + (i - 1)] == OnChange(values[1..][i - 1]);
        } else {
          assert r.calls[|s.calls|] == r.calls[..|s1.calls|][|s.calls|];
        }
      }
    }
  }

  /** Debounce: when the timer fires after a burst of typing, `onSearch`
      is called once, with the last value, provided `onSearch` is given. */
  lemma BurstSearchesLast(s: Input, hasOnSearch: bool, values: seq<string>)
    requires values != []
    ensures var typed := Typed(s, hasOnSearch, values); var r := FireTimer(typed);
      r.calls == typed.calls + (if hasOnSearch then [OnSearch(values[|values| - 1])] else [])
      && r.pending.None?
  {
    TypedReports(s, hasOnSearch, values);
  }

  /** Clearing does not cancel the search scheduled by the change before
      it: once that timer fires, `onSearch` receives the text typed before
      the clear, after the immediate `onSearch("")`. */
  lemma ClearKeepsPendingSearch(s: Input, typed: string)
    ensures var r := FireTimer(HandleClear(HandleChange(s, true, typed), true));
      r.calls == s.calls + [OnChange(typed), OnChange(""), OnSearch(""), OnSearch(typed)]
  {
  }

  // ---------------------------------------------------------------------
  // What is shown

  /** The clear button is shown when there is a value and nothing is loading. */
  predicate ShowClearButton(value: string, loading: bool)
  {
    value != "" && !loading
  }

  /** The spacer takes the button's place when the value is empty. */
  predicate ShowSpacer(value: string)
  {
    value == ""
  }

  /** The input is disabled while loading. */
  predicate Disabled(loading: bool)
  {
    loading
  }

  /** The button and the spacer are never both shown, and while not loading
      exactly one of them is. */
  lemma ButtonOrSpacer(value: string, loading: bool)
    ensures !(ShowClearButton(value, loading) && ShowSpacer(value))
    ensures !loading ==> (ShowClearButton(value, loading) || ShowSpacer(value))
    ensures Disabled(loading) ==> !ShowClearButton(value, loading)
  {
  }
}

/** The component as an object: the timer slot and the record of calls
    are fields its handlers update, each as the corresponding transition
    of `SearchInput`. */
module SearchInputComponent {
  import opened Wrappers
  import SearchInput

  class SearchInputBox {
    const hasOnSearch: bool
    var pending: Option<string>
    var calls: seq<SearchInput.Callback>

    function Model(): SearchInput.Input
      reads this
    {
      SearchInput.Input(pending, calls)
    }

    constructor(hasOnSearch: bool)
      ensures this.hasOnSearch == hasOnSearch && Model() == SearchInput.Input(None, [])
    {
      this.hasOnSearch := hasOnSearch;
      pending := None;
      calls := [];
    }

    method HandleChange(newValue: string)
      modifies this
      ensures Model() == SearchInput.HandleChange(old(Model()), hasOnSearch, newValue)
    {
      calls := calls + [SearchInput.OnChange(newValue)];
      pending := None;
      if hasOnSearch {
        pending := Some(newValue);
      }
    }

    method HandleClear()
      modifies this
      ensures Model() == SearchInput.HandleClear(old(Model()), hasOnSearch)
    {
      calls := calls + [SearchInput.OnChange("")];
      if hasOnSearch {
        calls := calls + [SearchInput.OnSearch("")];
      }
    }

    method FireTimer()
      modifies this
      ensures Model() == SearchInput.FireTimer(old(Model()))
    {
      if pending.Some? {
        calls := calls + [SearchInput.OnSearch(pending.value)];
        pending := None;
      }
    }

    method Unmount()
      modifies this
      ensures Model() == SearchInput.Unmount(old(Model()))
    {
      pending := None;
    }
  }
}
