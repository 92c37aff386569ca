/** The `SearchResults` component as a pure function of its props: which
    of its five views it renders, what the list view holds, the count
    label, and how a card's title is cut at " - ". */
module SearchResults {
  import opened Wrappers
  import opened Text
  import opened SearchTypes

  /** The separator a card title is cut at. */
  const TitleSeparator: string := " - "

  /** The label for exactly one result. */
  const OneResult: string := "1 результат"

  /** What follows the number in every other label. */
  const ManyResultsSuffix: string := " результатов"

  /** Text passed through `highlightText`: returned as it is for a blank
      query, otherwise cut into marked and unmarked parts by the
      case-insensitive pattern of the query (that cutting is not modelled). */
  datatype Highlighted = Plain(text: string) | Marked(text: string, query: string)

  /** One result card: its React key, the highlighted head of the title,
      the highlighted rest of the title when there is a separator, the
      highlighted body, and the id and user id it shows. */
  datatype Card = Card(key: int, head: Highlighted, tail: Option<Highlighted>, body: Highlighted, id: int, userId: int)

  /** The five things the component can render. */
  datatype View =
    | ErrorView(message: string)
    | LoadingView
    | NothingView
    | EmptyView(query: string)
    | ListView(total: nat, countLabel: Option<string>, query: string, cards: seq<Card>)

  /** `highlightText(text, query)`: unchanged text for a blank query. */
  function Highlight(text: string, query: string): (h: Highlighted)
    ensures h.text == text
    ensures h.Plain? <==> Trim(query) == []
    ensures h.Marked? ==> h.query == query
  {
    if Trim(query) == [] then Plain(text) else Marked(text, query)
  }

  /** The count label next to the heading: shown only for a positive
      total, "1 результат" for one, and the number followed by
      " результатов" otherwise. */
  function CountLabel(total: nat): (l: Option<string>)
    ensures l.Some? <==> total > 0
  {
    if total == 0 then None
    else if total == 1 then Some(OneResult)
    else Some(NatToString(total) + ManyResultsSuffix)
  }

  /** The singular label is used exactly for a total of one; every other
      label starts with the decimal digits of the total and ends with the
      plural suffix. */
  lemma CountLabelReadsTotal(total: nat)
    requires total > 0
    ensures CountLabel(total) == Some(OneResult) <==> total == 1
    ensures total != 1 ==>
      var l := CountLabel(total).value;
      var digits := l[..|l| - |ManyResultsSuffix|];
      |l| > |ManyResultsSuffix| && l[|l| - |ManyResultsSuffix|..] == ManyResultsSuffix
      && IsDigits(digits) && DecimalValue(digits) == total
  {
    if total != 1 {
      var n := NatToString(total);
      var l := n + ManyResultsSuffix;
      assert |OneResult| == 11 && |ManyResultsSuffix| == 12;
      assert l[..|l| - |ManyResultsSuffix|] == n;
      assert l[|l| - |ManyResultsSuffix|..] == ManyResultsSuffix;
      DecimalRoundTrip(total);
    }
  }

  /** The head of a card title: the text before the first " - ", or the
      whole title when that text is empty. */
  function TitleHead(title: string): (head: string)
    ensures !Contains(title, TitleSeparator) ==> head == title
    ensures forall i | FirstOccurrence(title, TitleSeparator, i) ::
      head == if i == 0 then title else title[..i]
  {
    var first := Split(title, TitleSeparator)[0];
    SplitFirst(title, TitleSeparator);
    if first == "" then title else first
  }

  /** The rest of a card title, shown only when it contains " - ": every
      piece after the first, joined again by " - ", which is the text after
      the first separator. */
  function TitleTail(title: string): (tail: Option<string>)
    ensures tail.Some? <==> Contains(title, TitleSeparator)
    ensures forall i | FirstOccurrence(title, TitleSeparator, i) ::
      tail == Some(title[i + |TitleSeparator|..])
  {
    SplitTail(title, TitleSeparator);
    if Contains(title, TitleSeparator) then Some(Join(Split(title, TitleSeparator)[1..], TitleSeparator)) else None
  }

  /** Without a separator the card shows the whole title and no tail. */
  lemma TitleWithoutSeparator(title: string)
    requires !Contains(title, TitleSeparator)
    ensures TitleHead(title) == title && TitleTail(title).None?
  {
    SplitFirst(title, TitleSeparator);
  }

  /** With a separator that does not open the title, head, separator and
      tail put back together give the title; the head is the text before
      the first separator and holds none. */
  lemma TitleRoundTrip(title: string)
    requires Contains(title, TitleSeparator) && !OccursAt(title, TitleSeparator, 0)
    ensures TitleTail(title).Some?
    ensures TitleHead(title) + TitleSeparator + TitleTail(title).value == title
    ensures !Contains(TitleHead(title), TitleSeparator)
  {
    SplitRejoin(title, TitleSeparator);
    SplitHead(title, TitleSeparator);
  }

  /** A title that opens with the separator keeps its whole text as head. */
  lemma TitleOpensWithSeparator(title: string)
    requires OccursAt(title, TitleSeparator, 0)
    ensures TitleHead(title) == title && TitleTail(title).Some?
  {
    assert Contains(title, TitleSeparator);
    assert FindFrom(title, TitleSeparator, 0) == Some(0);
  }

  /** The card of one result. */
  function CardFor(result: SearchResult, query: string): (c: Card)
    ensures c.key == result.id && c.id == result.id && c.userId == result.userId
    ensures c.head.text == TitleHead(result.title) && c.body.text == result.body
    ensures c.tail.Some? <==> Contains(result.title, TitleSeparator)
    ensures c.tail.Some? ==> c.tail.value.text == TitleTail(result.title).value
    ensures Trim(query) == [] ==> c.head.Plain? && c.body.Plain? && (c.tail.Some? ==> c.tail.value.Plain?)
    ensures Trim(query) != [] ==>
      && c.head.Marked? && c.head.query == query && c.body.Marked? && c.body.query == query
      && (c.tail.Some? ==> c.tail.value.Marked? && c.tail.value.query == query)
  {
    var tail := TitleTail(result.title);
    Card(result.id, Highlight(TitleHead(result.title), query),
         if tail.Some? then Some(Highlight(tail.value, query)) else None,
         Highlight(result.body, query), result.id, result.userId)
  }

  /** One card per result, in the order of the results. */
  function Cards(results: seq<SearchResult>, query: string): (cards: seq<Card>)
    ensures |cards| == |results|
    ensures forall i | 0 <= i < |results| :: cards[i] == CardFor(results[i], query)
  {
    seq(|results|, i requires 0 <= i < |results| => CardFor(results[i], query))
  }

  /** An `error` prop that JavaScript treats as true: present and not "". */
  predicate HasError(error: Option<string>)
  {
    error.Some? && error.value != ""
  }

  /** The view rendered for the given props, by the first guard that
      holds: error, loading, blank query, no results, else the list. */
  function SelectView(results: seq<SearchResult>, loading: bool, error: Option<string>, total: nat, query: string): (v: View)
    ensures v.ErrorView? <==> HasError(error)
    ensures v.LoadingView? <==> !HasError(error) && loading
    ensures v.NothingView? <==> !HasError(error) && !loading && Trim(query) == []
    ensures v.EmptyView? <==> !HasError(error) && !loading && Trim(query) != [] && results == []
    ensures v.ListView? <==> !HasError(error) && !loading && Trim(query) != [] && results != []
    ensures v.ErrorView? ==> v.message == error.value
    ensures v.EmptyView? ==> v.query == query
    ensures v.ListView? ==> v.total == total && v.countLabel == CountLabel(total) && v.query == query
    ensures v.ListView? ==> |v.cards| == |results| && forall i | 0 <= i < |results| :: v.cards[i].key == results[i].id
    ensures v.ListView? ==> v.cards == Cards(results, query)
  {
    if HasError(error) then ErrorView(error.value)
    else if loading then LoadingView
    else if Trim(query) == [] then NothingView
    else if |results| == 0 then EmptyView(query)
    else ListView(total, CountLabel(total), query, Cards(results, query))
  }

  /** The list view only appears for a query that is not blank, so every
      piece of text on its cards goes through the highlighting pattern. */
  lemma ListHighlights(results: seq<SearchResult>, loading: bool, error: Option<string>, total: nat, query: string)
    requires SelectView(results, loading, error, total, query).ListView?
    ensures var cards := SelectView(results, loading, error, total, query).cards;
      forall i | 0 <= i < |cards| :: cards[i].head.Marked? && cards[i].body.Marked?
        && (cards[i].tail.Some? ==> cards[i].tail.value.Marked?)
  {
  }
}
