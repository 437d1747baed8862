/** The watchlist page: the listing restricted to watched slugs, and the view it chooses. */
module WatchlistPage {
  import opened Wrappers
  import Seqs
  import opened CryptoService

  /** `watchlistTokens`: the listing tokens whose slug is watched, in listing order. */
  function WatchlistTokens(listing: Option<seq<Cryptocurrency>>, watchlist: seq<string>): (r: seq<Cryptocurrency>)
    ensures listing.None? ==> r == []
    ensures forall t :: t in r ==> t.slug in watchlist
    ensures listing.Some? ==> forall t :: t in listing.value && t.slug in watchlist ==> t in r
    ensures listing.Some? ==> Seqs.IsSubsequence(r, listing.value)
    ensures listing.Some? ==> forall t :: multiset(r)[t] == if t.slug in watchlist then multiset(listing.value)[t] else 0
  {
    match listing
    case None => []
    case Some(tokens) =>
      Seqs.FilterIsSubsequence(tokens, (t: Cryptocurrency) => t.slug in watchlist);
      Seqs.Filter(tokens, (t: Cryptocurrency) => t.slug in watchlist)
  }

  /** Only membership matters: two watchlists holding the same slugs, in whatever order and with
      whatever repetitions, show the same tokens in the same (listing) order. */
  lemma WatchlistOrderIrrelevant(listing: Option<seq<Cryptocurrency>>, w1: seq<string>, w2: seq<string>)
    ensures (forall s :: s in w1 <==> s in w2) ==> WatchlistTokens(listing, w1) == WatchlistTokens(listing, w2)
  {
    if listing.Some? && forall s :: s in w1 <==> s in w2 {
      Seqs.FilterAgrees(listing.value, (t: Cryptocurrency) => t.slug in w1, (t: Cryptocurrency) => t.slug in w2);
    }
  }

  /** What the page renders. */
  datatype View = ErrorView | LoadingView | Grid(tokens: seq<Cryptocurrency>) | EmptyState

  /** The query as the page sees it. */
  datatype Query = Query(data: Option<seq<Cryptocurrency>>, isLoading: bool, hasError: bool)

  /** Error first, then loading, then the card grid when something is watched, else the empty message. */
  function ChooseView(query: Query, watchlist: seq<string>): (v: View)
    ensures v == ErrorView <==> query.hasError
    ensures v == LoadingView <==> !query.hasError && query.isLoading
    ensures v.Grid? <==> !query.hasError && !query.isLoading && WatchlistTokens(query.data, watchlist) != []
    ensures v.Grid? ==> v.tokens == WatchlistTokens(query.data, watchlist)
    ensures v.Grid? ==> forall t :: t in v.tokens <==> query.data.Some? && t in query.data.value && t.slug in watchlist
    ensures v == EmptyState ==> forall t :: query.data.Some? && t in query.data.value ==> t.slug !in watchlist
  {
    var tokens := WatchlistTokens(query.data, watchlist);
    if query.hasError then ErrorView
    else if query.isLoading then LoadingView
    else if |tokens| > 0 then Grid(tokens)
    else EmptyState
  }
}
