/** The search dialog: the case-insensitive filter over the listing and the navigation taken
    when a result is selected. */
module SearchDialog {
  import opened Wrappers
  import Seqs
  import Text
  import opened CryptoService

  /** A token matches a non-empty query when the lower-cased query occurs in its lower-cased
      name, symbol or slug. */
  function Matches(query: string, t: Cryptocurrency): (r: bool)
    ensures r ==> query != ""
    ensures query != "" && Text.Includes(Text.Lower(t.slug), Text.Lower(query)) ==> r
  {
    query != "" &&
      var q := Text.Lower(query);
      Text.Includes(Text.Lower(t.name), q) || Text.Includes(Text.Lower(t.symbol), q) || Text.Includes(Text.Lower(t.slug), q)
  }

  /** The same condition, stated through positions at which the query occurs. */
  ghost predicate OccursInSomeField(query: string, t: Cryptocurrency) {
    var q := Text.Lower(query);
    (exists i :: Text.OccursAt(Text.Lower(t.name), q, i)) ||
    (exists i :: Text.OccursAt(Text.Lower(t.symbol), q, i)) ||
    (exists i :: Text.OccursAt(Text.Lower(t.slug), q, i))
  }

  lemma MatchesIffOccurs(query: string, t: Cryptocurrency)
    ensures Matches(query, t) <==> query != "" && OccursInSomeField(query, t)
  {
    var q := Text.Lower(query);
    Text.IncludesIffOccurs(Text.Lower(t.name), q);
    Text.IncludesIffOccurs(Text.Lower(t.symbol), q);
    Text.IncludesIffOccurs(Text.Lower(t.slug), q);
  }

  /** `filteredTokens`: the listing tokens matching the query, in listing order; nothing while
      the listing is undefined. */
  function FilteredTokens(listing: Option<seq<Cryptocurrency>>, query: string): (r: seq<Cryptocurrency>)
    ensures listing.None? ==> r == []
    ensures query == "" ==> r == []
    ensures listing.Some? ==> Seqs.IsSubsequence(r, listing.value)
    ensures listing.Some? ==> forall t :: multiset(r)[t] == if Matches(query, t) then multiset(listing.value)[t] else 0
    ensures forall t :: t in r <==> listing.Some? && t in listing.value && query != "" && OccursInSomeField(query, t)
  {
    match listing
    case None => []
    case Some(tokens) =>
      Seqs.FilterIsSubsequence(tokens, t => Matches(query, t));
      forall t { MatchesIffOccurs(query, t); }
      Seqs.Filter(tokens, t => Matches(query, t))
  }

  /** Queries that differ only in letter case select the same tokens in the same order. */
  lemma CaseInsensitive(listing: Option<seq<Cryptocurrency>>, q1: string, q2: string)
    requires Text.SameUpToCase(q1, q2)
    ensures FilteredTokens(listing, q1) == FilteredTokens(listing, q2)
  {
    Text.LowerEqualIffSameUpToCase(q1, q2);
    if listing.Some? {
      Seqs.FilterAgrees(listing.value, t => Matches(q1, t), t => Matches(q2, t));
    }
  }

  /** The dialog state after a selection: whether it is open, and where the router goes. */
  datatype Selection = Selection(open: bool, path: string)

  const TokenRoutePrefix: string := "/token/"

  /** `handleSelectToken`: close the dialog and navigate to the token's detail route. */
  function SelectToken(slug: string): (r: Selection)
    ensures !r.open
    ensures |r.path| == |TokenRoutePrefix| + |slug|
    ensures r.path[..|TokenRoutePrefix|] == TokenRoutePrefix && r.path[|TokenRoutePrefix|..] == slug
  {
    Selection(false, TokenRoutePrefix + slug)
  }
}
