/** The watchlist store: an ordered list of token slugs held in memory and mirrored, in full,
    into the single persisted slot `cryptoWatchlist` after every change. */
module WatchlistStore {
  import opened Wrappers
  import Seqs

  type Slug = string

  /** The name of the persisted slot. */
  const StorageKey: string := "cryptoWatchlist"

  /** What the slot can hold: the empty string (falsy), a JSON array of slugs, or text that is not JSON. */
  datatype SlotValue = Blank | Json(slugs: seq<Slug>) | Malformed

  datatype LoadError = ParseError

  /** The in-memory list together with the slot it is mirrored into (None: nothing stored). */
  datatype Store = Store(list: seq<Slug>, slot: Option<SlotValue>)

  /** The initial load: a missing or empty stored value gives the empty list; a stored array is
      taken as it is; text that does not parse throws, since nothing catches the parse error. */
  function Load(stored: Option<SlotValue>): (r: Result<seq<Slug>, LoadError>)
    ensures r.Failure? <==> stored == Some(Malformed)
    ensures stored.None? || stored == Some(Blank) ==> r == Success([])
    ensures stored.Some? && stored.value.Json? ==> r == Success(stored.value.slugs)
  {
    match stored
    case None => Success([])
    case Some(Blank) => Success([])
    case Some(Json(slugs)) => Success(slugs)
    case Some(Malformed) => Failure(ParseError)
  }

  /** What a save writes: the whole list, serialised, so that a later load restores it. */
  function Save(list: seq<Slug>): (v: SlotValue)
    ensures Load(Some(v)) == Success(list)
  {
    Json(list)
  }

  /** `isInWatchlist`: `Array.prototype.includes` on the list. */
  function Contains(list: seq<Slug>, slug: Slug): (r: bool)
    ensures r <==> slug in list
    decreases |list|
  {
    |list| > 0 && (list[0] == slug || Contains(list[1..], slug))
  }

  /** `addToWatchlist`: append the slug unless it is already present. */
  function Add(list: seq<Slug>, slug: Slug): (r: seq<Slug>)
    ensures slug in r
    ensures forall s :: s in r <==> s in list || s == slug
    ensures |r| == if slug in list then |list| else |list| + 1
    ensures r[..|list|] == list
    ensures slug !in list ==> r[|list|] == slug
  {
    if Contains(list, slug) then list else list + [slug]
  }

  /** `removeFromWatchlist`: keep every entry that differs from the slug. */
  function Remove(list: seq<Slug>, slug: Slug): (r: seq<Slug>)
    ensures slug !in r
    ensures forall s :: s in r <==> s in list && s != slug
    ensures Seqs.IsSubsequence(r, list)
    ensures forall s :: multiset(r)[s] == if s == slug then 0 else multiset(list)[s]
  {
    Seqs.FilterIsSubsequence(list, item => item != slug);
    Seqs.Filter(list, item => item != slug)
  }

  /** Adding a slug that is already present changes nothing; so adding twice is adding once. */
  lemma AddIdempotent(list: seq<Slug>, slug: Slug)
    ensures slug in list ==> Add(list, slug) == list
    ensures Add(Add(list, slug), slug) == Add(list, slug)
  {
  }

  /** Removing a slug that is absent changes nothing. */
  lemma RemoveAbsent(list: seq<Slug>, slug: Slug)
    requires slug !in list
    ensures Remove(list, slug) == list
  {
    Seqs.FilterKeepsAll(list, item => item != slug);
  }

  /** Add and remove keep a duplicate-free list duplicate-free. */
  lemma OperationsKeepNoDuplicates(list: seq<Slug>, slug: Slug)
    requires Seqs.NoDuplicates(list)
    ensures Seqs.NoDuplicates(Add(list, slug))
    ensures Seqs.NoDuplicates(Remove(list, slug))
  {
    if slug !in list {
      Seqs.SnocNoDuplicates(list, slug);
    }
    Seqs.FilterNoDuplicates(list, item => item != slug);
  }

  /** The slot mirrors the in-memory list. */
  predicate Persisted(store: Store) {
    store.slot == Some(Save(store.list))
  }

  /** Mounting the provider: load the slot, then the save effect writes the loaded list back. */
  function Init(stored: Option<SlotValue>): (r: Result<Store, LoadError>)
    ensures r.Failure? <==> stored == Some(Malformed)
    ensures r.Success? ==> Persisted(r.value)
    ensures r.Success? && stored.Some? && stored.value.Json? ==> r.value.list == stored.value.slugs
    ensures r.Success? && (stored.None? || stored == Some(Blank)) ==> r.value.list == []
  {
    match Load(stored)
    case Success(list) => Success(Store(list, Some(Save(list))))
    case Failure(e) => Failure(e)
  }

  /** A user action on the watchlist. */
  datatype Action = AddSlug(slug: Slug) | RemoveSlug(slug: Slug)

  /** Apply one action to the current list and re-persist the result. */
  function Apply(store: Store, action: Action): (r: Store)
    ensures Persisted(r)
    ensures r.list == if action.AddSlug? then Add(store.list, action.slug) else Remove(store.list, action.slug)
    ensures action.AddSlug? ==> Contains(r.list, action.slug)
    ensures action.RemoveSlug? ==> !Contains(r.list, action.slug)
  {
    var list := match action
      case AddSlug(s) => Add(store.list, s)
      case RemoveSlug(s) => Remove(store.list, s);
    Store(list, Some(Save(list)))
  }

  /** Apply a sequence of actions in order. */
  function Replay(store: Store, actions: seq<Action>): Store
    decreases |actions|
  {
    if |actions| == 0 then store else Replay(Apply(store, actions[0]), actions[1..])
  }

  /** After any run of actions from a persisted store, the slot holds the current list, reloading
      it yields that same store, and a duplicate-free start stays duplicate-free. */
  lemma {:induction false} ReplayKeepsInvariants(store: Store, actions: seq<Action>)
    requires Persisted(store)
    ensures Persisted(Replay(store, actions))
    ensures Init(Replay(store, actions).slot) == Success(Replay(store, actions))
    ensures Seqs.NoDuplicates(store.list) ==> Seqs.NoDuplicates(Replay(store, actions).list)
    decreases |actions|
  {
    if |actions| > 0 {
      if Seqs.NoDuplicates(store.list) {
        OperationsKeepNoDuplicates(store.list, actions[0].slug);
      }
      ReplayKeepsInvariants(Apply(store, actions[0]), actions[1..]);
    }
  }
}
