/** The card catalog client: the card cache keyed by card id, the read-through
    single-card lookup, the batch lookup that fetches only cache misses, the
    id -> set+number -> fuzzy-name resolver, image-url selection and search
    truncation.

    HTTP is an abstract lookup: a function from what is requested to the decoded
    card of a 200 response, or None for any other status or a transport error. */
module Scryfall {
  import opened Common
  import Ordering

  /** One entry of `card_faces`; imageUris is None when the face has no such key. */
  datatype Face = Face(imageUris: Option<map<string, string>>)

  /** A decoded card object. Each Option is None when the key is absent; otherKeys
      are the keys of the object this model does not look at. */
  datatype Card = Card(
    id: Option<string>,
    name: Option<string>,
    setCode: Option<string>,
    collectorNumber: Option<string>,
    imageUris: Option<map<string, string>>,
    cardFaces: Option<seq<Face>>,
    otherKeys: set<string>)

  /** The empty object `{}`, the only falsy card. */
  predicate IsEmptyObject(c: Card) {
    c == Card(None, None, None, None, None, None, {})
  }

  /** `if card:` for an optional card. */
  predicate Found(c: Option<Card>) {
    c.Some? && !IsEmptyObject(c.value)
  }

  // ---------------------------------------------------------------------------
  // Cache writes

  /** _save_card_cache: a card with an id replaces the entry under that id; any
      other card is ignored. */
  function Saved(entries: map<string, Card>, card: Card): (r: map<string, Card>)
    ensures card.id.Some? ==> r == entries[card.id.value := card]
    ensures card.id.None? ==> r == entries
  {
    if card.id.Some? then entries[card.id.value := card] else entries
  }

  /** The rows _save_cards_cache_bulk writes: the cards that have an id, in order. */
  function Rows(cards: seq<Card>): (r: seq<Card>)
    ensures |r| <= |cards|
    ensures forall c :: c in r <==> c in cards && c.id.Some?
  {
    if cards == [] then []
    else Rows(cards[..|cards| - 1]) + (if cards[|cards| - 1].id.Some? then [cards[|cards| - 1]] else [])
  }

  /** The cache after writing the cards one after another (executemany of INSERT
      OR REPLACE). */
  function SavedAll(entries: map<string, Card>, cards: seq<Card>): map<string, Card> {
    if cards == [] then entries else Saved(SavedAll(entries, cards[..|cards| - 1]), cards[|cards| - 1])
  }

  /** The last card of `cards` whose id is k. */
  function LastWithId(cards: seq<Card>, k: string): (r: Option<Card>)
    ensures r.Some? ==> r.value in cards && r.value.id == Some(k)
    ensures r.None? ==> forall c :: c in cards ==> c.id != Some(k)
  {
    if cards == [] then None
    else if cards[|cards| - 1].id == Some(k) then Some(cards[|cards| - 1])
    else LastWithId(cards[..|cards| - 1], k)
  }

  /** A bulk write, stated entry by entry: an id holds the last written card with
      that id, and every other entry is what it was. */
  lemma {:induction false} SavedAllMeaning(entries: map<string, Card>, cards: seq<Card>, k: string)
    ensures k in SavedAll(entries, cards) <==> k in entries || LastWithId(cards, k).Some?
    ensures LastWithId(cards, k).Some? ==> SavedAll(entries, cards)[k] == LastWithId(cards, k).value
    ensures LastWithId(cards, k).None? && k in entries ==> SavedAll(entries, cards)[k] == entries[k]
    decreases |cards|
  {
    if cards != [] {
      SavedAllMeaning(entries, cards[..|cards| - 1], k);
    }
  }

  /** Cards without an id do not change what a bulk write does. */
  lemma {:induction false} SavedAllRows(entries: map<string, Card>, cards: seq<Card>)
    ensures SavedAll(entries, Rows(cards)) == SavedAll(entries, cards)
    decreases |cards|
  {
    if cards != [] {
      var n := |cards| - 1;
      SavedAllRows(entries, cards[..n]);
      if cards[n].id.Some? {
        assert (Rows(cards[..n]) + [cards[n]])[..|Rows(cards)| - 1] == Rows(cards[..n]);
      } else {
        assert Rows(cards) == Rows(cards[..n]);
      }
    }
  }

  /** Every cache entry is stored under the id of the card it holds. */
  ghost predicate KeyedById(entries: map<string, Card>) {
    forall k :: k in entries ==> entries[k].id == Some(k)
  }

  lemma {:induction false} SavedAllKeyedById(entries: map<string, Card>, cards: seq<Card>)
    requires KeyedById(entries)
    ensures KeyedById(SavedAll(entries, cards))
    decreases |cards|
  {
    if cards != [] {
      SavedAllKeyedById(entries, cards[..|cards| - 1]);
    }
  }

  // ---------------------------------------------------------------------------
  // Cache reads and the batch lookup

  /** The ids `[sid for sid in dict.fromkeys(ids) if sid]`: first occurrences, in
      order, without the empty id. */
  function UniqueIds(ids: seq<string>): (r: seq<string>)
    ensures forall x :: x in r <==> x in ids && x != ""
    ensures Ordering.NoDuplicates(r)
  {
    if ids == [] then []
    else
      var p := UniqueIds(ids[..|ids| - 1]);
      var x := ids[|ids| - 1];
      if x == "" || x in p then p else p + [x]
  }

  /** The ids of `ids` absent from the cache, in order. */
  function MissingIds(entries: map<string, Card>, ids: seq<string>): (r: seq<string>)
    ensures forall x :: x in r <==> x in ids && x !in entries
    ensures Ordering.NoDuplicates(ids) ==> Ordering.NoDuplicates(r)
  {
    if ids == [] then []
    else
      var n := |ids| - 1;
      var p := MissingIds(entries, ids[..n]);
      assert Ordering.NoDuplicates(ids) ==> ids[n] !in ids[..n];
      p + (if ids[n] in entries then [] else [ids[n]])
  }

  /** The `fetched` dict after the results for `order` have arrived: each requested
      id whose lookup found a card, mapped to it. */
  function FetchedMap(order: seq<string>, http: string -> Option<Card>): map<string, Card> {
    map sid | sid in order && Found(http(sid)) :: http(sid).value
  }

  /** `fetched.values()`, in the order the results arrived. */
  function FetchedValues(order: seq<string>, http: string -> Option<Card>): seq<Card> {
    if order == [] then []
    else
      var sid := order[|order| - 1];
      FetchedValues(order[..|order| - 1], http) + (if Found(http(sid)) then [http(sid).value] else [])
  }

  lemma {:induction false} FetchedValuesEmpty(order: seq<string>, http: string -> Option<Card>)
    ensures FetchedValues(order, http) == [] <==> FetchedMap(order, http) == map[]
    decreases |order|
  {
    if order != [] {
      var n := |order| - 1;
      FetchedValuesEmpty(order[..n], http);
      if Found(http(order[n])) {
        assert order[n] in FetchedMap(order, http);
      } else {
        assert FetchedMap(order, http) == FetchedMap(order[..n], http);
      }
    }
  }

  /** The cached cards among the non-empty ids. */
  function CachedAmong(entries: map<string, Card>, ids: seq<string>): (r: map<string, Card>)
    ensures forall k :: k in r <==> k in ids && k != "" && k in entries
    ensures forall k :: k in r ==> r[k] == entries[k]
  {
    map k | k in UniqueIds(ids) && k in entries :: entries[k]
  }

  lemma SameElements<T>(a: seq<T>, b: seq<T>)
    requires multiset(a) == multiset(b)
    ensures forall x :: x in a <==> x in b
  {
    forall x ensures x in a <==> x in b {
      assert x in a <==> x in multiset(a);
      assert x in b <==> x in multiset(b);
    }
  }

  /** The cached cards overlaid with the fetched ones are CardsByIds, whatever order
      the fetches of the missing ids completed in. */
  lemma CardsByIdsAssembled(entries: map<string, Card>, ids: seq<string>, http: string -> Option<Card>, completion: seq<string>)
    requires forall x :: x in completion <==> x in MissingIds(entries, UniqueIds(ids))
    ensures CachedAmong(entries, UniqueIds(ids)) + FetchedMap(completion, http) == CardsByIds(entries, ids, http)
  {
  }

  /** What fetch_cards_by_ids returns, defined id by id: every non-empty requested
      id that is cached maps to its cached card, and every other one maps to the
      card its lookup found; ids whose lookup failed are absent. */
  function CardsByIds(entries: map<string, Card>, ids: seq<string>, http: string -> Option<Card>): map<string, Card> {
    map k | k in ids && k != "" && (k in entries || Found(http(k))) :: if k in entries then entries[k] else http(k).value
  }

  /** The result's keys are a subset of the requested ids; cache hits win without a
      fetch; a failed fetch of a missing id leaves it out. */
  lemma CardsByIdsFacts(entries: map<string, Card>, ids: seq<string>, http: string -> Option<Card>, k: string)
    ensures k in CardsByIds(entries, ids, http) ==> k in ids && k != ""
    ensures k in ids && k != "" && k in entries ==> CardsByIds(entries, ids, http)[k] == entries[k]
    ensures k in ids && k != "" && k !in entries ==>
              (k in CardsByIds(entries, ids, http) <==> Found(http(k)))
    ensures k in CardsByIds(entries, ids, http) && k !in entries ==> CardsByIds(entries, ids, http)[k] == http(k).value
  {
  }

  /** The request-side of the batch lookup: the number of worker threads,
      max(1, min(MAX_WORKERS, misses)). */
  function Workers(maxWorkers: int, misses: nat): (r: int)
    ensures r >= 1
    ensures maxWorkers >= 1 && misses >= 1 ==> r <= maxWorkers && r <= misses
    ensures maxWorkers >= misses >= 1 ==> r == misses
  {
    var m := if maxWorkers < misses then maxWorkers else misses;
    if m < 1 then 1 else m
  }

  const DefaultMaxWorkers: int := 8

  /** The card_cache table. */
  class CardCache {
    var entries: map<string, Card>

    ghost predicate Valid()
      reads this
    {
      KeyedById(entries)
    }

    constructor ()
      ensures entries == map[] && Valid()
    {
      entries := map[];
    }

    /** _save_card_cache. */
    method SaveCard(card: Card)
      modifies this
      requires Valid()
      ensures entries == Saved(old(entries), card) && Valid()
    {
      if card.id.Some? {
        entries := entries[card.id.value := card];
      }
    }

    /** _save_cards_cache_bulk: returns the number of rows written (none when no
        card has an id). */
    method SaveCardsBulk(cards: seq<Card>) returns (written: nat)
      modifies this
      requires Valid()
      ensures entries == SavedAll(old(entries), cards) && Valid()
      ensures written == |Rows(cards)|
    {
      var rows: seq<Card> := [];
      for i := 0 to |cards|
        invariant rows == Rows(cards[..i])
      {
        assert cards[..i + 1][..i] == cards[..i];
        if cards[i].id.Some? {
          rows := rows + [cards[i]];
        }
      }
      assert cards[..|cards|] == cards;
      written := |rows|;
      if rows == [] {
        assert SavedAll(entries, rows) == entries;
        SavedAllRows(entries, cards);
        return;
      }
      ghost var before := entries;
      for i := 0 to |rows|
        invariant entries == SavedAll(before, rows[..i])
      {
        assert rows[..i + 1][..i] == rows[..i];
        entries := Saved(entries, rows[i]);
      }
      assert rows[..|rows|] == rows;
      SavedAllRows(before, cards);
      SavedAllKeyedById(before, cards);
    }

    /** _load_card_cache. */
    function LoadCard(scryfallId: string): (r: Option<Card>)
      reads this
      ensures r.Some? <==> scryfallId in entries
      ensures r.Some? ==> r.value == entries[scryfallId]
    {
      if scryfallId in entries then Some(entries[scryfallId]) else None
    }

    /** _load_cards_cache: the cached cards among the non-empty requested ids. */
    function LoadCards(ids: seq<string>): (r: map<string, Card>)
      reads this
      ensures forall k :: k in r <==> k in ids && k != "" && k in entries
      ensures forall k :: k in r ==> r[k] == entries[k]
    {
      CachedAmong(entries, ids)
    }

    /** fetch_card_by_id: a cached card is returned without a request; otherwise
        the lookup runs, and a card it finds is written to the cache and returned. */
    method FetchCardById(scryfallId: string, http: string -> Option<Card>) returns (r: Option<Card>)
      modifies this
      requires Valid()
      ensures r == ByIdResult(old(entries), scryfallId, http)
      ensures entries == ByIdEntries(old(entries), scryfallId, http) && Valid()
    {
      var cached := LoadCard(scryfallId);
      if Found(cached) {
        return cached;
      }
      var reply := http(scryfallId);
      if reply.Some? {
        SaveCard(reply.value);
        return reply;
      }
      return None;
    }

    /** fetch_card_by_set and fetch_card_fuzzy: the lookup's card, if any, is written
        to the cache and returned. */
    method FetchAndSave(reply: Option<Card>) returns (r: Option<Card>)
      modifies this
      requires Valid()
      ensures r == reply
      ensures entries == (if reply.Some? then Saved(old(entries), reply.value) else old(entries)) && Valid()
    {
      if reply.Some? {
        SaveCard(reply.value);
      }
      return reply;
    }

    /** fetch_cards_by_ids. `completion` is the order in which the lookups of the
        missing ids finish (any order of them). Returns the cards, the ids that
        were requested and the worker count. */
    method FetchCardsByIds(ids: seq<string>, http: string -> Option<Card>, maxWorkers: int, completion: seq<string>)
      returns (r: map<string, Card>, requested: seq<string>, workers: int)
      modifies this
      requires Valid()
      requires multiset(completion) == multiset(MissingIds(entries, UniqueIds(ids)))
      ensures r == CardsByIds(old(entries), ids, http)
      ensures requested == MissingIds(old(entries), UniqueIds(ids))
      ensures forall sid :: sid in requested ==> sid !in old(entries) && sid in ids && sid != ""
      ensures requested != [] ==> workers == Workers(maxWorkers, |requested|)
      ensures entries == SavedAll(old(entries), FetchedValues(completion, http)) && Valid()
    {
      var unique := UniqueIds(ids);
      workers := 0;
      var cached := LoadCards(unique);
      requested := MissingIds(entries, unique);
      var fetched: map<string, Card> := map[];
      if requested != [] {
        workers := Workers(maxWorkers, |requested|);
        var values;
        fetched, values := CollectFetched(completion, http);
        if fetched != map[] {
          var _ := SaveCardsBulk(values);
        } else {
          assert SavedAll(entries, values) == entries;
        }
      } else {
        assert completion == [] by { assert |completion| == |multiset(completion)| == 0; }
      }
      SameElements(completion, requested);
      CardsByIdsAssembled(old(entries), ids, http, completion);
      r := cached + fetched;
    }
  }

  /** The loop over `as_completed`: the `fetched` dict and the order its values
      were inserted in, for results arriving in the order `completion`. */
  method CollectFetched(completion: seq<string>, http: string -> Option<Card>)
    returns (fetched: map<string, Card>, values: seq<Card>)
    ensures fetched == FetchedMap(completion, http)
    ensures values == FetchedValues(completion, http)
    ensures values == [] <==> fetched == map[]
  {
    fetched := map[];
    values := [];
    for i := 0 to |completion|
      invariant fetched == FetchedMap(completion[..i], http)
      invariant values == FetchedValues(completion[..i], http)
    {
      assert completion[..i + 1][..i] == completion[..i];
      var sid := completion[i];
      var card := http(sid);
      if Found(card) {
        fetched := fetched[sid := card.value];
        values := values + [card.value];
      }
    }
    assert completion[..|completion|] == completion;
    FetchedValuesEmpty(completion, http);
  }

  /** fetch_card_by_id's result against the cache it starts from. */
  function ByIdResult(entries: map<string, Card>, scryfallId: string, http: string -> Option<Card>): Option<Card> {
    if scryfallId in entries && !IsEmptyObject(entries[scryfallId]) then Some(entries[scryfallId])
    else http(scryfallId)
  }

  /** fetch_card_by_id's cache afterwards. */
  function ByIdEntries(entries: map<string, Card>, scryfallId: string, http: string -> Option<Card>): map<string, Card> {
    if scryfallId in entries && !IsEmptyObject(entries[scryfallId]) then entries
    else if http(scryfallId).Some? then Saved(entries, http(scryfallId).value)
    else entries
  }

  /** A successful fetch stores the card, so the next lookup of that id is a cache
      hit: it returns the same card whatever the network would say, and writes
      nothing. A failed fetch returns None and leaves the cache as it was. */
  lemma FetchThenHit(entries: map<string, Card>, scryfallId: string, http: string -> Option<Card>, later: string -> Option<Card>)
    ensures http(scryfallId).Some? && http(scryfallId).value.id == Some(scryfallId) ==>
              ByIdResult(ByIdEntries(entries, scryfallId, http), scryfallId, later) == ByIdResult(entries, scryfallId, http)
              && ByIdEntries(ByIdEntries(entries, scryfallId, http), scryfallId, later) == ByIdEntries(entries, scryfallId, http)
    ensures scryfallId !in entries && http(scryfallId).None? ==>
              ByIdResult(entries, scryfallId, http).None? && ByIdEntries(entries, scryfallId, http) == entries
    ensures scryfallId in entries && KeyedById(entries) ==>
              ByIdResult(entries, scryfallId, http) == Some(entries[scryfallId])
              && ByIdEntries(entries, scryfallId, http) == entries
  {
  }

  // ---------------------------------------------------------------------------
  // Resolver

  /** The identifying fields of an item to resolve. */
  datatype ItemRef = ItemRef(scryfallId: Option<string>, setCode: Option<string>, collectorNumber: Option<string>, cardName: Option<string>)

  /** Which lookup resolved the card: 'id', 'set' or 'fuzzy'. */
  datatype Via = ViaId | ViaSet | ViaFuzzy

  datatype Resolution = Resolution(card: Option<Card>, via: Option<Via>)

  /** resolve_card, over the results of fetch_card_by_id, fetch_card_by_set and
      fetch_card_fuzzy. */
  function Resolve(item: ItemRef, byId: string -> Option<Card>, bySet: (string, string) -> Option<Card>, fuzzy: string -> Option<Card>): (r: Resolution)
    ensures r.via == Some(ViaId) <==> Truthy(item.scryfallId)
    ensures r.via == Some(ViaSet) ==>
              Truthy(item.setCode) && Truthy(item.collectorNumber) && r.card == bySet(item.setCode.value, item.collectorNumber.value)
              && Found(r.card)
    ensures r.via == Some(ViaFuzzy) ==> Truthy(item.cardName) && r.card == fuzzy(item.cardName.value) && Found(r.card)
    ensures r.via == None ==> r.card == None
  {
    if Truthy(item.scryfallId) then Resolution(byId(item.scryfallId.value), Some(ViaId))
    else if Truthy(item.setCode) && Truthy(item.collectorNumber) && Found(bySet(item.setCode.value, item.collectorNumber.value)) then
      Resolution(bySet(item.setCode.value, item.collectorNumber.value), Some(ViaSet))
    else if Truthy(item.cardName) && Found(fuzzy(item.cardName.value)) then
      Resolution(fuzzy(item.cardName.value), Some(ViaFuzzy))
    else Resolution(None, None)
  }

  /** With an id, the by-id result is returned even when it is None: the set and
      name lookups are never consulted. */
  lemma ResolveNoFallThrough(item: ItemRef, byId: string -> Option<Card>,
                             bySet1: (string, string) -> Option<Card>, fuzzy1: string -> Option<Card>,
                             bySet2: (string, string) -> Option<Card>, fuzzy2: string -> Option<Card>)
    requires Truthy(item.scryfallId)
    ensures Resolve(item, byId, bySet1, fuzzy1) == Resolve(item, byId, bySet2, fuzzy2)
    ensures Resolve(item, byId, bySet1, fuzzy1) == Resolution(byId(item.scryfallId.value), Some(ViaId))
  {
  }

  /** Without an id, a found set+number lookup wins; otherwise a found fuzzy
      lookup is the answer, tagged 'fuzzy'; and nothing found gives (None, None). */
  lemma ResolveFallback(item: ItemRef, byId: string -> Option<Card>, bySet: (string, string) -> Option<Card>, fuzzy: string -> Option<Card>)
    requires !Truthy(item.scryfallId)
    ensures Truthy(item.setCode) && Truthy(item.collectorNumber) && Found(bySet(item.setCode.value, item.collectorNumber.value))
            ==> Resolve(item, byId, bySet, fuzzy).via == Some(ViaSet)
    ensures Resolve(item, byId, bySet, fuzzy).via == Some(ViaFuzzy) ==>
              !(Truthy(item.setCode) && Truthy(item.collectorNumber) && Found(bySet(item.setCode.value, item.collectorNumber.value)))
    ensures !(Truthy(item.setCode) && Truthy(item.collectorNumber) && Found(bySet(item.setCode.value, item.collectorNumber.value)))
            && !(Truthy(item.cardName) && Found(fuzzy(item.cardName.value)))
            ==> Resolve(item, byId, bySet, fuzzy) == Resolution(None, None)
    ensures !(Truthy(item.setCode) && Truthy(item.collectorNumber) && Found(bySet(item.setCode.value, item.collectorNumber.value)))
            && Truthy(item.cardName) && Found(fuzzy(item.cardName.value))
            ==> Resolve(item, byId, bySet, fuzzy) == Resolution(fuzzy(item.cardName.value), Some(ViaFuzzy))
  {
  }

  // ---------------------------------------------------------------------------
  // Images and search

  /** `m.get(key)` on an optional dict. */
  function Get(m: Option<map<string, string>>, key: string): Option<string> {
    if m.Some? && key in m.value then Some(m.value[key]) else None
  }

  /** A dict value that is present and non-empty. */
  predicate NonEmptyMap(m: Option<map<string, string>>) {
    m.Some? && m.value != map[]
  }

  /** _image_url. */
  function ImageUrl(card: Option<Card>, size: string): (r: Option<string>)
    ensures !Found(card) ==> r == None
    ensures Found(card) && NonEmptyMap(card.value.imageUris) ==> r == Get(card.value.imageUris, size)
    ensures Found(card) && !NonEmptyMap(card.value.imageUris) ==>
              r == (if card.value.cardFaces.Some? && card.value.cardFaces.value != []
                    then Get(card.value.cardFaces.value[0].imageUris, size) else None)
    ensures r.Some? ==>
              Found(card) &&
              ((card.value.imageUris.Some? && r.value in card.value.imageUris.value.Values)
               || (card.value.cardFaces.Some? && card.value.cardFaces.value != []
                   && card.value.cardFaces.value[0].imageUris.Some?
                   && r.value in card.value.cardFaces.value[0].imageUris.value.Values))
  {
    if !Found(card) then None
    else if NonEmptyMap(card.value.imageUris) then Get(card.value.imageUris, size)
    else
      var faces := if card.value.cardFaces.Some? then card.value.cardFaces.value else [];
      if faces != [] then Get(faces[0].imageUris, size) else None
  }

  /** A card with top-level image_uris that lack the size gives None; the faces are
      not consulted. */
  lemma ImageUrlNoFaceFallback(card: Card, size: string)
    requires !IsEmptyObject(card) && NonEmptyMap(card.imageUris) && size !in card.imageUris.value
    ensures ImageUrl(Some(card), size) == None
  {
  }

  /** Python's `s[:limit]`: a negative limit counts from the end. */
  function PrefixSlice<T>(s: seq<T>, limit: int): (r: seq<T>)
    ensures |r| <= |s| && r == s[..|r|]
    ensures limit >= 0 ==> |r| == if limit < |s| then limit else |s|
    ensures limit < 0 ==> |r| == if |s| + limit > 0 then |s| + limit else 0
  {
    if limit >= 0 then (if limit < |s| then s[..limit] else s)
    else if |s| + limit > 0 then s[..|s| + limit] else []
  }

  /** The reply to a search request: a failure, or a 200 body whose `data` key may
      be absent. */
  datatype SearchReply = SearchFailed | SearchOk(data: Option<seq<Card>>)

  /** search_cards. */
  function SearchCards(reply: SearchReply, limit: int): (r: seq<Card>)
    ensures reply.SearchFailed? ==> r == []
    ensures limit >= 0 ==> |r| <= limit
    ensures reply.SearchOk? && reply.data.Some? ==> |r| <= |reply.data.value| && r == reply.data.value[..|r|]
    ensures reply.SearchOk? && reply.data.Some? && 0 <= limit <= |reply.data.value| ==> |r| == limit
  {
    match reply
      case SearchFailed => []
      case SearchOk(data) => PrefixSlice(if data.Some? then data.value else [], limit)
  }
}
