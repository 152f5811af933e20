# auto-picklist, modelled in Dafny

auto-picklist turns a trading-card marketplace's unfulfilled orders into a
pick list. Pickers then work the list from phones and tablets.

**Sync.** A sync goes through these steps:

1. It lists the open orders from the ManaPool API. Requests are retried and
   the results are paged.
2. It fetches every order.
3. It flattens the orders into line items.
4. It sums the quantities per Scryfall card id.
5. It builds one batch item per card, preferring the catalog's name, set and
   number. The buyers' names and the order references are kept as sorted,
   joined provenance strings.

**Picking.** Pickers pick, undo, mark missing and unmark missing one item at a
time. Every change writes an event to an append-only log. Every change is also
broadcast to the websockets watching the batch. A picker can reserve a set
code so nobody else works it.

**Catalog.** Cards and their images come from the Scryfall catalog, behind a
read-through card cache. A development-only `.env` loader fills the process
environment.

**What is abstracted.** The database tables, the HTTP answers, the clock and
which websocket sends fail are all inputs to the model. Each table becomes a
map or a sequence. Each remote service becomes a function or a sequence of
per-attempt outcomes.

## Modules

| module | file | what it holds |
|---|---|---|
| Common | common.dfy | Option, Python truthiness, `str.strip`, ASCII `str.lower`, joining, small set facts |
| Ordering | ordering.dfy | Python's string order, sorting of strings, duplicate-free sequences |
| Sums | sums.dfy | sums and flat maps over sequences, and that they ignore order |
| Items | items.dfy | the `batch_items` row and the `events` row |
| Logic | logic.dfy | `app/logic.py`: the sort key and stable sort, remaining quantity, the missing flag, per-id aggregation, the undo deadline |
| Env | env.dfy | `app/env.py`: the line parser and the environment map as a class |
| ManaPool | manapool.dfy | `app/manapool.py`: the retry loop, pagination, order fetch |
| Scryfall | scryfall.dfy | `app/scryfall.py`: the card cache as a class, batch lookup, resolution, image URL, search truncation |
| Sync | sync.dfy | `generate_from_manapool`: line extraction, the fetch loop, aggregation, item building |
| Picking | picking.dfy | pick / undo / mark / unmark on the item and event tables, as a class; the `item_row` filter |
| Backfill | backfill.dfy | `_backfill_order_names` |
| Viewers | viewers.dfy | `ConnectionManager` as a class over `map<int, set<Socket>>` |
| Reservations | reservations.dfy | `reserve_set` as a class over `map<(int, string), string>` |

Where the code and its test disagree (`test_sort_items`), the model follows
the code; see Findings.

## Model

| member | source | states |
|---|---|---|
| Logic.KeyLtTransitive | app/logic.py:4-18 | the sort key's order is transitive |
| Logic.KeyLtTotal | app/logic.py:4-18 | of two different keys one is smaller: the order is total |
| Logic.GameRankOrder | app/logic.py:4-10 | games whose lowercase name starts with "magic" come before other non-empty games, and non-empty games come before empty or None ones |
| Logic.WithinGameOrder | app/logic.py:14-17 | within a game, a non-blank stripped set code comes before a blank one; then items order by set code, then by card name (None read as "") |
| Logic.SortItemsSorted | app/logic.py:13-18 | `sort_items` returns a permutation of its input, sorted by the key |
| Logic.SortItemsStable | app/logic.py:18 | items with equal keys keep their input order |
| Logic.SortExample | tests/test_logic.py:5-15 | the repository's four-item example sorts as Alpha, Beta, Omega, Zard |
| Logic.SortTestLastAsWritten | tests/test_logic.py:5-15 | on the test's four items the last one is 'Zard', not the 'Omega' the test asserts |
| Logic.BlankSetLastInGame | app/logic.py:4-10 | within one game, an item with a blank set code sorts after every item with a set code |
| Logic.RemainingQty | app/logic.py:21-22 | never negative; at least required minus picked; either 0 or exactly that difference |
| Logic.RemainingZero | app/logic.py:21-22 | the remaining quantity is 0 exactly when picked >= required |
| Logic.RemainingExample | tests/test_logic.py:18-20 | (3 required, 1 picked) leaves 2 |
| Logic.IsMissingExamples | app/logic.py:25-26 | the flag 1 counts as missing; 0 or absent does not |
| Logic.LineQty | app/logic.py:35 | a missing or 0 quantity counts as 1; any other quantity counts as itself |
| Logic.AggregateByScryfall | app/logic.py:29-37 | the loop's map has exactly the truthy ids present as keys; each value is that id's quantity sum |
| Logic.AggregateOrderIndependent | app/logic.py:31-36 | any permutation of the input gives the same ids and the same sums |
| Logic.AggregateExample | tests/test_logic.py:28-36 | {a:1, b:2, a:3} gives a = 4 and b = 2 |
| Logic.ComputeUndoDeadline | app/logic.py:40-42 | the deadline minus `now` (or the clock when `now` is missing) is the given number of seconds |
| Env.Getenv | app/env.py:7 | a name is found exactly when it is in the environment, with its value |
| Env.ParseLine | app/env.py:14-21 | a parsed key is non-empty, stripped and free of '='; blank lines and lines without '=' give nothing |
| Env.ParseLineNone | app/env.py:14-19 | a line assigns nothing exactly when it is blank, a comment (a '#' once stripped), has no '=', or has a blank key before its first '=' |
| Env.ParseLineExample | app/env.py:14-21 | ` TOKEN = "a=b" ` gives TOKEN = a=b: the line splits at the first '=' only and the quotes are removed |
| Env.ParseLineAssigns | app/env.py:15-21 | every other line assigns its stripped key before the first '=' the cleaned value after it |
| Env.ParseLineSkips | app/env.py:15-19 | on three concrete lines: a comment, a line without '=' and a line with an empty key are each skipped |
| Env.ParseSerialize | app/env.py:14-21 | a `key=value` line written from a well-formed entry parses back to that entry |
| Env.MergePreserves | app/env.py:18-22 | every key already in the environment keeps its value; the loader only adds the keys of parsed lines |
| Env.MergeFirstWins | app/env.py:18-22 | a key not yet in the environment takes the value of its first occurrence in the file |
| Env.EnabledExamples | app/env.py:7-9 | " Yes ", "1" and "TRUE" enable loading |
| Env.DisabledWhenUnset | app/env.py:7-9 | an unset or empty LOAD_DOTENV disables loading |
| Env.DisabledOtherFlags | app/env.py:7-9 | "0" and "on" disable loading |
| Env.Environment.LoadOptionalDotenv | app/env.py:5-22 | when enabled and the file exists, the environment becomes the merge of the file's lines; otherwise it is unchanged |
| Env.Environment.ApplyLines | app/env.py:13-22 | the line loop leaves the environment equal to the merge of the parsed lines |
| ManaPool.IsConfiguredCases | app/manapool.py:13-14 | configured exactly when both the email and the access token are non-empty |
| ManaPool.BackoffSchedule | app/manapool.py:33-36 | the delays are 500, 1000 and 2000 ms for attempts 0, 1 and 2, each twice the one before |
| ManaPool.FirstAnswer | app/manapool.py:28-38 | the index of the first attempt that answers with a status outside {429, 500, 502, 503, 504}; no attempt before it answers |
| ManaPool.LastRaised | app/manapool.py:31-34 | the message of the last transport exception, or none if no attempt raised |
| ManaPool.FailureMessage | app/manapool.py:39 | the failure message is never empty |
| ManaPool.RequestOutcomeFacts | app/manapool.py:25-39 | a response is never one with a retryable status; a failure carries a non-empty message; with no retries allowed the request fails with 'ManaPool request failed' |
| ManaPool.Request | app/manapool.py:25-39 | the retry loop returns the first non-retryable response within MAX_RETRIES attempts; it sleeps 0.5·2^k s after attempt k; on exhaustion it has slept after every attempt |
| ManaPool.RetryExample | app/manapool.py:28-39 | with 3 retries, 503, 503, 200 answers with the 200 |
| ManaPool.FailureExample | app/manapool.py:31-39 | exhaustion reports the last transport error; with none it reports 'ManaPool request failed' |
| ManaPool.StatusError | app/manapool.py:53-55 | a non-200 status gives "ManaPool error: " followed by the status as `str` writes it |
| ManaPool.StatusError404 | app/manapool.py:53-55 | a 404 gives exactly "ManaPool error: 404" |
| Common.NatToString | app/manapool.py:55 | `str` of a non-negative integer: digits with no leading zero whose decimal value is the integer |
| Common.IntToString | app/manapool.py:55 | `str` of any integer: a minus sign for negatives, then the canonical digits of the magnitude |
| Common.DecimalUnique | app/manapool.py:55 | two strings that write the same integer are equal, so the digits above are the only way to write it |
| ManaPool.ListUnfulfilledOrders | app/manapool.py:42-62 | requests offsets 0, limit, 2·limit, …, exactly up to and including the first stopping page; the result is the listing defined page by page |
| ManaPool.ListingStep | app/manapool.py:50-61 | an error or non-200 page ends the listing with that error; a short or empty 200 page ends it with its orders; a full page continues with the next offset |
| ManaPool.ListingMeaning | app/manapool.py:42-62 | the listing is the pages up to the first stopping page, concatenated in request order, or the stopping page's error, which discards the pages before it |
| ManaPool.ListingUpToStop | app/manapool.py:42-62 | the listing from any page is the orders of the full pages before the first stopping page, prepended to what that page returns |
| ManaPool.OffsetsStep | app/manapool.py:44-61 | adding `limit` to the offset k·limit of page k gives (k + 1)·limit, and the offsets of k + 1 pages are those of k pages followed by k·limit |
| ManaPool.EachPageBeforeFull | app/manapool.py:59-61 | every page before the stopping one answered 200 with at least limit orders |
| ManaPool.FullPagesBefore | app/manapool.py:59-61 | the pages before the stopping one hold at least (s − k)·limit orders together |
| ManaPool.ListingErrorNonEmpty | app/manapool.py:51-55 | a failed listing's message is non-empty |
| ManaPool.ListingRetryExample | app/manapool.py:28-60 | 503, 503, then 200 with fewer than `limit` orders gives that page and no error |
| ManaPool.ListingErrorExample | app/manapool.py:53-55 | a 404 after a full page discards the page and reports "ManaPool error: 404" |
| ManaPool.ListingTwoPagesExample | app/manapool.py:56-61 | a full page followed by a short one gives both pages in order |
| ManaPool.OrderReply | app/manapool.py:65-71 | a request failure gives its error; a non-200 status gives "ManaPool error: <code>"; 200 gives the body |
| ManaPool.FetchOrder | app/manapool.py:65-71 | fetch_order is the mapping of `_request`'s outcome, and an error is never empty |
| Scryfall.Saved | app/scryfall.py:41-56 | a card with an id replaces the entry under that id; a card without one is ignored |
| Scryfall.Rows | app/scryfall.py:59-73 | the bulk write keeps exactly the cards that carry an id |
| Scryfall.LastWithId | app/scryfall.py:59-80 | the last card of a batch carrying an id, or none |
| Scryfall.SavedAllMeaning | app/scryfall.py:59-80 | after a bulk write an id maps to the batch's last card with that id, else to its old entry |
| Scryfall.SavedAllRows | app/scryfall.py:59-80 | writing only the cards with ids is the same as offering them all |
| Scryfall.SavedAllKeyedById | app/scryfall.py:41-80 | writes keep every entry stored under its own card's id |
| Scryfall.UniqueIds | app/scryfall.py:109 | the requested ids, deduplicated, with falsy ids dropped |
| Scryfall.MissingIds | app/scryfall.py:113 | exactly the requested ids absent from the cache |
| Scryfall.CachedAmong | app/scryfall.py:90-105 | `_load_cards_cache`: the cached entries among the requested non-empty ids |
| Scryfall.CardsByIdsAssembled | app/scryfall.py:108-136 | the cached entries overlaid with the fetched misses are the lookup's result, whatever the completion order |
| Scryfall.CardsByIdsFacts | app/scryfall.py:108-136 | the result's keys are requested ids; cache hits win without a fetch; a missing id is present exactly when its fetch succeeded |
| Scryfall.Workers | app/scryfall.py:126 | the worker count is at least 1, at most MAX_WORKERS and at most the number of misses |
| Scryfall.CardCache.SaveCard | app/scryfall.py:41-56 | the cache becomes `Saved` of the old cache and the card |
| Scryfall.CardCache.SaveCardsBulk | app/scryfall.py:59-80 | the cache becomes the bulk write of the cards; it reports the rows written |
| Scryfall.CardCache.LoadCard | app/scryfall.py:83-87 | found exactly when the id is cached, with the cached card |
| Scryfall.CardCache.LoadCards | app/scryfall.py:90-105 | the cached entries among the requested non-empty ids |
| Scryfall.CardCache.FetchCardById | app/scryfall.py:139-151 | a non-empty cache hit is returned without a fetch; otherwise the fetch result is returned and, when present, stored |
| Scryfall.CardCache.FetchAndSave | app/scryfall.py:154-175 | the set and fuzzy lookups return the reply and store it when present |
| Scryfall.CardCache.FetchCardsByIds | app/scryfall.py:108-136 | fetches only the cache misses of the deduplicated ids with `Workers` threads; returns `CardsByIds`; bulk-writes the fetched cards in arrival order |
| Scryfall.CollectFetched | app/scryfall.py:114-133 | the `fetched` dict holds the found results by id, its values in arrival order, and it is empty exactly when nothing was found |
| Scryfall.FetchThenHit | app/scryfall.py:139-151 | after a successful fetch the next lookup is a hit that ignores the network and writes nothing; a failed fetch returns None and leaves the cache unchanged |
| Scryfall.Resolve | app/scryfall.py:189-200 | tagged 'id' exactly when the item has an id; 'set' only with both set and number and a found card; 'fuzzy' only with a name and a found card; otherwise no card |
| Scryfall.ResolveNoFallThrough | app/scryfall.py:190-191 | with an id, the by-id result is returned even when it is None, whatever the other lookups would give |
| Scryfall.ResolveFallback | app/scryfall.py:192-200 | without an id, a found set+number card wins; when the set lookup is not made or finds nothing, a found fuzzy card is the answer, tagged 'fuzzy'; fuzzy is used only then; nothing found gives (None, None) |
| Scryfall.ImageUrl | app/scryfall.py:203-211 | `image_uris[size]` when the card has image URIs, else the first face's, else None; None for a missing card; any URL returned is one of the card's |
| Scryfall.ImageUrlNoFaceFallback | app/scryfall.py:206-207 | non-empty image URIs without the size give None; the faces are not consulted |
| Scryfall.PrefixSlice | app/scryfall.py:183 | Python's `data[:limit]`, negative limits included |
| Scryfall.SearchCards | app/scryfall.py:178-186 | at most `limit` results, a prefix of the data; [] on failure |
| Sync.OrderRef | app/main.py:234-236 | a reference "<ship_name>, #<label>" exists only when both name and label are truthy |
| Sync.LinesSplit | app/main.py:225-231 | every line is either one warning "Order <id>: missing scryfall_id" or one raw item carrying a catalog id |
| Sync.TotalCountsEveryLine | app/main.py:225-233 | `line_items_total` is the raw items' quantity plus that of the lines without an id |
| Sync.FetchOutcome | app/main.py:211-222 | a failed fetch gives exactly one "Order <id>: <err>" error and none of its lines; a successful one gives no error and one cache write |
| Sync.ExtractLines | app/main.py:224-243 | the inner line loop yields the warnings, raw items and total defined line by line |
| Sync.Collect | app/main.py:208-243 | the `as_completed` loop accumulates what the fetches define, in completion order |
| Sync.CollectOrderIndependent | app/main.py:210 | any completion order gives the same errors, warnings and raw items (as multisets) and the same line total |
| Sync.ErrorsPerFailedFetch | app/main.py:212-214 | one error per failed fetch |
| Sync.AggregateRaw | app/main.py:245-253 | the aggregation loop computes the aggregation defined raw item by raw item |
| Sync.AddItem | app/main.py:246-253 | one pass of the loop body (setdefault, `quantity +=`, the two set additions) is one step of the aggregation |
| Sync.AggregateMeaning | app/main.py:245-253 | the keys are the ids seen, once each; each entry sums its id's quantities, keeps the first raw item's single, and holds the distinct truthy names and references |
| Sync.AggregateKeyOrder | app/main.py:245-253 | the keys come in the order their ids first appear among the raw items (setdefault inserts on first sight) |
| Sync.AggregateOrderIndependent | app/main.py:245-253 | any order of the raw items gives the same ids, quantities, and name and reference sets |
| Sync.SingleDependsOnOrder | app/main.py:247-249 | the representative single is the first one seen, so swapping two orders can change it |
| Sync.MapFinish | app/main.py:128-133 | NF, FO and EF map to Normal, Foil and Etched; anything else gives None |
| Sync.MapFinishTable | app/main.py:128-133 | the finish table code by code; case matters |
| Sync.MapCondition | app/main.py:136-143 | NM, LP, MP, HP and DMG pass through unchanged; anything else gives None |
| Sync.Prefer | app/main.py:276-287 | the catalog value when truthy, else the fallback |
| Sync.ProvenanceFacts | app/main.py:289-306 | the stored string depends only on which values were collected; it is None exactly when they are none |
| Sync.BuildItemFacts | app/main.py:271-309 | the row carries the batch, the id, the summed quantity, qty_picked 0, game 'Magic', a lowercase set code, the mapped condition and finish, and the language |
| Sync.BuildItemFallback | app/main.py:271-309 | name, set and number each come from the catalog card when truthy, else from the raw line; the provenance columns are the sorted joins |
| Sync.ItemsFor | app/main.py:271-309 | one row per aggregated key |
| Sync.Materialize | app/main.py:271-309 | the insert loop builds the rows `ItemsFor` defines |
| Sync.OneItemPerId | app/main.py:245-309 | exactly one row per aggregated id, with qty_required equal to that id's summed quantity |
| Sync.OrderIds | app/main.py:198 | only truthy order ids, at most one per listed order |
| Sync.GenerateFromManapool | app/main.py:186-326 | not configured gives HTTP 400; a failed listing gives 502 with its error; otherwise the sync defined over the completed fetches |
| Sync.GeneratedFacts | app/main.py:312-326 | orders_scanned is the listed count; unique_cards is the number of rows built; the status is 'ok' exactly when there are no errors, else 'partial'; the log carries an error exactly then; one error per failed fetch; every row starts unpicked |
| Sync.GenerateOrderIndependent | app/main.py:208-326 | any completion order gives the same summary counts, error and warning multisets, status, and per-id quantity, names and references |
| Picking.SameFilter | app/main.py:519-528 | the handlers' filter (remaining = 0) and item_row's filter at app/main.py:474-478 (picked >= required) agree |
| Picking.ItemRow | app/main.py:467-482 | a row is rendered exactly when the item exists and passes the filter; it shows the item, its remaining quantity and its set's holder |
| Picking.ItemRowDefaults | app/main.py:474-478 | by default a row shows exactly while something remains; show_all always shows; show_missing hides items that are not missing |
| Picking.PickOutcome | app/main.py:504-531 | an unknown item is not found (404); nothing left to pick is answered without a change; otherwise the changed row is the incremented one |
| Picking.UndoOutcome | app/main.py:534-559 | an unknown item is not found; qty_picked <= 0 is answered without a change; otherwise the changed row is the decremented one |
| Picking.MarkOutcome | app/main.py:562-582 | an unknown item is not found (corrected, see Findings); otherwise the changed row is the marked one |
| Picking.UnmarkOutcome | app/main.py:585-605 | an unknown item is not found (corrected, see Findings); otherwise the changed row is the unmarked one |
| Picking.PickFacts | app/main.py:510-516 | with nothing left or an unknown item, nothing changes; otherwise qty_picked rises by 1, nothing else in the row or the table changes, and one ('pick', 1, session) event is appended |
| Picking.PickNeverOverfills | app/main.py:512-515 | a pick never takes qty_picked above qty_required when it starts at or below it |
| Picking.UndoNeverNegative | app/main.py:541-544 | an undo never takes qty_picked below 0, and at 0 it changes nothing |
| Picking.PickThenUndo | app/main.py:504-559 | a pick followed by an undo restores the table and appends exactly the two events |
| Picking.MarkFacts | app/main.py:566-567 | mark sets the flag and the note, leaves both quantities alone, and marking again changes no row but still appends an event |
| Picking.UnmarkFacts | app/main.py:566-590 | unmark after mark clears the flag and the note and leaves the quantities; each call appends exactly one qty-0 event |
| Picking.TransitionsKeepLog | app/main.py:504-605 | every transition keeps each item's qty_picked equal to its initial count plus the net picks in the event log, with every event naming an existing item |
| Picking.LoggedUpdateKeepsLog | app/main.py:515-544 | rewriting one row while logging one event whose delta is the row's change in qty_picked keeps the log accounting for every row |
| Picking.MarkOutcomeAsWritten | app/main.py:562-570 | as written, mark_missing on an unknown id fails with a server error |
| Picking.UnmarkOutcomeAsWritten | app/main.py:585-593 | as written, unmark_missing on an unknown id fails with a server error |
| Picking.MarkMissingUnknownItem | app/main.py:504-605 | for an unknown id, pick and undo give 404; mark_missing and unmark_missing as written give a server error and, without a foreign key, an orphan event that breaks the log accounting; the corrected handlers give 404 and write nothing |
| Picking.PickStore.Pick | app/main.py:504-531 | the tables become `PickTables` of the old ones under the session id (the existing one or a new one); the answer is `PickOutcome` |
| Picking.PickStore.Undo | app/main.py:534-559 | the tables become `UndoTables` of the old ones; the answer is `UndoOutcome` |
| Picking.PickStore.MarkMissing | app/main.py:562-582 | the tables become `MarkTables` of the old ones; the answer is `MarkOutcome` |
| Picking.PickStore.UnmarkMissing | app/main.py:585-605 | the tables become `UnmarkTables` of the old ones; the answer is `UnmarkOutcome` |
| Backfill.BackfillRefVersusGenerator | app/main.py:234-236 | the backfill (app/main.py:401) and the generator store the same reference for a labelled order; for an unlabelled one the generator stores none and the backfill stores the buyer name |
| Backfill.GatherMeaning | app/main.py:387-409 | a catalog id is collected exactly when a listed, cached order with a buyer name has a line with it; its names and references are exactly those orders' |
| Backfill.FillFacts | app/main.py:410-417 | the update touches only the two provenance columns; names and references are collected together; when collected, both become non-empty; otherwise the row is unchanged |
| Backfill.BackfillMeaning | app/main.py:374-418 | only rows of the batch with a blank provenance column change, and only in those columns; such a row gets both columns filled exactly when some order mentions its id |
| Backfill.BackfillIdempotent | app/main.py:374-418 | running the backfill twice is running it once |
| Backfill.BackfillOrderIndependent | app/main.py:387-409 | the order (and repetition) of the given order ids does not change the result |
| Backfill.GatherProvenances | app/main.py:385-409 | the order loop builds the name and reference maps `Gather` defines |
| Backfill.AddLinesMeaning | app/main.py:402-409 | folding in one order's lines adds its buyer name and reference under exactly the catalog ids its lines carry, and nothing else; each id's lists stay duplicate-free |
| Backfill.AddOrderLines | app/main.py:402-409 | the inner loop over an order's lines builds `AddLines` of them (whose meaning `AddLinesMeaning` states) |
| Backfill.FillRows | app/main.py:410-417 | exactly the chosen rows are rewritten, each to `Fill` of its old value; no other row and no event changes |
| Backfill.FillRow | app/main.py:411-416 | for a row with collected names or references, the new columns are the sorted joins, keeping an old column where nothing was collected; this is `Fill` of the row |
| Ordering.SortStrings | app/main.py:416 | `sorted` of the collected strings: a permutation of them, in Python's string order |
| Ordering.SortStringsPermutation | app/main.py:416 | the sorted join depends only on which strings were collected, not on the order they were added in |
| Backfill.BackfillOrderNames | app/main.py:374-418 | the items table becomes `BackfillSpec` of the old one (no selected rows or no order ids: unchanged); the event log is untouched |
| Viewers.ConnectDisconnectFacts | app/main.py:44-52 | connect adds the socket to its batch only; disconnect removes it from its batch only; neither leaves an empty batch entry |
| Viewers.ConnectThenDisconnect | app/main.py:44-52 | connecting a new socket and disconnecting it restores the registry |
| Viewers.DisconnectIdempotent | app/main.py:48-52 | disconnecting twice is disconnecting once |
| Viewers.BroadcastFacts | app/main.py:54-60 | a broadcast drops exactly the failing viewers of its batch and leaves the other batches alone; with no failures it changes nothing |
| Viewers.Registry.Connect | app/main.py:44-46 | the registry becomes `Connected` of the old one and keeps no empty entry |
| Viewers.Registry.Disconnect | app/main.py:48-52 | the registry becomes `Disconnected` of the old one and keeps no empty entry |
| Viewers.Registry.Broadcast | app/main.py:54-60 | the payload reaches the batch's viewers whose send succeeds; the registry becomes `AfterBroadcast` of the old one |
| Reservations.ClaimantFacts | app/main.py:488 | the claimant is never blank and carries no surrounding whitespace; a missing or empty name becomes 'anonymous'; a stripped name is kept |
| Reservations.Reserve | app/main.py:485-502 | under the lowercased set code, the same claimant releases the set (None); any other claimant inserts or overwrites it |
| Reservations.ReserveOthersUnchanged | app/main.py:490-500 | no other (batch, set) entry changes |
| Reservations.ReserveTwice | app/main.py:490-500 | the same claimant twice restores the table, unless someone else held the set: then it ends up free |
| Reservations.ReserveExample | app/main.py:485-502 | for any two different stripped names alice and bob: alice claims the free set MH3 (stored as mh3), alice again releases it, bob overwrites alice |
| Reservations.ReserveKeepsWellKept | app/main.py:487-500 | the table keeps only lowercase set codes and stripped, non-blank holders |
| Reservations.ReservationTable.ReserveSet | app/main.py:485-502 | the table becomes `Reserve` of the old one; the answer and the broadcast notice carry the new holder or None |

## Specification functions

The functions the contracts above are stated against, with the code each
one defines:

- `Logic.GameSortKey`, `game_sort_key` (app/logic.py:4-10).
- `Logic.SortItems`, `sort_items` (app/logic.py:13-18).
- `Logic.IsMissing`, `bool(item.get('is_missing'))` (app/logic.py:25-26).
- `Env.Enabled`, the LOAD_DOTENV test (app/env.py:7-9).
- `Env.CleanValue`, the value stripping (app/env.py:21).
- `Env.Merge`, the environment after the line loop (app/env.py:13-22).
- `ManaPool.BackoffMs`, the retry sleep (app/manapool.py:33-36).
- `ManaPool.RequestOutcome`, what `_request` returns for a sequence of replies (app/manapool.py:25-39).
- `Scryfall.SavedAll`, the cache after a bulk write (app/scryfall.py:59-80).
- `Sync.Aggregate`, the aggregation loop (app/main.py:245-253).
- `Sync.BuildItem`, one built batch row (app/main.py:271-309).
- `Sync.GenerateSpec`, the whole sync (app/main.py:186-326).
- `Picking.PickTables`, `Picking.UndoTables`, `Picking.MarkTables` and `Picking.UnmarkTables`, the tables after each handler (app/main.py:504-605).
- `Picking.MarkTablesAsWritten` and `Picking.UnmarkTablesAsWritten`, the same without the existence check (app/main.py:562-605).
- `Backfill.Gather`, the collected names and references (app/main.py:387-409).
- `Backfill.Fill`, one row's update (app/main.py:410-417).
- `Backfill.BackfillSpec`, the items table after the backfill (app/main.py:374-418).
- `Viewers.Connected`, `Viewers.Disconnected` and `Viewers.AfterBroadcast`, the registry after each operation (app/main.py:44-60).
- `Reservations.Claimant`, the claimant name (app/main.py:488).

## Left out

- Database, HTTP, clock, threads and websockets: SQL text, HTTP requests, JSON
  parsing, `time.sleep`, `datetime` stamps and websocket sends are not run.
  - Tables are maps and sequences.
  - HTTP answers are sequences of attempt outcomes, or functions from id to
    card.
  - Sleeps are returned as millisecond lists.
  - Which sends fail is a set passed in.
- Concurrency: thread pools, `as_completed`, async handlers and the unlocked
  read-then-update in pick are modelled sequentially.
  - Completion order is an arbitrary sequence, and the results are proved not
    to depend on it.
  - No atomicity under contention is claimed.
- Not modelled: `_headers`, `BASE_URL` and the timeout (manapool); `_http`,
  `ensure_image_cached` and image files on disk (scryfall).
- From main.py, also not modelled: `_latest_manapool_batch_warning`, the
  sync-log rows' time stamps, templates, basic auth, sessions' cookie
  handling, CSV import and export, and the listing and summary pages.
- UUIDs: a new session id is a parameter of `Picking.PickStore.Pick`.
- Sync batch creation: the `batches` insert and its name are not modelled.
  The rows are returned instead of inserted.
  - `Sync.GenerateFromManapool`: `cards` stands for `fetch_card_by_id` (its
    cache behaviour is `Scryfall.CardCache.FetchCardById`).
  - The method requires that the completed fetches are exactly the listed
    ids, as `as_completed` guarantees.
- `str.lower` is modelled on ASCII letters only. `str.strip` uses Python's
  whitespace characters. There is no Unicode case folding.
- `int(...)` conversions: integer fields are taken as already integers.
  - `Logic.RemainingQty`: `int()` raising on a non-numeric value is not
    modelled.
  - `Logic.LineQty`: the same holds for `int(item.get('quantity') or 1)`.
- `ManaPool.ListUnfulfilledOrders` requires a final stopping page among the
  replies given. A server that never sends a short page would keep the
  source's `while True` looping, and the model does not capture that.
- `ManaPool.Request` and `ManaPool.FetchOrder` require at least MAX_RETRIES
  attempt outcomes to be supplied. Unused outcomes are ignored.
- JSON that fails to parse is not a separate case.
  - `Backfill.BackfillOrderNames`: a cached order whose `raw_json` does not
    parse is modelled as an id missing from the cache map (a JSON null is the
    value None). The source skips both the same way.
  - The list of all cached order ids is an input (`cachedIds`).
- `ManaPool.PageOrders`: a page whose `orders` is JSON null gives no orders, like a missing key. In the source `data.get('orders', [])` then returns None, and `orders.extend(None)` raises TypeError (app/manapool.py:56-58). The model has no case for a listing that raises.
- `Backfill.FillFacts`: the UPDATE's COALESCE also rewrites a provenance
  column that was already non-blank. The contract states this as it is and
  does not weaken it.
- `Picking.MarkOutcomeAsWritten`: whether the `events` table has a foreign key
  to `batch_items` depends on migration files that are not part of this model.
  `Picking.MarkTablesAsWritten` and `Picking.UnmarkTablesAsWritten` take that
  as a parameter.
- The per-item `item_update` broadcasts are given as the batch id in the
  `Changed` outcome. The broadcast itself is `Viewers.Registry.Broadcast`.
- Default arguments and environment defaults are not modelled as defaults:
  `seconds=5` of compute_undo_deadline (app/logic.py:40), `limit=10` of
  search_cards (app/scryfall.py:178), `limit=100` of list_unfulfilled_orders
  (app/manapool.py:42) and `path='.env'` of load_optional_dotenv (app/env.py:5)
  are ordinary parameters, and the file at that path is given as its lines.
  MANAPOOL_MAX_RETRIES (default 3, app/manapool.py:9) and SCRYFALL_MAX_WORKERS
  (default 8, app/scryfall.py:16) are parameters too; the examples use 3
  retries (`ManaPool.DefaultMaxRetries`).
- `HX-Trigger` headers, `dict(item)` rendering and the template context are
  not modelled. Only what is rendered, and whether anything is, is modelled.
- `Sync.SingleDependsOnOrder`: which single represents an id (its condition,
  finish and language) depends on the completion order. Order independence is
  therefore proved for quantities, names, references and counts only.
- `Sync.TotalCountsEveryLine`: `line_items_total` counts the lines without a
  catalog id too. No contract claims it equals the aggregated quantity.
- `Backfill.BackfillRefVersusGenerator`: the backfill stores the buyer name as
  the reference of an unlabelled order, where the sync stores none. Both are
  modelled as written.

## Findings

| source | as written | input that shows it | evidently intended | confidence | as-written member | corrected member |
|---|---|---|---|---|---|---|
| app/main.py:562-605 | mark_missing and unmark_missing run their UPDATE and INSERT without checking that the item exists, then read `item['batch_id']` from a row that may be None | a POST to /items/<id>/missing or /items/<id>/unmissing with an id not in batch_items: the handler raises (HTTP 500). Without a foreign key on events it also commits an event for an item that does not exist | answer 404 and change nothing, as pick_item and undo_pick do for an unknown id | high; not executed | Picking.MarkMissingUnknownItem | Picking.MarkOutcome |
| tests/test_logic.py:5-15 | `test_sort_items` asserts that the last item is 'Omega', but `game_sort_key` (app/logic.py:4-10) ranks Magic before every other game, so the Pokemon item 'Zard' sorts last | the test's items: Zard (Pokemon, sv1), Omega (Magic, blank set), Alpha and Beta (Magic, woe) | the blank-set Magic item sorts after the set-coded Magic items, i.e. last among Magic, in third place overall | medium; not executed | Logic.SortTestLastAsWritten | Logic.BlankSetLastInGame |
