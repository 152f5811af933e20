/** Building a pick batch from the marketplace's unfulfilled orders
    (generate_from_manapool): the fetched orders are flattened into line items,
    lines without a catalog id become warnings, the lines are aggregated per
    catalog id with their buyer names and order references, and one batch item is
    built per id.

    The order fetches complete in an arbitrary order; the model takes that order as
    an input sequence and proves what of the result does not depend on it. */
module Sync {
  import opened Common
  import opened Sums
  import Ordering
  import opened Items
  import Logic
  import ManaPool
  import Scryfall

  // ---------------------------------------------------------------------------
  // Order payloads

  /** `product.single` of a line item; each field is None when absent. */
  datatype Single = Single(
    scryfallId: Option<string>,
    name: Option<string>,
    setCode: Option<string>,
    number: Option<string>,
    conditionId: Option<string>,
    languageId: Option<string>,
    finishId: Option<string>)

  /** `{}`, what `product.get('single') or {}` gives for a missing single. */
  const EmptySingle := Single(None, None, None, None, None, None, None)

  /** A line item: its quantity and its single (None when product or single is
      missing or empty). */
  datatype LineItem = LineItem(quantity: Option<int>, single: Option<Single>)

  /** `data['order']`: its items, `shipping_address.name` and `label`. */
  datatype Order = Order(items: Option<seq<LineItem>>, shipName: Option<string>, orderLabel: Option<string>)

  /** A fetch_order body; `order` is None when absent or empty. */
  datatype Payload = Payload(order: Option<Order>)

  /** One finished fetch, in the order the fetches completed. */
  datatype Completed = Completed(orderId: string, reply: ManaPool.Fetch<Option<Payload>>)

  /** One entry of raw_items. */
  datatype RawItem = RawItem(scryfallId: string, quantity: int, single: Single, shipName: Option<string>, orderRef: Option<string>)

  /** `(data or {}).get('order') or {}`. */
  function OrderOf(data: Option<Payload>): Order {
    if data.Some? && data.value.order.Some? then data.value.order.value else Order(None, None, None)
  }

  /** `order.get('items') or []`. */
  function ItemsOf(order: Order): seq<LineItem> {
    if order.items.Some? then order.items.value else []
  }

  function SingleOf(item: LineItem): Single {
    if item.single.Some? then item.single.value else EmptySingle
  }

  /** A line that carries a catalog id. */
  predicate HasId(item: LineItem) {
    Truthy(SingleOf(item).scryfallId)
  }

  /** "<ship_name>, #<label>", only when both are present and non-empty. */
  function OrderRef(shipName: Option<string>, orderLabel: Option<string>): (r: Option<string>)
    ensures r.Some? <==> Truthy(shipName) && Truthy(orderLabel)
    ensures r.Some? ==> StartsWith(r.value, shipName.value + ", #") && r.value == shipName.value + ", #" + orderLabel.value
  {
    if Truthy(shipName) && Truthy(orderLabel) then Some(shipName.value + ", #" + orderLabel.value) else None
  }

  function MissingIdWarning(orderId: string): string {
    "Order " + orderId + ": missing scryfall_id"
  }

  function FetchErrorMessage(orderId: string, error: string): string {
    "Order " + orderId + ": " + error
  }

  /** The warnings of an order's lines: one per line without a catalog id. */
  function LineWarnings(orderId: string, items: seq<LineItem>): seq<string> {
    if items == [] then []
    else LineWarnings(orderId, items[..|items| - 1])
         + (if HasId(items[|items| - 1]) then [] else [MissingIdWarning(orderId)])
  }

  /** The raw items of an order's lines: one per line with a catalog id. */
  function LineRaws(order: Order, items: seq<LineItem>): seq<RawItem> {
    if items == [] then []
    else
      var item := items[|items| - 1];
      LineRaws(order, items[..|items| - 1])
      + (if HasId(item)
         then [RawItem(SingleOf(item).scryfallId.value, Logic.LineQty(item.quantity), SingleOf(item),
                       order.shipName, OrderRef(order.shipName, order.orderLabel))]
         else [])
  }

  /** The quantities of all of an order's lines, with or without a catalog id. */
  function LineTotal(items: seq<LineItem>): int {
    if items == [] then 0 else LineTotal(items[..|items| - 1]) + Logic.LineQty(items[|items| - 1].quantity)
  }

  /** `if fetch_err:` */
  predicate FetchFailed(c: Completed) {
    c.reply.FetchError? && c.reply.error != ""
  }

  /** The line items of a completed fetch; a failed fetch contributes none. */
  function LinesOf(c: Completed): seq<LineItem> {
    if FetchFailed(c) then [] else ItemsOf(OrderOf(if c.reply.FetchedBody? then c.reply.body else None))
  }

  function OrderOfCompleted(c: Completed): Order {
    OrderOf(if c.reply.FetchedBody? && !FetchFailed(c) then c.reply.body else None)
  }

  /** The contributions of one completed fetch to errors, warnings, raw_items and
      line_items_total. */
  function ErrorsOf(c: Completed): seq<string> {
    if FetchFailed(c) then [FetchErrorMessage(c.orderId, c.reply.error)] else []
  }

  function WarningsOf(c: Completed): seq<string> {
    LineWarnings(c.orderId, LinesOf(c))
  }

  function RawsOf(c: Completed): seq<RawItem> {
    LineRaws(OrderOfCompleted(c), LinesOf(c))
  }

  function TotalOf(c: Completed): int {
    LineTotal(LinesOf(c))
  }

  /** The orders-cache writes: the body of every fetch that did not fail. */
  function CacheWritesOf(c: Completed): seq<(string, Option<Payload>)> {
    if FetchFailed(c) then [] else [(c.orderId, if c.reply.FetchedBody? then c.reply.body else None)]
  }

  /** Every line is either a warning or a raw item, never both; every raw item
      carries the line's quantity rule and the order's shipping name. */
  lemma {:induction false} LinesSplit(order: Order, orderId: string, items: seq<LineItem>)
    ensures |LineWarnings(orderId, items)| + |LineRaws(order, items)| == |items|
    ensures forall w :: w in LineWarnings(orderId, items) ==> w == MissingIdWarning(orderId)
    ensures forall r :: r in LineRaws(order, items) ==>
              r.scryfallId != "" && r.shipName == order.shipName && r.orderRef == OrderRef(order.shipName, order.orderLabel)
    decreases |items|
  {
    if items != [] {
      LinesSplit(order, orderId, items[..|items| - 1]);
    }
  }

  /** The sum of the raw items' quantities. */
  function RawQtySum(raws: seq<RawItem>): int {
    if raws == [] then 0 else RawQtySum(raws[..|raws| - 1]) + raws[|raws| - 1].quantity
  }

  /** The sum of the quantities of the lines without a catalog id. */
  function MissingQtySum(items: seq<LineItem>): int {
    if items == [] then 0
    else MissingQtySum(items[..|items| - 1]) + (if HasId(items[|items| - 1]) then 0 else Logic.LineQty(items[|items| - 1].quantity))
  }

  lemma RawQtySumAppend(a: seq<RawItem>, b: seq<RawItem>)
    ensures RawQtySum(a + b) == RawQtySum(a) + RawQtySum(b)
    decreases |b|
  {
    if b != [] {
      assert (a + b)[..|a + b| - 1] == a + b[..|b| - 1];
      RawQtySumAppend(a, b[..|b| - 1]);
    } else {
      assert a + b == a;
    }
  }

  /** line_items_total counts lines without a catalog id too: it is the quantity of
      the raw items plus that of the lines that only produced a warning. */
  lemma {:induction false} TotalCountsEveryLine(order: Order, items: seq<LineItem>)
    ensures LineTotal(items) == RawQtySum(LineRaws(order, items)) + MissingQtySum(items)
    decreases |items|
  {
    if items != [] {
      var n := |items| - 1;
      TotalCountsEveryLine(order, items[..n]);
      RawQtySumAppend(LineRaws(order, items[..n]), if HasId(items[n]) then
        [RawItem(SingleOf(items[n]).scryfallId.value, Logic.LineQty(items[n].quantity), SingleOf(items[n]),
                 order.shipName, OrderRef(order.shipName, order.orderLabel))] else []);
      if HasId(items[n]) {
        var r := RawItem(SingleOf(items[n]).scryfallId.value, Logic.LineQty(items[n].quantity), SingleOf(items[n]),
                 order.shipName, OrderRef(order.shipName, order.orderLabel));
        assert RawQtySum([r]) == r.quantity by { assert [r][..0] == []; }
      } else {
        assert RawQtySum([]) == 0;
      }
    }
  }

  /** A failed fetch yields exactly one error and none of its lines; a successful one
      yields no error. */
  lemma FetchOutcome(c: Completed)
    ensures FetchFailed(c) ==> ErrorsOf(c) == [FetchErrorMessage(c.orderId, c.reply.error)]
                               && WarningsOf(c) == [] && RawsOf(c) == [] && TotalOf(c) == 0
                               && CacheWritesOf(c) == []
    ensures !FetchFailed(c) ==> ErrorsOf(c) == [] && |CacheWritesOf(c)| == 1
  {
  }

  // ---------------------------------------------------------------------------
  // The fetch loop

  /** The lines of one order (the inner `for item in items` loop). */
  method ExtractLines(orderId: string, order: Order)
    returns (warnings: seq<string>, raws: seq<RawItem>, total: int)
    ensures warnings == LineWarnings(orderId, ItemsOf(order))
    ensures raws == LineRaws(order, ItemsOf(order))
    ensures total == LineTotal(ItemsOf(order))
  {
    var items := ItemsOf(order);
    warnings, raws, total := [], [], 0;
    for i := 0 to |items|
      invariant warnings == LineWarnings(orderId, items[..i])
      invariant raws == LineRaws(order, items[..i])
      invariant total == LineTotal(items[..i])
    {
      assert items[..i + 1][..i] == items[..i];
      var item := items[i];
      var qty := Logic.LineQty(item.quantity);
      total := total + qty;
      var single := SingleOf(item);
      if !Truthy(single.scryfallId) {
        warnings := warnings + [MissingIdWarning(orderId)];
        continue;
      }
      var orderRef := OrderRef(order.shipName, order.orderLabel);
      raws := raws + [RawItem(single.scryfallId.value, qty, single, order.shipName, orderRef)];
    }
    assert items[..|items|] == items;
  }

  /** What the fetch loop accumulates. */
  datatype Collected = Collected(
    errors: seq<string>,
    warnings: seq<string>,
    raws: seq<RawItem>,
    lineItems: int,
    cacheWrites: seq<(string, Option<Payload>)>)

  /** The accumulation over the fetches in the order they completed. */
  function CollectSpec(completion: seq<Completed>): Collected {
    Collected(FlatMap(completion, ErrorsOf), FlatMap(completion, WarningsOf), FlatMap(completion, RawsOf),
              SumOf(completion, TotalOf), FlatMap(completion, CacheWritesOf))
  }

  /** The `for fut in as_completed(futures)` loop. */
  method Collect(completion: seq<Completed>) returns (r: Collected)
    ensures r == CollectSpec(completion)
  {
    var errors: seq<string> := [];
    var warnings: seq<string> := [];
    var raws: seq<RawItem> := [];
    var total := 0;
    var writes: seq<(string, Option<Payload>)> := [];
    for i := 0 to |completion|
      invariant Collected(errors, warnings, raws, total, writes) == CollectSpec(completion[..i])
    {
      assert completion[..i + 1][..i] == completion[..i];
      var c := completion[i];
      if c.reply.FetchError? && c.reply.error != "" {
        errors := errors + [FetchErrorMessage(c.orderId, c.reply.error)];
        continue;
      }
      var data := if c.reply.FetchedBody? then c.reply.body else None;
      var order := OrderOf(data);
      writes := writes + [(c.orderId, data)];
      var w, rs, t := ExtractLines(c.orderId, order);
      warnings := warnings + w;
      raws := raws + rs;
      total := total + t;
    }
    assert completion[..|completion|] == completion;
    r := Collected(errors, warnings, raws, total, writes);
  }

  /** Whatever order the fetches complete in, the same errors, warnings and raw
      items are collected (as multisets) and the same line total. */
  lemma CollectOrderIndependent(a: seq<Completed>, b: seq<Completed>)
    requires multiset(a) == multiset(b)
    ensures multiset(CollectSpec(a).errors) == multiset(CollectSpec(b).errors)
    ensures multiset(CollectSpec(a).warnings) == multiset(CollectSpec(b).warnings)
    ensures multiset(CollectSpec(a).raws) == multiset(CollectSpec(b).raws)
    ensures CollectSpec(a).lineItems == CollectSpec(b).lineItems
  {
    FlatMapPermutation(a, b, ErrorsOf);
    FlatMapPermutation(a, b, WarningsOf);
    FlatMapPermutation(a, b, RawsOf);
    SumOfPermutation(a, b, TotalOf);
  }

  /** One error per failed fetch. */
  lemma {:induction false} ErrorsPerFailedFetch(completion: seq<Completed>)
    ensures |CollectSpec(completion).errors| == |FailedFetches(completion)|
    decreases |completion|
  {
    if completion != [] {
      var n := |completion| - 1;
      ErrorsPerFailedFetch(completion[..n]);
    }
  }

  function FailedFetches(completion: seq<Completed>): seq<Completed> {
    if completion == [] then []
    else FailedFetches(completion[..|completion| - 1]) + (if FetchFailed(completion[|completion| - 1]) then [completion[|completion| - 1]] else [])
  }

  // ---------------------------------------------------------------------------
  // Aggregation per catalog id

  /** aggregated[id]: the summed quantity, the single of the first raw item seen for
      the id, and its distinct buyer names and order references (Python sets, kept
      here in the order first seen; only their elements are ever used). */
  datatype Info = Info(quantity: int, single: Single, names: seq<string>, refs: seq<string>)

  /** The aggregated dict: its keys in insertion order, and its entries. */
  datatype Aggregated = Aggregated(keys: seq<string>, info: map<string, Info>)

  /** `if x: s.add(x)`. */
  function AddDistinct(s: seq<string>, x: Option<string>): seq<string> {
    if Truthy(x) && x.value !in s then s + [x.value] else s
  }

  /** One raw item folded in: setdefault, `quantity +=`, and the two set additions. */
  function AddRaw(a: Aggregated, r: RawItem): Aggregated {
    var id := r.scryfallId;
    var prior := if id in a.info then a.info[id] else Info(0, r.single, [], []);
    Aggregated(if id in a.info then a.keys else a.keys + [id],
               a.info[id := Info(prior.quantity + r.quantity, prior.single,
                                 AddDistinct(prior.names, r.shipName), AddDistinct(prior.refs, r.orderRef))])
  }

  /** The aggregation of the raw items, in order. */
  function Aggregate(raws: seq<RawItem>): Aggregated {
    if raws == [] then Aggregated([], map[]) else AddRaw(Aggregate(raws[..|raws| - 1]), raws[|raws| - 1])
  }

  /** The `for item in raw_items` loop. */
  method AggregateRaw(raws: seq<RawItem>) returns (a: Aggregated)
    ensures a == Aggregate(raws)
  {
    var keys: seq<string> := [];
    var info: map<string, Info> := map[];
    for i := 0 to |raws|
      invariant Aggregated(keys, info) == Aggregate(raws[..i])
    {
      AggregateStep(raws, i);
      keys, info := AddItem(keys, info, raws[i]);
    }
    assert raws[..|raws|] == raws;
    a := Aggregated(keys, info);
  }

  lemma AggregateStep(raws: seq<RawItem>, i: nat)
    requires i < |raws|
    ensures Aggregate(raws[..i + 1]) == AddRaw(Aggregate(raws[..i]), raws[i])
  {
    assert raws[..i + 1][..i] == raws[..i];
  }

  /** The body of that loop for one raw item. */
  method AddItem(keys: seq<string>, info: map<string, Info>, item: RawItem)
    returns (keys': seq<string>, info': map<string, Info>)
    ensures Aggregated(keys', info') == AddRaw(Aggregated(keys, info), item)
  {
    keys', info' := keys, info;
    var id := item.scryfallId;
    if id !in info' {
      keys' := keys' + [id];
      info' := info'[id := Info(0, item.single, [], [])];
    }
    var entry := info'[id];
    var names := entry.names;
    if Truthy(item.shipName) && item.shipName.value !in names {
      names := names + [item.shipName.value];
    }
    var refs := entry.refs;
    if Truthy(item.orderRef) && item.orderRef.value !in refs {
      refs := refs + [item.orderRef.value];
    }
    info' := info'[id := Info(entry.quantity + item.quantity, entry.single, names, refs)];
  }

  /** The quantity of a raw item if it carries the id, else 0. */
  function RawQty(id: string, r: RawItem): int {
    if r.scryfallId == id then r.quantity else 0
  }

  /** The sum of the quantities of the raw items that carry the id. */
  function QtyFor(raws: seq<RawItem>, id: string): int {
    SumOf(raws, (r: RawItem) => RawQty(id, r))
  }

  /** The single of the first raw item that carries the id. */
  function FirstSingle(raws: seq<RawItem>, id: string): Option<Single> {
    if raws == [] then None
    else
      var p := FirstSingle(raws[..|raws| - 1], id);
      if p.Some? then p else if raws[|raws| - 1].scryfallId == id then Some(raws[|raws| - 1].single) else None
  }

  /** The ids, the buyer names and the order references carried by the raw items. */
  ghost function IdsIn(raws: seq<RawItem>): set<string> {
    set r | r in raws :: r.scryfallId
  }

  ghost function NamesFor(raws: seq<RawItem>, id: string): set<string> {
    set r | r in raws && r.scryfallId == id && Truthy(r.shipName) :: r.shipName.value
  }

  ghost function RefsFor(raws: seq<RawItem>, id: string): set<string> {
    set r | r in raws && r.scryfallId == id && Truthy(r.orderRef) :: r.orderRef.value
  }

  /** The entry of one id, as the aggregation defines it. */
  ghost predicate EntryMeans(raws: seq<RawItem>, id: string, e: Info) {
    && e.quantity == QtyFor(raws, id)
    && Some(e.single) == FirstSingle(raws, id)
    && Ordering.NoDuplicates(e.names) && (forall n :: n in e.names <==> n in NamesFor(raws, id))
    && Ordering.NoDuplicates(e.refs) && (forall n :: n in e.refs <==> n in RefsFor(raws, id))
  }

  /** The aggregation, stated id by id: its keys are each id carried by a raw item,
      once (their order is AggregateKeyOrder's); each entry sums that id's quantities, keeps
      the single of its first raw item and holds the distinct truthy names and refs. */
  ghost predicate AggregateMeans(raws: seq<RawItem>, a: Aggregated) {
    && Ordering.NoDuplicates(a.keys)
    && (forall k :: k in a.keys <==> k in a.info)
    && a.info.Keys == IdsIn(raws)
    && (forall id :: id in a.info ==> EntryMeans(raws, id, a.info[id]))
  }

  lemma AddDistinctMeans(s: seq<string>, x: Option<string>)
    requires Ordering.NoDuplicates(s)
    ensures Ordering.NoDuplicates(AddDistinct(s, x))
    ensures forall n :: n in AddDistinct(s, x) <==> n in s || (Truthy(x) && n == x.value)
  {
  }

  lemma {:induction false} EntryStep(raws: seq<RawItem>, id: string, e: Info)
    requires raws != []
    requires var n := |raws| - 1; var r := raws[n];
             if r.scryfallId == id then
               var prior := Aggregate(raws[..n]).info;
               (id in prior ==> EntryMeans(raws[..n], id, prior[id])
                                && e == Info(prior[id].quantity + r.quantity, prior[id].single,
                                             AddDistinct(prior[id].names, r.shipName), AddDistinct(prior[id].refs, r.orderRef)))
               && (id !in prior ==> FirstSingle(raws[..n], id) == None && QtyFor(raws[..n], id) == 0
                                    && NamesFor(raws[..n], id) == {} && RefsFor(raws[..n], id) == {}
                                    && e == Info(r.quantity, r.single, AddDistinct([], r.shipName), AddDistinct([], r.orderRef)))
             else EntryMeans(raws[..n], id, e)
    ensures EntryMeans(raws, id, e)
  {
    var n := |raws| - 1;
    var r := raws[n];
    var p := raws[..n];
    assert raws == p + [r];
    assert QtyFor(raws, id) == QtyFor(p, id) + RawQty(id, r);
    if r.scryfallId == id {
      var prior := Aggregate(p).info;
      SetsStep(raws, id);
      if id in prior {
        AddDistinctMeans(prior[id].names, r.shipName);
        AddDistinctMeans(prior[id].refs, r.orderRef);
      } else {
        AddDistinctMeans([], r.shipName);
        AddDistinctMeans([], r.orderRef);
      }
    } else {
      SetsKept(raws, id);
    }
  }

  /** The last raw item carries the id: it adds its truthy name and reference. */
  lemma SetsStep(raws: seq<RawItem>, id: string)
    requires raws != [] && raws[|raws| - 1].scryfallId == id
    ensures var r := raws[|raws| - 1]; var p := raws[..|raws| - 1];
            && NamesFor(raws, id) == NamesFor(p, id) + (if Truthy(r.shipName) then {r.shipName.value} else {})
            && RefsFor(raws, id) == RefsFor(p, id) + (if Truthy(r.orderRef) then {r.orderRef.value} else {})
  {
    var p := raws[..|raws| - 1];
    assert raws == p + [raws[|raws| - 1]];
    assert forall x :: x in raws <==> x in p || x == raws[|raws| - 1];
  }

  /** The last raw item carries another id: the names and references stay. */
  lemma SetsKept(raws: seq<RawItem>, id: string)
    requires raws != [] && raws[|raws| - 1].scryfallId != id
    ensures var p := raws[..|raws| - 1];
            NamesFor(raws, id) == NamesFor(p, id) && RefsFor(raws, id) == RefsFor(p, id)
  {
    var p := raws[..|raws| - 1];
    assert raws == p + [raws[|raws| - 1]];
    assert forall x :: x in raws <==> x in p || x == raws[|raws| - 1];
  }

  /** What the aggregation of an id is when no raw item carries it. */
  lemma AbsentId(raws: seq<RawItem>, id: string)
    requires id !in IdsIn(raws)
    ensures FirstSingle(raws, id) == None && QtyFor(raws, id) == 0
    ensures NamesFor(raws, id) == {} && RefsFor(raws, id) == {}
    decreases |raws|
  {
    if raws != [] {
      var n := |raws| - 1;
      assert raws == raws[..n] + [raws[n]];
      assert IdsIn(raws[..n]) <= IdsIn(raws);
      AbsentId(raws[..n], id);
      assert QtyFor(raws, id) == QtyFor(raws[..n], id) + RawQty(id, raws[n]);
    }
  }

  lemma {:induction false} AggregateMeaning(raws: seq<RawItem>)
    ensures AggregateMeans(raws, Aggregate(raws))
    decreases |raws|
  {
    if raws != [] {
      AggregateMeaning(raws[..|raws| - 1]);
      StepKeys(raws);
      StepEntries(raws);
    }
  }

  /** The position of the first raw item carrying the id; |raws| when none does. */
  ghost function FirstAt(raws: seq<RawItem>, id: string): (r: nat)
    ensures r <= |raws| && (r == |raws| <==> id !in IdsIn(raws))
    ensures r < |raws| ==> raws[r].scryfallId == id
    ensures forall q :: 0 <= q < r ==> raws[q].scryfallId != id
    decreases |raws|
  {
    if raws == [] then 0
    else
      var n := |raws| - 1;
      assert raws == raws[..n] + [raws[n]];
      if id in IdsIn(raws[..n]) then FirstAt(raws[..n], id)
      else if raws[n].scryfallId == id then n
      else n + 1
  }

  /** The dict's keys in insertion order: each id first seen before the next. */
  ghost predicate FirstSeenOrder(raws: seq<RawItem>, keys: seq<string>) {
    forall i, j :: 0 <= i < j < |keys| ==> FirstAt(raws, keys[i]) < FirstAt(raws, keys[j])
  }

  /** The aggregated keys come in the order their ids first appear among the raw
      items (a dict keeps insertion order, and setdefault inserts on first sight). */
  lemma {:induction false} AggregateKeyOrder(raws: seq<RawItem>)
    ensures FirstSeenOrder(raws, Aggregate(raws).keys)
    ensures forall k :: k in Aggregate(raws).keys ==> FirstAt(raws, k) < |raws|
    decreases |raws|
  {
    if raws != [] {
      var n := |raws| - 1;
      var p := raws[..n];
      AggregateKeyOrder(p);
      AggregateMeaning(p);
      var a := Aggregate(p);
      var b := Aggregate(raws);
      assert raws == p + [raws[n]];
      forall k | k in a.keys ensures FirstAt(raws, k) == FirstAt(p, k) < n {
        assert k in IdsIn(p);
      }
      if raws[n].scryfallId !in a.info {
        assert raws[n].scryfallId !in IdsIn(p);
        assert FirstAt(raws, raws[n].scryfallId) == n;
      }
    }
  }

  /** Folding in the last raw item keeps the keys distinct and adds its id. */
  lemma StepKeys(raws: seq<RawItem>)
    requires raws != []
    requires var p := raws[..|raws| - 1]; AggregateMeans(p, Aggregate(p))
    ensures var b := Aggregate(raws);
            && Ordering.NoDuplicates(b.keys) && (forall k :: k in b.keys <==> k in b.info)
            && b.info.Keys == IdsIn(raws)
  {
    var n := |raws| - 1;
    var p := raws[..n];
    var r := raws[n];
    assert raws == p + [r];
    assert IdsIn(raws) == IdsIn(p) + {r.scryfallId};
  }

  /** Folding in the last raw item gives every entry its meaning. */
  lemma StepEntries(raws: seq<RawItem>)
    requires raws != []
    requires var p := raws[..|raws| - 1]; AggregateMeans(p, Aggregate(p))
    ensures forall id :: id in Aggregate(raws).info ==> EntryMeans(raws, id, Aggregate(raws).info[id])
  {
    var n := |raws| - 1;
    var p := raws[..n];
    var r := raws[n];
    var a := Aggregate(p);
    var b := Aggregate(raws);
    assert b == AddRaw(a, r);
    if r.scryfallId !in a.info {
      assert r.scryfallId !in IdsIn(p);
      AbsentId(p, r.scryfallId);
    }
    forall id | id in b.info ensures EntryMeans(raws, id, b.info[id]) {
      EntryStep(raws, id, b.info[id]);
    }
  }

  /** Whatever order the raw items arrive in, the aggregation has the same ids, the
      same quantities, and the same sets of names and references. */
  lemma AggregateOrderIndependent(a: seq<RawItem>, b: seq<RawItem>, id: string)
    requires multiset(a) == multiset(b)
    ensures Aggregate(a).info.Keys == Aggregate(b).info.Keys
    ensures id in Aggregate(a).info ==>
              Aggregate(a).info[id].quantity == Aggregate(b).info[id].quantity
              && multiset(Aggregate(a).info[id].names) == multiset(Aggregate(b).info[id].names)
              && multiset(Aggregate(a).info[id].refs) == multiset(Aggregate(b).info[id].refs)
  {
    SameRaws(a, b, id);
    KeysAreIds(a);
    KeysAreIds(b);
    if id in Aggregate(a).info {
      EntryIsMeant(a, id);
      EntryIsMeant(b, id);
      Ordering.SameSetSameMultiset(Aggregate(a).info[id].names, Aggregate(b).info[id].names);
      Ordering.SameSetSameMultiset(Aggregate(a).info[id].refs, Aggregate(b).info[id].refs);
    }
  }

  /** Two arrangements of the same raw items carry the same ids, and for each id the
      same total quantity, names and references. */
  lemma SameRaws(a: seq<RawItem>, b: seq<RawItem>, id: string)
    requires multiset(a) == multiset(b)
    ensures IdsIn(a) == IdsIn(b) && QtyFor(a, id) == QtyFor(b, id)
    ensures NamesFor(a, id) == NamesFor(b, id) && RefsFor(a, id) == RefsFor(b, id)
  {
    assert forall x :: x in a <==> x in b by {
      forall x ensures x in a <==> x in b {
        assert x in a <==> x in multiset(a);
        assert x in b <==> x in multiset(b);
      }
    }
    SumOfPermutation(a, b, (r: RawItem) => RawQty(id, r));
  }

  lemma KeysDistinct(raws: seq<RawItem>)
    ensures Ordering.NoDuplicates(Aggregate(raws).keys)
    ensures forall k :: k in Aggregate(raws).keys <==> k in Aggregate(raws).info
  {
    AggregateMeaning(raws);
  }

  lemma KeysAreIds(raws: seq<RawItem>)
    ensures Aggregate(raws).info.Keys == IdsIn(raws)
  {
    AggregateMeaning(raws);
  }

  lemma EntryIsMeant(raws: seq<RawItem>, id: string)
    requires id in Aggregate(raws).info
    ensures EntryMeans(raws, id, Aggregate(raws).info[id])
  {
    AggregateMeaning(raws);
  }

  /** The representative single is not order independent: when two orders carry the
      same card with different singles (another condition or finish, say), the one
      whose fetch completed first is kept. */
  lemma SingleDependsOnOrder(r1: RawItem, r2: RawItem)
    requires r1.scryfallId == r2.scryfallId && r1.single != r2.single
    ensures multiset([r1, r2]) == multiset([r2, r1])
    ensures Aggregate([r1, r2]).info[r1.scryfallId].single != Aggregate([r2, r1]).info[r1.scryfallId].single
  {
    var k := r1.scryfallId;
    assert [r1, r2][..1] == [r1] && [r2, r1][..1] == [r2];
    assert [r1][..0] == [] && [r2][..0] == [];
    assert Aggregate([r1]).info[k].single == r1.single;
    assert Aggregate([r2]).info[k].single == r2.single;
    assert Aggregate([r1, r2]) == AddRaw(Aggregate([r1]), r2);
    assert Aggregate([r2, r1]) == AddRaw(Aggregate([r2]), r1);
  }

  // ---------------------------------------------------------------------------
  // Batch items

  const FinishCodes: set<string> := {"NF", "FO", "EF"}
  const ConditionCodes: set<string> := {"NM", "LP", "MP", "HP", "DMG"}

  /** _map_finish. */
  function MapFinish(finishId: Option<string>): (r: Option<string>)
    ensures r.None? <==> finishId.None? || finishId.value !in FinishCodes
    ensures r.Some? ==> r.value in {"Normal", "Foil", "Etched"}
  {
    match finishId
      case Some("NF") => Some("Normal")
      case Some("FO") => Some("Foil")
      case Some("EF") => Some("Etched")
      case _ => None
  }

  /** The finish table, code by code. */
  lemma MapFinishTable()
    ensures MapFinish(Some("NF")) == Some("Normal")
    ensures MapFinish(Some("FO")) == Some("Foil")
    ensures MapFinish(Some("EF")) == Some("Etched")
    ensures MapFinish(Some("nf")) == None && MapFinish(None) == None
  {
    assert "nf" !in FinishCodes;
  }

  /** _map_condition: the five condition codes pass through, anything else is None. */
  function MapCondition(conditionId: Option<string>): (r: Option<string>)
    ensures r.Some? <==> conditionId.Some? && conditionId.value in ConditionCodes
    ensures r.Some? ==> r == conditionId
  {
    if conditionId.Some? && conditionId.value in ConditionCodes then conditionId else None
  }

  /** `x = a` then `if not x: x = b`. */
  function Prefer(a: Option<string>, b: Option<string>): (r: Option<string>)
    ensures Truthy(a) ==> r == a
    ensures !Truthy(a) ==> r == b
  {
    if Truthy(a) then a else b
  }

  /** sep.join(sorted(values)) or None. */
  function Provenance(values: seq<string>, sep: string): Option<string> {
    NoneIfEmpty(Join(Ordering.SortStrings(values), sep))
  }

  /** The stored names and references depend only on which values were collected,
      not on the order they were collected in; they are None exactly when nothing
      was collected. */
  lemma ProvenanceFacts(a: seq<string>, b: seq<string>, sep: string)
    requires multiset(a) == multiset(b)
    requires forall k :: 0 <= k < |a| ==> a[k] != ""
    ensures Provenance(a, sep) == Provenance(b, sep)
    ensures Provenance(a, sep) == None <==> a == []
  {
    Ordering.SortStringsPermutation(a, b);
    var sorted := Ordering.SortStrings(a);
    forall k | 0 <= k < |sorted| ensures sorted[k] != "" {
      assert sorted[k] in multiset(sorted);
    }
    JoinEmpty(sorted, sep);
    if a == [] { } else {
      assert a[0] in multiset(sorted);
    }
  }

  /** The catalog card's name, set code and collector number, when the card is found. */
  function CardName(card: Option<Scryfall.Card>): Option<string> {
    if Scryfall.Found(card) then card.value.name else None
  }

  function CardSet(card: Option<Scryfall.Card>): Option<string> {
    if Scryfall.Found(card) then card.value.setCode else None
  }

  function CardNumber(card: Option<Scryfall.Card>): Option<string> {
    if Scryfall.Found(card) then card.value.collectorNumber else None
  }

  /** The batch_items row built for one aggregated id; `card` is what
      fetch_card_by_id returned for it. */
  function BuildItem(batchId: int, scryfallId: string, info: Info, card: Option<Scryfall.Card>): BatchItem {
    var single := info.single;
    var cardName := Prefer(CardName(card), single.name);
    var setCode := Prefer(CardSet(card), single.setCode);
    var number := Prefer(CardNumber(card), single.number);
    BatchItem(batchId, Some("Magic"), Some(Lower(OrEmpty(setCode))), Some(OrEmpty(cardName)), NoneIfEmpty(OrEmpty(number)),
              Some(scryfallId), info.quantity, 0, MapCondition(single.conditionId), single.languageId,
              MapFinish(single.finishId), None, None, Provenance(info.names, ", "), Provenance(info.refs, "; "))
  }

  /** The row belongs to the batch and the id, requires the summed quantity, starts
      unpicked as a Magic card, has a lowercase set code and a name, never an empty
      collector number, and the mapped condition, language and finish of the single. */
  lemma BuildItemFacts(batchId: int, scryfallId: string, info: Info, card: Option<Scryfall.Card>)
    ensures var r := BuildItem(batchId, scryfallId, info, card);
            && r.batchId == batchId && r.scryfallId == Some(scryfallId)
            && r.qtyRequired == info.quantity && r.qtyPicked == 0 && r.game == Some("Magic")
            && r.setCode.Some? && r.cardName.Some? && (r.collectorNumber.Some? ==> r.collectorNumber.value != "")
            && (forall i :: 0 <= i < |r.setCode.value| ==> !('A' <= r.setCode.value[i] <= 'Z'))
            && r.condition == MapCondition(info.single.conditionId)
            && r.language == info.single.languageId && r.printing == MapFinish(info.single.finishId)
  {
  }

  /** Each of name, set and number comes from the catalog card when the card is
      found and has it, and from the order's single otherwise. */
  lemma BuildItemFallback(batchId: int, scryfallId: string, info: Info, card: Option<Scryfall.Card>)
    ensures var r := BuildItem(batchId, scryfallId, info, card);
            && (Scryfall.Found(card) && Truthy(card.value.name) ==> r.cardName == card.value.name)
            && (!Truthy(CardName(card)) ==> r.cardName == Some(OrEmpty(info.single.name)))
            && (Scryfall.Found(card) && Truthy(card.value.setCode) ==> r.setCode == Some(Lower(card.value.setCode.value)))
            && (!Truthy(CardSet(card)) ==> r.setCode == Some(Lower(OrEmpty(info.single.setCode))))
            && (Scryfall.Found(card) && Truthy(card.value.collectorNumber) ==> r.collectorNumber == card.value.collectorNumber)
            && (!Truthy(CardNumber(card)) ==> r.collectorNumber == NoneIfEmpty(OrEmpty(info.single.number)))
            && r.orderNames == Provenance(info.names, ", ") && r.orderRefs == Provenance(info.refs, "; ")
  {
  }

  /** The rows for the aggregated ids, in the dict's insertion order. */
  function ItemsFor(batchId: int, a: Aggregated, cards: string -> Option<Scryfall.Card>): (r: seq<BatchItem>)
    requires forall k :: k in a.keys ==> k in a.info
    ensures |r| == |a.keys|
  {
    seq(|a.keys|, i requires 0 <= i < |a.keys| => BuildItem(batchId, a.keys[i], a.info[a.keys[i]], cards(a.keys[i])))
  }

  /** The `for scryfall_id, info in aggregated.items()` loop that inserts the rows. */
  method Materialize(batchId: int, a: Aggregated, cards: string -> Option<Scryfall.Card>) returns (items: seq<BatchItem>)
    requires forall k :: k in a.keys ==> k in a.info
    ensures items == ItemsFor(batchId, a, cards)
  {
    items := [];
    ghost var spec := ItemsFor(batchId, a, cards);
    for i := 0 to |a.keys|
      invariant items == spec[..i]
    {
      var id := a.keys[i];
      var row := BuildItem(batchId, id, a.info[id], cards(id));
      ItemsForStep(batchId, a, cards, i);
      items := items + [row];
    }
    assert spec[..|a.keys|] == spec;
  }

  lemma ItemsForStep(batchId: int, a: Aggregated, cards: string -> Option<Scryfall.Card>, i: nat)
    requires forall k :: k in a.keys ==> k in a.info
    requires i < |a.keys|
    ensures ItemsFor(batchId, a, cards)[..i + 1]
            == ItemsFor(batchId, a, cards)[..i] + [BuildItem(batchId, a.keys[i], a.info[a.keys[i]], cards(a.keys[i]))]
  {
    var spec := ItemsFor(batchId, a, cards);
    var row := BuildItem(batchId, a.keys[i], a.info[a.keys[i]], cards(a.keys[i]));
    assert spec[i] == row;
    SnocPrefix(spec, i);
  }

  lemma SnocPrefix<T>(s: seq<T>, i: nat)
    requires i < |s|
    ensures s[..i + 1] == s[..i] + [s[i]]
  {
  }

  /** Exactly one row per aggregated id. */
  lemma OneItemPerId(batchId: int, raws: seq<RawItem>, cards: string -> Option<Scryfall.Card>)
    ensures var a := Aggregate(raws);
            AggregateMeans(raws, a)
            && var items := ItemsFor(batchId, a, cards);
            && (forall i, j :: 0 <= i < j < |items| ==> items[i].scryfallId != items[j].scryfallId)
            && (forall id :: id in a.info <==> exists i :: 0 <= i < |items| && items[i].scryfallId == Some(id))
            && (forall i :: 0 <= i < |items| ==> items[i].qtyRequired == QtyFor(raws, items[i].scryfallId.value))
  {
    AggregateMeaning(raws);
    RowsPerKey(batchId, raws, cards);
  }

  lemma RowsPerKey(batchId: int, raws: seq<RawItem>, cards: string -> Option<Scryfall.Card>)
    ensures var a := Aggregate(raws);
            (forall k :: k in a.keys ==> k in a.info)
            && var items := ItemsFor(batchId, a, cards);
            && (forall i, j :: 0 <= i < j < |items| ==> items[i].scryfallId != items[j].scryfallId)
            && (forall id :: id in a.info <==> exists i :: 0 <= i < |items| && items[i].scryfallId == Some(id))
            && (forall i :: 0 <= i < |items| ==> items[i].qtyRequired == QtyFor(raws, items[i].scryfallId.value))
  {
    KeysDistinct(raws);
    QuantitiesMeant(raws);
    var a := Aggregate(raws);
    RowsFollowKeys(batchId, a, cards);
    RowsOfKeys(raws, a, ItemsFor(batchId, a, cards));
  }

  lemma QuantitiesMeant(raws: seq<RawItem>)
    ensures forall k :: k in Aggregate(raws).info ==> Aggregate(raws).info[k].quantity == QtyFor(raws, k)
  {
    AggregateMeaning(raws);
  }

  /** Rows that follow distinct keys one to one carry distinct ids, one per key. */
  lemma RowsOfKeys(raws: seq<RawItem>, a: Aggregated, items: seq<BatchItem>)
    requires Ordering.NoDuplicates(a.keys) && (forall k :: k in a.keys <==> k in a.info)
    requires forall k :: k in a.info ==> a.info[k].quantity == QtyFor(raws, k)
    requires |items| == |a.keys|
    requires forall i :: 0 <= i < |items| ==>
               items[i].scryfallId == Some(a.keys[i]) && items[i].qtyRequired == a.info[a.keys[i]].quantity
    ensures forall i, j :: 0 <= i < j < |items| ==> items[i].scryfallId != items[j].scryfallId
    ensures forall id :: id in a.info <==> exists i :: 0 <= i < |items| && items[i].scryfallId == Some(id)
    ensures forall i :: 0 <= i < |items| ==> items[i].qtyRequired == QtyFor(raws, items[i].scryfallId.value)
  {
    forall id | id in a.info ensures exists i :: 0 <= i < |items| && items[i].scryfallId == Some(id) {
      var i :| 0 <= i < |a.keys| && a.keys[i] == id;
      assert items[i].scryfallId == Some(id);
    }
  }

  /** Row i is built for the i-th key, with that key's quantity. */
  lemma RowsFollowKeys(batchId: int, a: Aggregated, cards: string -> Option<Scryfall.Card>)
    requires forall k :: k in a.keys ==> k in a.info
    ensures var items := ItemsFor(batchId, a, cards);
            forall i :: 0 <= i < |items| ==>
              items[i].scryfallId == Some(a.keys[i]) && items[i].qtyRequired == a.info[a.keys[i]].quantity
  {
  }

  // ---------------------------------------------------------------------------
  // The whole sync

  /** An entry of the unfulfilled-orders listing. */
  datatype ListedOrder = ListedOrder(id: Option<string>)

  /** `[o.get('id') for o in orders if o.get('id')]`. */
  function OrderIds(orders: seq<ListedOrder>): (r: seq<string>)
    ensures |r| <= |orders|
    ensures forall x :: x in r ==> x != ""
  {
    if orders == [] then []
    else
      var o := orders[|orders| - 1];
      OrderIds(orders[..|orders| - 1]) + (if Truthy(o.id) then [o.id.value] else [])
  }

  function CompletedIds(completion: seq<Completed>): seq<string> {
    seq(|completion|, i requires 0 <= i < |completion| => completion[i].orderId)
  }

  datatype Summary = Summary(ordersScanned: int, lineItems: int, uniqueCards: int, warnings: seq<string>, errors: seq<string>)

  /** The outcome of the sync endpoint: HTTP 400 when the marketplace is not
      configured, HTTP 502 when the listing fails (both logged as 'error'), else the
      summary, the rows inserted, the log status and error, and the orders-cache
      writes. */
  datatype SyncResult =
    | NotConfigured
    | ListingFailed(error: string)
    | Generated(summary: Summary, items: seq<BatchItem>, status: string, logError: Option<string>,
                cacheWrites: seq<(string, Option<Payload>)>)

  function HttpStatus(r: SyncResult): int {
    match r
      case NotConfigured => 400
      case ListingFailed(_) => 502
      case Generated(_, _, _, _, _) => 200
  }

  /** The sync after a successful listing. */
  function GenerateSpec(orderIds: seq<string>, completion: seq<Completed>, cards: string -> Option<Scryfall.Card>, batchId: int): SyncResult {
    var c := CollectSpec(completion);
    var a := Aggregate(c.raws);
    AggregateMeaning(c.raws);
    Generated(Summary(|orderIds|, c.lineItems, |a.info|, c.warnings, c.errors),
              ItemsFor(batchId, a, cards),
              if c.errors == [] then "ok" else "partial",
              if c.errors == [] then None else Some(Join(c.errors, "; ")),
              c.cacheWrites)
  }

  /** generate_from_manapool. `completion` is the fetches of the listed order ids in
      the order they completed (each submitted fetch completes once); `cards` is
      fetch_card_by_id's result per catalog id. */
  method GenerateFromManapool(configured: bool, listing: ManaPool.Listing<ListedOrder>, completion: seq<Completed>,
                              cards: string -> Option<Scryfall.Card>, batchId: int)
    returns (r: SyncResult)
    requires listing.Listed? ==> multiset(CompletedIds(completion)) == multiset(OrderIds(listing.orders))
    ensures !configured ==> r == NotConfigured
    ensures configured && listing.ListError? ==> r == ListingFailed(listing.message)
    ensures configured && listing.Listed? ==> r == GenerateSpec(OrderIds(listing.orders), completion, cards, batchId)
  {
    if !configured {
      return NotConfigured;
    }
    if listing.ListError? {
      return ListingFailed(listing.message);
    }
    var orderIds := OrderIds(listing.orders);
    var collected := Collect(completion);
    var aggregated := AggregateRaw(collected.raws);
    AggregateMeaning(collected.raws);
    var items := Materialize(batchId, aggregated, cards);
    var summary := Summary(|orderIds|, collected.lineItems, |aggregated.info|, collected.warnings, collected.errors);
    var status := if collected.errors == [] then "ok" else "partial";
    var logError := if collected.errors == [] then None else Some(Join(collected.errors, "; "));
    r := Generated(summary, items, status, logError, collected.cacheWrites);
  }

  lemma {:induction false} DistinctCount(s: seq<string>)
    requires Ordering.NoDuplicates(s)
    ensures |set x | x in s| == |s|
    decreases |s|
  {
    if s != [] {
      var n := |s| - 1;
      DistinctCount(s[..n]);
      assert (set x | x in s) == (set x | x in s[..n]) + {s[n]};
      assert s[n] !in s[..n];
    }
  }

  /** The summary agrees with what was built: one row per counted card, the status
      is 'ok' exactly when no fetch failed, and every failure is in the log error. */
  lemma GeneratedFacts(orderIds: seq<string>, completion: seq<Completed>, cards: string -> Option<Scryfall.Card>, batchId: int)
    ensures var r := GenerateSpec(orderIds, completion, cards, batchId);
            && r.Generated?
            && r.summary.ordersScanned == |orderIds|
            && |r.items| == r.summary.uniqueCards
            && (r.status == "ok" <==> r.summary.errors == [])
            && (r.status == "partial" <==> r.summary.errors != [])
            && (r.logError.None? <==> r.summary.errors == [])
            && |r.summary.errors| == |FailedFetches(completion)|
            && (forall i :: 0 <= i < |r.items| ==> r.items[i].qtyPicked == 0 && r.items[i].game == Some("Magic"))
  {
    var c := CollectSpec(completion);
    var a := Aggregate(c.raws);
    KeysDistinct(c.raws);
    DistinctCount(a.keys);
    assert (set x | x in a.keys) == a.info.Keys;
    ErrorsPerFailedFetch(completion);
  }

  /** Whatever order the fetches complete in, the sync reports the same counts and
      status, the same errors and warnings (as multisets), the same card ids, and
      for each id the same quantity, buyer names and order references. */
  lemma GenerateOrderIndependent(orderIds: seq<string>, c1: seq<Completed>, c2: seq<Completed>,
                                 cards: string -> Option<Scryfall.Card>, batchId: int, id: string)
    requires multiset(c1) == multiset(c2)
    ensures var r1 := GenerateSpec(orderIds, c1, cards, batchId);
            var r2 := GenerateSpec(orderIds, c2, cards, batchId);
            && r1.summary.ordersScanned == r2.summary.ordersScanned
            && r1.summary.lineItems == r2.summary.lineItems
            && r1.summary.uniqueCards == r2.summary.uniqueCards
            && multiset(r1.summary.errors) == multiset(r2.summary.errors)
            && multiset(r1.summary.warnings) == multiset(r2.summary.warnings)
            && r1.status == r2.status
    ensures var a1 := Aggregate(CollectSpec(c1).raws);
            var a2 := Aggregate(CollectSpec(c2).raws);
            && a1.info.Keys == a2.info.Keys
            && (id in a1.info ==>
                  var i1 := BuildItem(batchId, id, a1.info[id], cards(id));
                  var i2 := BuildItem(batchId, id, a2.info[id], cards(id));
                  i1.qtyRequired == i2.qtyRequired && i1.orderNames == i2.orderNames && i1.orderRefs == i2.orderRefs)
  {
    CollectOrderIndependent(c1, c2);
    var s1 := CollectSpec(c1).raws;
    var s2 := CollectSpec(c2).raws;
    AggregateOrderIndependent(s1, s2, id);
    var a1 := Aggregate(s1);
    var a2 := Aggregate(s2);
    assert |a1.info| == |a1.info.Keys| == |a2.info.Keys| == |a2.info|;
    assert CollectSpec(c1).errors == [] <==> CollectSpec(c2).errors == [] by {
      assert |multiset(CollectSpec(c1).errors)| == |CollectSpec(c1).errors|;
      assert |multiset(CollectSpec(c2).errors)| == |CollectSpec(c2).errors|;
    }
    if id in a1.info {
      EntryIsMeant(s1, id);
      EntryIsMeant(s2, id);
      NamesNonEmpty(s1, a1.info[id].names, NamesFor(s1, id), id);
      NamesNonEmpty(s1, a1.info[id].refs, RefsFor(s1, id), id);
      ProvenanceFacts(a1.info[id].names, a2.info[id].names, ", ");
      ProvenanceFacts(a1.info[id].refs, a2.info[id].refs, "; ");
    }
  }

  lemma NamesNonEmpty(raws: seq<RawItem>, names: seq<string>, values: set<string>, id: string)
    requires values == NamesFor(raws, id) || values == RefsFor(raws, id)
    requires forall n :: n in names <==> n in values
    ensures forall k :: 0 <= k < |names| ==> names[k] != ""
  {
    forall k | 0 <= k < |names| ensures names[k] != "" {
      assert names[k] in values;
    }
  }
}
