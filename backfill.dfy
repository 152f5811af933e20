/** Filling in the buyer names and order references of a batch's items from the
    cached ManaPool orders, for batches built before those columns were populated.

    The orders cache is a map from order id to the parsed raw_json (None for a
    JSON null); an order whose raw_json does not parse is absent from the map, and
    the loop skips it as it skips an uncached id. The list of the cache's ids, in
    the order the table yields them, is an input. The batch_items table is the
    PickStore's items. */
module Backfill {
  import opened Common
  import Ordering
  import opened Items
  import Sync
  import Picking

  // ---------------------------------------------------------------------------
  // Collecting names and references from the cached orders

  /** name_map and ref_map: for each catalog id, the distinct buyer names and order
      references collected for it, in order of first appearance. */
  datatype Provenances = Provenances(names: map<string, seq<string>>, refs: map<string, seq<string>>)

  const NoProvenances := Provenances(map[], map[])

  /** "<ship_name>, #<label>" when the order has a label, else the buyer name alone. */
  function BackfillRef(shipName: string, orderLabel: Option<string>): string {
    if Truthy(orderLabel) then shipName + ", #" + orderLabel.value else shipName
  }

  /** The generator and the backfill agree on references of labelled orders; for an
      order without a label the generator stores no reference while the backfill
      stores the buyer name. */
  lemma BackfillRefVersusGenerator(shipName: string, orderLabel: Option<string>)
    requires shipName != ""
    ensures Truthy(orderLabel) ==> Sync.OrderRef(Some(shipName), orderLabel) == Some(BackfillRef(shipName, orderLabel))
    ensures !Truthy(orderLabel) ==> Sync.OrderRef(Some(shipName), orderLabel) == None && BackfillRef(shipName, orderLabel) == shipName
    ensures BackfillRef(shipName, orderLabel) != ""
  {
  }

  /** `m.get(id)`, with an absent id giving the empty collection. */
  function Seen(m: map<string, seq<string>>, id: string): seq<string> {
    if id in m then m[id] else []
  }

  /** `setdefault(id, set()).add(...)` on both maps. */
  function AddLine(p: Provenances, id: string, name: string, ref: string): Provenances {
    Provenances(p.names[id := Sync.AddDistinct(Seen(p.names, id), Some(name))],
                p.refs[id := Sync.AddDistinct(Seen(p.refs, id), Some(ref))])
  }

  /** The lines of one order, skipping those without a catalog id. */
  function AddLines(p: Provenances, lines: seq<Sync.LineItem>, name: string, ref: string): Provenances {
    if lines == [] then p
    else
      var q := AddLines(p, lines[..|lines| - 1], name, ref);
      var line := lines[|lines| - 1];
      if Sync.HasId(line) then AddLine(q, Sync.SingleOf(line).scryfallId.value, name, ref) else q
  }

  /** The buyer name and the backfill reference of a cached order. */
  function ShipOf(data: Option<Sync.Payload>): string {
    OrEmpty(Sync.OrderOf(data).shipName)
  }

  function RefOf(data: Option<Sync.Payload>): string {
    BackfillRef(ShipOf(data), Sync.OrderOf(data).orderLabel)
  }

  /** One cached order; an order without a buyer name is skipped. */
  function AddOrder(p: Provenances, data: Option<Sync.Payload>): Provenances {
    var order := Sync.OrderOf(data);
    if !Truthy(order.shipName) then p else AddLines(p, Sync.ItemsOf(order), ShipOf(data), RefOf(data))
  }

  /** The `for oid in order_ids` loop; an id that is not cached is skipped. */
  function Gather(orderIds: seq<string>, cache: map<string, Option<Sync.Payload>>): Provenances {
    if orderIds == [] then NoProvenances
    else
      var p := Gather(orderIds[..|orderIds| - 1], cache);
      var oid := orderIds[|orderIds| - 1];
      if oid in cache then AddOrder(p, cache[oid]) else p
  }

  // ---------------------------------------------------------------------------
  // What the collection means

  /** Some line carries the catalog id. */
  ghost predicate LineFor(lines: seq<Sync.LineItem>, sid: string) {
    exists line :: line in lines && Sync.HasId(line) && Sync.SingleOf(line).scryfallId.value == sid
  }

  /** The cached order has a buyer name and a line with the catalog id. */
  ghost predicate Mentions(data: Option<Sync.Payload>, sid: string) {
    Truthy(Sync.OrderOf(data).shipName) && LineFor(Sync.ItemsOf(Sync.OrderOf(data)), sid)
  }

  /** Some listed, cached order mentions the catalog id. */
  ghost predicate MentionedIn(orderIds: seq<string>, cache: map<string, Option<Sync.Payload>>, sid: string) {
    exists oid :: oid in orderIds && oid in cache && Mentions(cache[oid], sid)
  }

  /** n is the buyer name (the reference) of a listed, cached order mentioning the id. */
  ghost predicate NameFrom(orderIds: seq<string>, cache: map<string, Option<Sync.Payload>>, sid: string, n: string) {
    exists oid :: oid in orderIds && oid in cache && Mentions(cache[oid], sid) && n == ShipOf(cache[oid])
  }

  ghost predicate RefFrom(orderIds: seq<string>, cache: map<string, Option<Sync.Payload>>, sid: string, n: string) {
    exists oid :: oid in orderIds && oid in cache && Mentions(cache[oid], sid) && n == RefOf(cache[oid])
  }

  /** A collected set: non-empty, without repeats, of non-empty strings. */
  ghost predicate Entry(s: seq<string>) {
    s != [] && Ordering.NoDuplicates(s) && forall k :: 0 <= k < |s| ==> s[k] != ""
  }

  /** Both maps have the same ids, and every entry is a collected set. */
  ghost predicate WellFormed(p: Provenances) {
    && p.names.Keys == p.refs.Keys
    && (forall sid :: sid in p.names ==> Entry(p.names[sid]) && Entry(p.refs[sid]))
  }

  lemma AddLineMeaning(p: Provenances, id: string, name: string, ref: string)
    requires WellFormed(p) && name != "" && ref != ""
    ensures var q := AddLine(p, id, name, ref);
            && WellFormed(q)
            && q.names.Keys == p.names.Keys + {id}
            && (forall sid, n :: n in Seen(q.names, sid) <==> n in Seen(p.names, sid) || (n == name && sid == id))
            && (forall sid, n :: n in Seen(q.refs, sid) <==> n in Seen(p.refs, sid) || (n == ref && sid == id))
  {
    AddSeen(p.names, id, name);
    AddSeen(p.refs, id, ref);
  }

  /** Adding x to the collection of id in one of the two maps. */
  lemma AddSeen(m: map<string, seq<string>>, id: string, x: string)
    requires x != "" && forall sid :: sid in m ==> Entry(m[sid])
    ensures var m' := m[id := Sync.AddDistinct(Seen(m, id), Some(x))];
            && (forall sid :: sid in m' ==> Entry(m'[sid]))
            && m'.Keys == m.Keys + {id}
            && (forall sid, n :: n in Seen(m', sid) <==> n in Seen(m, sid) || (n == x && sid == id))
  {
    Sync.AddDistinctMeans(Seen(m, id), Some(x));
  }

  lemma LineForStep(lines: seq<Sync.LineItem>, sid: string)
    requires lines != []
    ensures LineFor(lines, sid)
            <==> LineFor(lines[..|lines| - 1], sid)
                 || (Sync.HasId(lines[|lines| - 1]) && Sync.SingleOf(lines[|lines| - 1]).scryfallId.value == sid)
  {
    var last := lines[|lines| - 1];
    assert lines == lines[..|lines| - 1] + [last];
    if LineFor(lines, sid) {
      var line :| line in lines && Sync.HasId(line) && Sync.SingleOf(line).scryfallId.value == sid;
      if line != last {
        assert line in lines[..|lines| - 1];
      }
    }
    if Sync.HasId(last) && Sync.SingleOf(last).scryfallId.value == sid {
      assert last in lines;
    }
  }

  /** An order's lines add its name and reference to exactly the ids its lines carry. */
  lemma {:induction false} AddLinesMeaning(p: Provenances, lines: seq<Sync.LineItem>, name: string, ref: string)
    requires WellFormed(p) && name != "" && ref != ""
    ensures var q := AddLines(p, lines, name, ref);
            && WellFormed(q)
            && (forall sid :: sid in q.names <==> sid in p.names || LineFor(lines, sid))
            && (forall sid, n :: n in Seen(q.names, sid) <==> n in Seen(p.names, sid) || (n == name && LineFor(lines, sid)))
            && (forall sid, n :: n in Seen(q.refs, sid) <==> n in Seen(p.refs, sid) || (n == ref && LineFor(lines, sid)))
  {
    if lines != [] {
      var prefix := lines[..|lines| - 1];
      var line := lines[|lines| - 1];
      AddLinesMeaning(p, prefix, name, ref);
      forall sid ensures LineFor(lines, sid) <==> LineFor(prefix, sid) || (Sync.HasId(line) && Sync.SingleOf(line).scryfallId.value == sid) {
        LineForStep(lines, sid);
      }
      if Sync.HasId(line) {
        AddLineMeaning(AddLines(p, prefix, name, ref), Sync.SingleOf(line).scryfallId.value, name, ref);
      }
    }
  }

  lemma AddOrderMeaning(p: Provenances, data: Option<Sync.Payload>)
    requires WellFormed(p)
    ensures var q := AddOrder(p, data);
            && WellFormed(q)
            && (forall sid :: sid in q.names <==> sid in p.names || Mentions(data, sid))
            && (forall sid, n :: n in Seen(q.names, sid) <==> n in Seen(p.names, sid) || (n == ShipOf(data) && Mentions(data, sid)))
            && (forall sid, n :: n in Seen(q.refs, sid) <==> n in Seen(p.refs, sid) || (n == RefOf(data) && Mentions(data, sid)))
  {
    var order := Sync.OrderOf(data);
    if Truthy(order.shipName) {
      AddLinesMeaning(p, Sync.ItemsOf(order), ShipOf(data), RefOf(data));
    }
  }

  /** The collection, stated id by id: an id has entries exactly when a listed,
      cached order with a buyer name has a line carrying it; its names are the buyer
      names and its references the references of those orders, each once. */
  lemma {:induction false} GatherMeaning(orderIds: seq<string>, cache: map<string, Option<Sync.Payload>>)
    ensures var p := Gather(orderIds, cache);
            && WellFormed(p)
            && (forall sid :: sid in p.names <==> MentionedIn(orderIds, cache, sid))
            && (forall sid, n :: n in Seen(p.names, sid) <==> NameFrom(orderIds, cache, sid, n))
            && (forall sid, n :: n in Seen(p.refs, sid) <==> RefFrom(orderIds, cache, sid, n))
  {
    if orderIds != [] {
      var prefix := orderIds[..|orderIds| - 1];
      var oid := orderIds[|orderIds| - 1];
      assert orderIds == prefix + [oid];
      GatherMeaning(prefix, cache);
      var p := Gather(prefix, cache);
      if oid in cache {
        AddOrderMeaning(p, cache[oid]);
      }
      forall sid ensures MentionedIn(orderIds, cache, sid) <==> MentionedIn(prefix, cache, sid) || (oid in cache && Mentions(cache[oid], sid)) {
        if MentionedIn(orderIds, cache, sid) {
          var o :| o in orderIds && o in cache && Mentions(cache[o], sid);
          if o != oid { assert o in prefix; }
        }
      }
      forall sid, n ensures NameFrom(orderIds, cache, sid, n) <==> NameFrom(prefix, cache, sid, n) || (oid in cache && Mentions(cache[oid], sid) && n == ShipOf(cache[oid])) {
        if NameFrom(orderIds, cache, sid, n) {
          var o :| o in orderIds && o in cache && Mentions(cache[o], sid) && n == ShipOf(cache[o]);
          if o != oid { assert o in prefix; }
        }
      }
      forall sid, n ensures RefFrom(orderIds, cache, sid, n) <==> RefFrom(prefix, cache, sid, n) || (oid in cache && Mentions(cache[oid], sid) && n == RefOf(cache[oid])) {
        if RefFrom(orderIds, cache, sid, n) {
          var o :| o in orderIds && o in cache && Mentions(cache[o], sid) && n == RefOf(cache[o]);
          if o != oid { assert o in prefix; }
        }
      }
    }
  }

  // ---------------------------------------------------------------------------
  // Updating the rows

  /** The rows the backfill selects: this batch's items whose names or references
      are NULL or empty. */
  predicate Selected(row: BatchItem, batchId: int) {
    row.batchId == batchId && (!Truthy(row.orderNames) || !Truthy(row.orderRefs))
  }

  /** The names and references collected for a row's catalog id. */
  function NamesOfRow(row: BatchItem, p: Provenances): seq<string> {
    if row.scryfallId.Some? then Seen(p.names, row.scryfallId.value) else []
  }

  function RefsOfRow(row: BatchItem, p: Provenances): seq<string> {
    if row.scryfallId.Some? then Seen(p.refs, row.scryfallId.value) else []
  }

  /** The UPDATE of one selected row: when anything was collected, each column
      becomes the sorted, joined collection, or keeps its value (COALESCE) when that
      collection is empty. */
  function Fill(row: BatchItem, p: Provenances): BatchItem {
    var names := NamesOfRow(row, p);
    var refs := RefsOfRow(row, p);
    if names != [] || refs != []
    then row.(orderNames := if names != [] then Some(Join(Ordering.SortStrings(names), ", ")) else row.orderNames,
              orderRefs := if refs != [] then Some(Join(Ordering.SortStrings(refs), "; ")) else row.orderRefs)
    else row
  }

  /** `order_ids`, or every cached order id when none are given. */
  function EffectiveIds(orderIds: seq<string>, cachedIds: seq<string>): seq<string> {
    if orderIds != [] then orderIds else cachedIds
  }

  /** The batch_items table after _backfill_order_names. */
  function BackfillSpec(items: map<int, BatchItem>, batchId: int, orderIds: seq<string>,
                        cache: map<string, Option<Sync.Payload>>, cachedIds: seq<string>): map<int, BatchItem>
  {
    var p := Gather(EffectiveIds(orderIds, cachedIds), cache);
    map id | id in items :: if Selected(items[id], batchId) then Fill(items[id], p) else items[id]
  }

  /** A non-empty collection of non-empty strings joins to a non-empty string. */
  lemma EntryJoins(s: seq<string>, sep: string)
    requires Entry(s)
    ensures Join(Ordering.SortStrings(s), sep) != ""
  {
    var sorted := Ordering.SortStrings(s);
    forall k | 0 <= k < |sorted| ensures sorted[k] != "" {
      assert sorted[k] in multiset(sorted);
    }
    assert s[0] in multiset(sorted);
    JoinEmpty(sorted, sep);
  }

  /** A row with something collected gets both columns filled; a row with nothing
      collected is left as it is; only the two columns ever change. */
  lemma FillFacts(row: BatchItem, p: Provenances)
    requires WellFormed(p)
    ensures Fill(row, p).(orderNames := row.orderNames, orderRefs := row.orderRefs) == row
    ensures NamesOfRow(row, p) != [] <==> RefsOfRow(row, p) != []
    ensures NamesOfRow(row, p) != [] ==> Truthy(Fill(row, p).orderNames) && Truthy(Fill(row, p).orderRefs)
    ensures NamesOfRow(row, p) == [] ==> Fill(row, p) == row
  {
    if NamesOfRow(row, p) != [] {
      EntryJoins(NamesOfRow(row, p), ", ");
      EntryJoins(RefsOfRow(row, p), "; ");
    }
  }

  /** The backfill changes only this batch's rows with a blank column, only their
      name and reference columns, and fills both columns of such a row exactly when
      one of the listed, cached orders with a buyer name has a line with its id. */
  lemma BackfillMeaning(items: map<int, BatchItem>, batchId: int, orderIds: seq<string>,
                        cache: map<string, Option<Sync.Payload>>, cachedIds: seq<string>)
    ensures var after := BackfillSpec(items, batchId, orderIds, cache, cachedIds);
            && after.Keys == items.Keys
            && (forall id :: id in items && !Selected(items[id], batchId) ==> after[id] == items[id])
            && (forall id :: id in items ==>
                  after[id].(orderNames := items[id].orderNames, orderRefs := items[id].orderRefs) == items[id])
            && (forall id :: id in items && Selected(items[id], batchId) ==>
                  if items[id].scryfallId.Some? && MentionedIn(EffectiveIds(orderIds, cachedIds), cache, items[id].scryfallId.value)
                  then Truthy(after[id].orderNames) && Truthy(after[id].orderRefs)
                  else after[id] == items[id])
  {
    forall id | id in items {
      BackfillAt(items, batchId, orderIds, cache, cachedIds, id);
    }
  }

  /** BackfillMeaning for one row. */
  lemma BackfillAt(items: map<int, BatchItem>, batchId: int, orderIds: seq<string>,
                   cache: map<string, Option<Sync.Payload>>, cachedIds: seq<string>, id: int)
    requires id in items
    ensures var after := BackfillSpec(items, batchId, orderIds, cache, cachedIds);
            && id in after
            && (!Selected(items[id], batchId) ==> after[id] == items[id])
            && after[id].(orderNames := items[id].orderNames, orderRefs := items[id].orderRefs) == items[id]
            && (Selected(items[id], batchId) ==>
                  if items[id].scryfallId.Some? && MentionedIn(EffectiveIds(orderIds, cachedIds), cache, items[id].scryfallId.value)
                  then Truthy(after[id].orderNames) && Truthy(after[id].orderRefs)
                  else after[id] == items[id])
  {
    var ids := EffectiveIds(orderIds, cachedIds);
    var p := Gather(ids, cache);
    GatherKeys(ids, cache);
    FillFacts(items[id], p);
  }

  /** The collection is well formed and holds exactly the mentioned ids. */
  lemma GatherKeys(orderIds: seq<string>, cache: map<string, Option<Sync.Payload>>)
    ensures WellFormed(Gather(orderIds, cache))
    ensures forall sid :: sid in Gather(orderIds, cache).names <==> MentionedIn(orderIds, cache, sid)
  {
    GatherMeaning(orderIds, cache);
  }

  /** Running the backfill twice is the same as running it once. */
  lemma BackfillIdempotent(items: map<int, BatchItem>, batchId: int, orderIds: seq<string>,
                           cache: map<string, Option<Sync.Payload>>, cachedIds: seq<string>)
    ensures var once := BackfillSpec(items, batchId, orderIds, cache, cachedIds);
            BackfillSpec(once, batchId, orderIds, cache, cachedIds) == once
  {
    var p := Gather(EffectiveIds(orderIds, cachedIds), cache);
    GatherKeys(EffectiveIds(orderIds, cachedIds), cache);
    var once := BackfillSpec(items, batchId, orderIds, cache, cachedIds);
    var twice := BackfillSpec(once, batchId, orderIds, cache, cachedIds);
    forall id | id in once
      ensures twice[id] == once[id]
    {
      FillFacts(items[id], p);
      FillFacts(once[id], p);
    }
  }

  /** Two collections with the same elements, each without repeats, store the same
      joined text. */
  lemma SameJoin(a: seq<string>, b: seq<string>, sep: string)
    requires Ordering.NoDuplicates(a) && Ordering.NoDuplicates(b)
    requires forall x :: x in a <==> x in b
    ensures a == [] <==> b == []
    ensures Join(Ordering.SortStrings(a), sep) == Join(Ordering.SortStrings(b), sep)
  {
    if a != [] { assert a[0] in b; }
    if b != [] { assert b[0] in a; }
    Ordering.SameSetSameMultiset(a, b);
    Ordering.SortStringsPermutation(a, b);
  }

  /** Two lists of order ids with the same elements collect, for each catalog id,
      the same names and the same references. */
  lemma GatherSameElements(a: seq<string>, b: seq<string>, cache: map<string, Option<Sync.Payload>>, sid: string)
    requires forall oid :: oid in a <==> oid in b
    ensures var p := Gather(a, cache);
            var q := Gather(b, cache);
            && Ordering.NoDuplicates(Seen(p.names, sid)) && Ordering.NoDuplicates(Seen(q.names, sid))
            && Ordering.NoDuplicates(Seen(p.refs, sid)) && Ordering.NoDuplicates(Seen(q.refs, sid))
            && (forall n :: n in Seen(p.names, sid) <==> n in Seen(q.names, sid))
            && (forall n :: n in Seen(p.refs, sid) <==> n in Seen(q.refs, sid))
  {
    GatherMeaning(a, cache);
    GatherMeaning(b, cache);
    forall n ensures NameFrom(a, cache, sid, n) <==> NameFrom(b, cache, sid, n) {
      if NameFrom(a, cache, sid, n) {
        var o :| o in a && o in cache && Mentions(cache[o], sid) && n == ShipOf(cache[o]);
        assert o in b;
      }
      if NameFrom(b, cache, sid, n) {
        var o :| o in b && o in cache && Mentions(cache[o], sid) && n == ShipOf(cache[o]);
        assert o in a;
      }
    }
    forall n ensures RefFrom(a, cache, sid, n) <==> RefFrom(b, cache, sid, n) {
      if RefFrom(a, cache, sid, n) {
        var o :| o in a && o in cache && Mentions(cache[o], sid) && n == RefOf(cache[o]);
        assert o in b;
      }
      if RefFrom(b, cache, sid, n) {
        var o :| o in b && o in cache && Mentions(cache[o], sid) && n == RefOf(cache[o]);
        assert o in a;
      }
    }
  }

  /** The backfill depends only on which order ids are listed, not on their order or
      repetition. */
  lemma BackfillOrderIndependent(items: map<int, BatchItem>, batchId: int, a: seq<string>, b: seq<string>,
                                 cache: map<string, Option<Sync.Payload>>, cachedIds: seq<string>)
    requires a != [] && b != []
    requires forall oid :: oid in a <==> oid in b
    ensures BackfillSpec(items, batchId, a, cache, cachedIds) == BackfillSpec(items, batchId, b, cache, cachedIds)
  {
    var p := Gather(a, cache);
    var q := Gather(b, cache);
    forall id | id in items
      ensures Fill(items[id], p) == Fill(items[id], q)
    {
      var row := items[id];
      if row.scryfallId.Some? {
        GatherSameElements(a, b, cache, row.scryfallId.value);
        SameJoin(NamesOfRow(row, p), NamesOfRow(row, q), ", ");
        SameJoin(RefsOfRow(row, p), RefsOfRow(row, q), "; ");
      }
    }
  }

  // ---------------------------------------------------------------------------
  // The loops

  /** The lines of one order folded in, as the inner loop does. */
  method AddOrderLines(p0: Provenances, lines: seq<Sync.LineItem>, name: string, ref: string) returns (p: Provenances)
    requires name != "" && ref != ""
    ensures p == AddLines(p0, lines, name, ref)
  {
    p := p0;
    for j := 0 to |lines|
      invariant p == AddLines(p0, lines[..j], name, ref)
    {
      assert lines[..j + 1][..j] == lines[..j];
      var single := Sync.SingleOf(lines[j]);
      if Truthy(single.scryfallId) {
        var sid := single.scryfallId.value;
        var names := if sid in p.names then p.names[sid] else [];
        if name !in names {
          names := names + [name];
        }
        var refs := if sid in p.refs then p.refs[sid] else [];
        if ref !in refs {
          refs := refs + [ref];
        }
        p := Provenances(p.names[sid := names], p.refs[sid := refs]);
      }
    }
    assert lines[..|lines|] == lines;
  }

  /** The `for oid in order_ids` loop. */
  method GatherProvenances(orderIds: seq<string>, cache: map<string, Option<Sync.Payload>>) returns (p: Provenances)
    ensures p == Gather(orderIds, cache)
  {
    p := NoProvenances;
    for i := 0 to |orderIds|
      invariant p == Gather(orderIds[..i], cache)
    {
      assert orderIds[..i + 1][..i] == orderIds[..i];
      var oid := orderIds[i];
      if oid in cache {
        var order := Sync.OrderOf(cache[oid]);
        if Truthy(order.shipName) {
          var ship := order.shipName.value;
          var ref := if Truthy(order.orderLabel) then ship + ", #" + order.orderLabel.value else ship;
          p := AddOrderLines(p, Sync.ItemsOf(order), ship, ref);
        }
      }
    }
    assert orderIds[..|orderIds|] == orderIds;
  }

  /** A non-empty set of row ids has an element. */
  lemma NonEmptyHasRow(s: set<int>)
    requires s != {}
    ensures exists x :: x in s
  {
    if forall x :: x !in s {
      assert false;
    }
  }

  /** The `for r in rows` loop: each chosen row is rewritten by Fill. */
  method FillRows(store: Picking.PickStore, rows: set<int>, p: Provenances)
    modifies store
    requires rows <= store.items.Keys
    ensures store.items == map id | id in old(store.items) :: if id in rows then Fill(old(store.items)[id], p) else old(store.items)[id]
    ensures store.events == old(store.events)
  {
    ghost var before := store.items;
    var remaining := rows;
    ghost var done: set<int> := {};
    while remaining != {}
      invariant remaining <= rows && done == rows - remaining
      invariant store.items.Keys == before.Keys
      invariant store.events == old(store.events)
      invariant forall id :: id in before ==> store.items[id] == if id in done then Fill(before[id], p) else before[id]
      decreases remaining
    {
      NonEmptyHasRow(remaining);
      var id :| id in remaining;
      var row := store.items[id];
      var names := NamesOfRow(row, p);
      var refs := RefsOfRow(row, p);
      if names != [] || refs != [] {
        var filled := FillRow(row, names, refs);
        store.items := store.items[id := filled];
      }
      remaining := remaining - {id};
      done := done + {id};
    }
    assert forall id :: id in rows ==> id in done;
    ghost var spec := map id | id in before :: if id in rows then Fill(before[id], p) else before[id];
    assert forall id :: id in before ==> store.items[id] == spec[id];
    assert store.items.Keys == spec.Keys;
  }

  /** The UPDATE statement's new columns for one row with something collected. */
  method FillRow(row: BatchItem, names: seq<string>, refs: seq<string>) returns (filled: BatchItem)
    ensures forall p: Provenances :: names == NamesOfRow(row, p) && refs == RefsOfRow(row, p) && (names != [] || refs != []) ==>
              filled == Fill(row, p)
  {
    var joinedNames := if names != [] then Some(Join(Ordering.SortStrings(names), ", ")) else row.orderNames;
    var joinedRefs := if refs != [] then Some(Join(Ordering.SortStrings(refs), "; ")) else row.orderRefs;
    filled := row.(orderNames := joinedNames, orderRefs := joinedRefs);
  }

  /** _backfill_order_names on the batch_items table; the log is untouched. */
  method BackfillOrderNames(store: Picking.PickStore, batchId: int, orderIds: seq<string>,
                            cache: map<string, Option<Sync.Payload>>, cachedIds: seq<string>)
    modifies store
    ensures store.items == BackfillSpec(old(store.items), batchId, orderIds, cache, cachedIds)
    ensures store.events == old(store.events)
  {
    ghost var before := store.items;
    var rows := set id | id in store.items && Selected(store.items[id], batchId);
    if rows == {} {
      forall id | id in before
        ensures !Selected(before[id], batchId)
      {
        assert id !in rows;
      }
      ghost var spec := BackfillSpec(before, batchId, orderIds, cache, cachedIds);
      assert forall id :: id in before ==> spec[id] == before[id];
      assert spec.Keys == before.Keys;
      return;
    }
    var ids := orderIds;
    if ids == [] {
      ids := cachedIds;
    }
    if ids == [] {
      assert forall id :: id in before ==> Fill(before[id], Gather(ids, cache)) == before[id];
      ghost var spec := BackfillSpec(before, batchId, orderIds, cache, cachedIds);
      assert forall id :: id in before ==> spec[id] == before[id];
      assert spec.Keys == before.Keys;
      return;
    }
    var p := GatherProvenances(ids, cache);
    FillRows(store, rows, p);
  }
}
