/** The per-item pick state and its append-only event log: pick, undo, mark
    missing and unmark missing, and the row filter the item list applies.

    The batch_items and events tables are the fields of PickStore; each handler is
    a method that updates them, specified by a function on the tables before it.
    Time stamps are left out, and the handlers run one at a time. */
module Picking {
  import opened Common
  import opened Items
  import Logic

  // ---------------------------------------------------------------------------
  // Row filter

  /** The query flags show_picked, show_missing and show_all. */
  datatype Flags = Flags(showPicked: bool, showMissing: bool, showAll: bool)

  /** item_row's filter: unless show_all, a fully picked row is hidden when picked
      rows are not shown, and a row not marked missing is hidden when only missing
      rows are shown. */
  predicate RowShown(item: BatchItem, f: Flags) {
    f.showAll
    || (!(!f.showPicked && item.qtyPicked >= item.qtyRequired) && !(f.showMissing && !Logic.IsMissing(item)))
  }

  /** The filter the pick, undo and missing handlers apply to the updated row,
      written with remaining_qty(item) == 0. */
  predicate HandlerShows(item: BatchItem, f: Flags) {
    f.showAll
    || (!(!f.showPicked && Logic.RemainingQty(item) == 0) && !(f.showMissing && !Logic.IsMissing(item)))
  }

  /** Both spellings of the filter agree. */
  lemma SameFilter(item: BatchItem, f: Flags)
    ensures HandlerShows(item, f) <==> RowShown(item, f)
  {
    Logic.RemainingZero(item);
  }

  /** A rendered row: the item, its remaining quantity and its set's holder. */
  datatype RowView = RowView(item: BatchItem, remaining: int, reservedBy: Option<string>)

  /** item_row: 204 No Content, or the row. */
  datatype RowResponse = NoContent | RowHtml(view: RowView)

  /** `_reservation_map(conn, batch_id).get(item['set_code'])`. */
  function HolderOf(reservations: map<(int, string), string>, item: BatchItem): Option<string> {
    if item.setCode.Some? && (item.batchId, item.setCode.value) in reservations
    then Some(reservations[(item.batchId, item.setCode.value)]) else None
  }

  /** item_row. */
  function ItemRow(items: map<int, BatchItem>, itemId: int, f: Flags, reservations: map<(int, string), string>): (r: RowResponse)
    ensures r.RowHtml? <==> itemId in items && RowShown(items[itemId], f)
    ensures r.RowHtml? ==> r.view.item == items[itemId] && r.view.remaining == Logic.RemainingQty(items[itemId])
                           && r.view.reservedBy == HolderOf(reservations, items[itemId])
  {
    if itemId !in items || !RowShown(items[itemId], f) then NoContent
    else RowHtml(RowView(items[itemId], Logic.RemainingQty(items[itemId]), HolderOf(reservations, items[itemId])))
  }

  /** With the default flags a row is shown exactly while something remains to be
      picked, whatever its missing flag; show_all shows every row. */
  lemma ItemRowDefaults(items: map<int, BatchItem>, itemId: int, reservations: map<(int, string), string>)
    requires itemId in items
    ensures ItemRow(items, itemId, Flags(false, false, false), reservations).RowHtml?
            <==> Logic.RemainingQty(items[itemId]) > 0
    ensures ItemRow(items, itemId, Flags(false, false, true), reservations).RowHtml?
    ensures !Logic.IsMissing(items[itemId]) ==> ItemRow(items, itemId, Flags(true, true, false), reservations) == NoContent
  {
    Logic.RemainingZero(items[itemId]);
  }

  // ---------------------------------------------------------------------------
  // Transitions on the tables

  datatype Tables = Tables(items: map<int, BatchItem>, events: seq<Event>)

  /** A handler's result. Changed: the update was made, item_update is broadcast to
      the item's batch, and the response is the row when `shown` (an empty body
      otherwise), both with the batch-counts-changed trigger. Unchanged: an empty
      200 with no broadcast. */
  datatype Outcome = NotFound | Unchanged | ServerError | Changed(batchId: int, item: BatchItem, shown: bool)

  /** `session.get('sid') or str(uuid.uuid4())`, with the fresh id as an input. */
  function SessionId(session: Option<string>, newSid: string): string {
    if Truthy(session) then session.value else newSid
  }

  /** Something remains to be picked: qty_required - qty_picked > 0. */
  predicate CanPick(item: BatchItem) {
    item.qtyRequired - item.qtyPicked > 0
  }

  function PickTables(t: Tables, itemId: int, sid: string): Tables {
    if itemId in t.items && CanPick(t.items[itemId])
    then Tables(t.items[itemId := t.items[itemId].(qtyPicked := t.items[itemId].qtyPicked + 1)],
                t.events + [Event(PickEvent, itemId, 1, Some(sid))])
    else t
  }

  function UndoTables(t: Tables, itemId: int, sid: Option<string>): Tables {
    if itemId in t.items && t.items[itemId].qtyPicked > 0
    then Tables(t.items[itemId := t.items[itemId].(qtyPicked := t.items[itemId].qtyPicked - 1)],
                t.events + [Event(UndoEvent, itemId, 1, sid)])
    else t
  }

  /** The row after mark_missing / unmark_missing. */
  function Marked(item: BatchItem, note: string): BatchItem {
    item.(isMissing := Some(1), missingNote := Some(note))
  }

  function Unmarked(item: BatchItem): BatchItem {
    item.(isMissing := Some(0), missingNote := None)
  }

  /** mark_missing on an existing item: always writes the flag and the note and
      appends one 'missing' event with qty 0. An unknown item is not found and
      nothing is written. */
  function MarkTables(t: Tables, itemId: int, note: string, sid: Option<string>): Tables {
    if itemId in t.items
    then Tables(t.items[itemId := Marked(t.items[itemId], note)], t.events + [Event(MissingEvent, itemId, 0, sid)])
    else t
  }

  function UnmarkTables(t: Tables, itemId: int, sid: Option<string>): Tables {
    if itemId in t.items
    then Tables(t.items[itemId := Unmarked(t.items[itemId])], t.events + [Event(UnmissingEvent, itemId, 0, sid)])
    else t
  }

  /** The outcome of a handler that found the item and changed it. */
  function ChangedOutcome(item: BatchItem, f: Flags): Outcome {
    Changed(item.batchId, item, HandlerShows(item, f))
  }

  function PickOutcome(t: Tables, itemId: int, f: Flags): (r: Outcome)
    ensures r.NotFound? <==> itemId !in t.items
    ensures r.Unchanged? <==> itemId in t.items && !CanPick(t.items[itemId])
    ensures r.Changed? ==> r.item == PickTables(t, itemId, "").items[itemId]
  {
    if itemId !in t.items then NotFound
    else if !CanPick(t.items[itemId]) then Unchanged
    else ChangedOutcome(t.items[itemId].(qtyPicked := t.items[itemId].qtyPicked + 1), f)
  }

  function UndoOutcome(t: Tables, itemId: int, f: Flags): (r: Outcome)
    ensures r.NotFound? <==> itemId !in t.items
    ensures r.Unchanged? <==> itemId in t.items && t.items[itemId].qtyPicked <= 0
    ensures r.Changed? ==> r.item == UndoTables(t, itemId, None).items[itemId]
  {
    if itemId !in t.items then NotFound
    else if t.items[itemId].qtyPicked <= 0 then Unchanged
    else ChangedOutcome(t.items[itemId].(qtyPicked := t.items[itemId].qtyPicked - 1), f)
  }

  function MarkOutcome(t: Tables, itemId: int, note: string, f: Flags): (r: Outcome)
    ensures r.NotFound? <==> itemId !in t.items
    ensures r.Changed? ==> r.item == MarkTables(t, itemId, note, None).items[itemId]
  {
    if itemId !in t.items then NotFound else ChangedOutcome(Marked(t.items[itemId], note), f)
  }

  function UnmarkOutcome(t: Tables, itemId: int, f: Flags): (r: Outcome)
    ensures r.NotFound? <==> itemId !in t.items
    ensures r.Changed? ==> r.item == UnmarkTables(t, itemId, None).items[itemId]
  {
    if itemId !in t.items then NotFound else ChangedOutcome(Unmarked(t.items[itemId]), f)
  }

  // ---------------------------------------------------------------------------
  // What the transitions promise

  /** Pick: an unknown item or one with nothing remaining changes nothing;
      otherwise qty_picked rises by one, exactly one ('pick', 1, session) event is
      appended, and nothing else changes. */
  lemma PickFacts(t: Tables, itemId: int, sid: string)
    ensures itemId !in t.items || !CanPick(t.items[itemId]) ==> PickTables(t, itemId, sid) == t
    ensures itemId in t.items && CanPick(t.items[itemId]) ==>
              var u := PickTables(t, itemId, sid);
              && u.items.Keys == t.items.Keys
              && u.items[itemId].qtyPicked == t.items[itemId].qtyPicked + 1
              && u.items[itemId].(qtyPicked := t.items[itemId].qtyPicked) == t.items[itemId]
              && (forall k :: k in t.items && k != itemId ==> u.items[k] == t.items[k])
              && u.events == t.events + [Event(PickEvent, itemId, 1, Some(sid))]
  {
  }

  /** Hence a pick never takes qty_picked past qty_required. */
  lemma PickNeverOverfills(t: Tables, itemId: int, sid: string)
    requires itemId in t.items && t.items[itemId].qtyPicked <= t.items[itemId].qtyRequired
    ensures PickTables(t, itemId, sid).items[itemId].qtyPicked <= t.items[itemId].qtyRequired
  {
  }

  /** And an undo never takes qty_picked below zero. */
  lemma UndoNeverNegative(t: Tables, itemId: int, sid: Option<string>)
    requires itemId in t.items && t.items[itemId].qtyPicked >= 0
    ensures UndoTables(t, itemId, sid).items[itemId].qtyPicked >= 0
    ensures t.items[itemId].qtyPicked == 0 ==> UndoTables(t, itemId, sid) == t
  {
  }

  /** A pick that changed something, followed by an undo, restores every row and
      leaves exactly two more events: the pick and the undo. */
  lemma PickThenUndo(t: Tables, itemId: int, sid: string, undoSid: Option<string>)
    requires itemId in t.items && CanPick(t.items[itemId]) && t.items[itemId].qtyPicked >= 0
    ensures UndoTables(PickTables(t, itemId, sid), itemId, undoSid).items == t.items
    ensures UndoTables(PickTables(t, itemId, sid), itemId, undoSid).events
            == t.events + [Event(PickEvent, itemId, 1, Some(sid)), Event(UndoEvent, itemId, 1, undoSid)]
  {
    var u := PickTables(t, itemId, sid);
    assert u.items[itemId].qtyPicked > 0;
    assert u.items[itemId].(qtyPicked := u.items[itemId].qtyPicked - 1) == t.items[itemId];
  }

  /** Marking is idempotent on the row but not on the log: marking twice leaves the
      row as marking once, and appends two events. Quantities are never touched. */
  lemma MarkFacts(t: Tables, itemId: int, note: string, sid: Option<string>)
    requires itemId in t.items
    ensures var u := MarkTables(t, itemId, note, sid);
            && Logic.IsMissing(u.items[itemId]) && u.items[itemId].missingNote == Some(note)
            && u.items[itemId].qtyPicked == t.items[itemId].qtyPicked
            && u.items[itemId].qtyRequired == t.items[itemId].qtyRequired
            && MarkTables(u, itemId, note, sid).items == u.items
            && |MarkTables(u, itemId, note, sid).events| == |t.events| + 2
  {
  }

  /** Unmarking clears the flag and the note, and also always appends one event. */
  lemma UnmarkFacts(t: Tables, itemId: int, note: string, sid: Option<string>)
    requires itemId in t.items
    ensures var u := UnmarkTables(MarkTables(t, itemId, note, sid), itemId, sid);
            && !Logic.IsMissing(u.items[itemId]) && u.items[itemId].missingNote == None
            && u.items[itemId].qtyPicked == t.items[itemId].qtyPicked
            && u.events == t.events + [Event(MissingEvent, itemId, 0, sid), Event(UnmissingEvent, itemId, 0, sid)]
    ensures UnmarkTables(t, itemId, sid).events == t.events + [Event(UnmissingEvent, itemId, 0, sid)]
  {
  }

  /** The events of an item that move its pick count: picks minus undos. */
  function NetPicks(events: seq<Event>, itemId: int): int {
    if events == [] then 0
    else
      var e := events[|events| - 1];
      NetPicks(events[..|events| - 1], itemId)
      + (if e.itemId != itemId then 0 else PickDelta(e))
  }

  lemma NetPicksAppend(events: seq<Event>, e: Event, itemId: int)
    ensures NetPicks(events + [e], itemId)
            == NetPicks(events, itemId) + (if e.itemId != itemId then 0 else PickDelta(e))
  {
    assert (events + [e])[..|events|] == events;
  }

  /** The log accounts for every pick: each row's qty_picked is its count when the
      batch was built plus the picks minus the undos logged for it, and every event
      names an existing row. */
  ghost predicate LogAccounts(t: Tables, built: map<int, int>) {
    && t.items.Keys == built.Keys
    && (forall k :: k in t.items ==> t.items[k].qtyPicked == built[k] + NetPicks(t.events, k))
    && (forall i :: 0 <= i < |t.events| ==> t.events[i].itemId in t.items)
  }

  /** The change an event makes to its item's pick count. */
  function PickDelta(e: Event): int {
    if e.kind == PickEvent then e.qty else if e.kind == UndoEvent then -e.qty else 0
  }

  /** Rewriting one row while logging one event about it keeps the log accounting
      for the rows when the row's count moves by the event's delta. */
  lemma LoggedUpdateKeepsLog(t: Tables, built: map<int, int>, row: BatchItem, e: Event)
    requires LogAccounts(t, built) && e.itemId in t.items
    requires row.qtyPicked == t.items[e.itemId].qtyPicked + PickDelta(e)
    ensures LogAccounts(Tables(t.items[e.itemId := row], t.events + [e]), built)
  {
    var u := Tables(t.items[e.itemId := row], t.events + [e]);
    forall k | k in u.items
      ensures u.items[k].qtyPicked == built[k] + NetPicks(u.events, k)
    {
      NetPicksAppend(t.events, e, k);
    }
    forall i | 0 <= i < |u.events|
      ensures u.events[i].itemId in u.items
    {
      if i < |t.events| {
        assert u.events[i] == t.events[i];
      }
    }
  }

  /** Every transition keeps the log accounting for the rows. */
  lemma TransitionsKeepLog(t: Tables, built: map<int, int>, itemId: int, note: string, sid: string, session: Option<string>)
    requires LogAccounts(t, built)
    ensures LogAccounts(PickTables(t, itemId, sid), built)
    ensures LogAccounts(UndoTables(t, itemId, session), built)
    ensures LogAccounts(MarkTables(t, itemId, note, session), built)
    ensures LogAccounts(UnmarkTables(t, itemId, session), built)
  {
    if itemId in t.items {
      var item := t.items[itemId];
      LoggedUpdateKeepsLog(t, built, item.(qtyPicked := item.qtyPicked + 1), Event(PickEvent, itemId, 1, Some(sid)));
      LoggedUpdateKeepsLog(t, built, item.(qtyPicked := item.qtyPicked - 1), Event(UndoEvent, itemId, 1, session));
      LoggedUpdateKeepsLog(t, built, Marked(item, note), Event(MissingEvent, itemId, 0, session));
      LoggedUpdateKeepsLog(t, built, Unmarked(item), Event(UnmissingEvent, itemId, 0, session));
    }
  }

  // ---------------------------------------------------------------------------
  // mark_missing as written

  /** mark_missing as the handler is written: it updates and logs without looking
      the item up. For an unknown id the UPDATE touches nothing, the event INSERT
      either fails on the events table's foreign key (everything rolled back) or,
      without one, is committed; then `item['batch_id']` on the missing row raises,
      an HTTP 500. */
  function MarkTablesAsWritten(t: Tables, itemId: int, note: string, sid: Option<string>, foreignKeyChecked: bool): Tables {
    if itemId in t.items then MarkTables(t, itemId, note, sid)
    else if foreignKeyChecked then t
    else Tables(t.items, t.events + [Event(MissingEvent, itemId, 0, sid)])
  }

  function MarkOutcomeAsWritten(t: Tables, itemId: int, note: string, f: Flags): (r: Outcome)
    ensures itemId !in t.items ==> r == ServerError
  {
    if itemId !in t.items then ServerError else MarkOutcome(t, itemId, note, f)
  }

  /** unmark_missing as the handler is written: the same shape as mark_missing,
      with an 'unmissing' event. */
  function UnmarkTablesAsWritten(t: Tables, itemId: int, sid: Option<string>, foreignKeyChecked: bool): Tables {
    if itemId in t.items then UnmarkTables(t, itemId, sid)
    else if foreignKeyChecked then t
    else Tables(t.items, t.events + [Event(UnmissingEvent, itemId, 0, sid)])
  }

  function UnmarkOutcomeAsWritten(t: Tables, itemId: int, f: Flags): (r: Outcome)
    ensures itemId !in t.items ==> r == ServerError
  {
    if itemId !in t.items then ServerError else UnmarkOutcome(t, itemId, f)
  }

  /** The discrepancy: for an unknown item, pick and undo answer 404, but
      mark_missing and unmark_missing answer 500 and, without a foreign key on the
      events table, log an event for a row that does not exist, so the log no
      longer accounts for the rows. The corrected handlers answer 404 and change
      nothing. */
  lemma MarkMissingUnknownItem(t: Tables, built: map<int, int>, itemId: int, note: string, sid: Option<string>, f: Flags)
    requires LogAccounts(t, built) && itemId !in t.items
    ensures PickOutcome(t, itemId, f) == NotFound && UndoOutcome(t, itemId, f) == NotFound
    ensures MarkOutcomeAsWritten(t, itemId, note, f) == ServerError
    ensures !LogAccounts(MarkTablesAsWritten(t, itemId, note, sid, false), built)
    ensures MarkOutcome(t, itemId, note, f) == NotFound && MarkTables(t, itemId, note, sid) == t
    ensures UnmarkOutcomeAsWritten(t, itemId, f) == ServerError
    ensures !LogAccounts(UnmarkTablesAsWritten(t, itemId, sid, false), built)
    ensures UnmarkOutcome(t, itemId, f) == NotFound && UnmarkTables(t, itemId, sid) == t
  {
    var u := MarkTablesAsWritten(t, itemId, note, sid, false);
    assert u.events[|t.events|].itemId == itemId;
    var v := UnmarkTablesAsWritten(t, itemId, sid, false);
    assert v.events[|t.events|].itemId == itemId;
  }

  // ---------------------------------------------------------------------------
  // The tables as state

  /** The batch_items and events tables. */
  class PickStore {
    var items: map<int, BatchItem>
    var events: seq<Event>

    function State(): Tables
      reads this
    {
      Tables(items, events)
    }

    constructor (rows: map<int, BatchItem>)
      ensures items == rows && events == []
    {
      items := rows;
      events := [];
    }

    /** pick_item. Returns the outcome and the session id stored back. */
    method Pick(itemId: int, session: Option<string>, freshSid: string, f: Flags) returns (r: Outcome, sid: string)
      modifies this
      ensures sid == SessionId(session, freshSid)
      ensures State() == PickTables(old(State()), itemId, sid)
      ensures r == PickOutcome(old(State()), itemId, f)
    {
      sid := if session.Some? && session.value != "" then session.value else freshSid;
      if itemId !in items {
        return NotFound, sid;
      }
      var item := items[itemId];
      var remaining := item.qtyRequired - item.qtyPicked;
      if remaining <= 0 {
        return Unchanged, sid;
      }
      item := item.(qtyPicked := item.qtyPicked + 1);
      items := items[itemId := item];
      events := events + [Event(PickEvent, itemId, 1, Some(sid))];
      r := Changed(item.batchId, item, HandlerShows(item, f));
    }

    /** undo_pick. */
    method Undo(itemId: int, session: Option<string>, f: Flags) returns (r: Outcome)
      modifies this
      ensures State() == UndoTables(old(State()), itemId, session)
      ensures r == UndoOutcome(old(State()), itemId, f)
    {
      if itemId !in items {
        return NotFound;
      }
      var item := items[itemId];
      if item.qtyPicked <= 0 {
        return Unchanged;
      }
      item := item.(qtyPicked := item.qtyPicked - 1);
      items := items[itemId := item];
      events := events + [Event(UndoEvent, itemId, 1, session)];
      r := Changed(item.batchId, item, HandlerShows(item, f));
    }

    /** mark_missing, with the existence check that pick and undo make. */
    method MarkMissing(itemId: int, note: string, session: Option<string>, f: Flags) returns (r: Outcome)
      modifies this
      ensures State() == MarkTables(old(State()), itemId, note, session)
      ensures r == MarkOutcome(old(State()), itemId, note, f)
    {
      if itemId !in items {
        return NotFound;
      }
      var item := Marked(items[itemId], note);
      items := items[itemId := item];
      events := events + [Event(MissingEvent, itemId, 0, session)];
      r := Changed(item.batchId, item, HandlerShows(item, f));
    }

    /** unmark_missing, with the existence check that pick and undo make. */
    method UnmarkMissing(itemId: int, session: Option<string>, f: Flags) returns (r: Outcome)
      modifies this
      ensures State() == UnmarkTables(old(State()), itemId, session)
      ensures r == UnmarkOutcome(old(State()), itemId, f)
    {
      if itemId !in items {
        return NotFound;
      }
      var item := Unmarked(items[itemId]);
      items := items[itemId := item];
      events := events + [Event(UnmissingEvent, itemId, 0, session)];
      r := Changed(item.batchId, item, HandlerShows(item, f));
    }
  }
}
