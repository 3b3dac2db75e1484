/** The time-entry table: how `POST`/`PUT /api/time-entries` derive and
    default the stored columns, the unbilled-entries query, and the billed
    flag the invoice conversion sets. */
module TimeEntries {
  import opened Wrappers
  import opened Store
  import Js

  /** The JSON body of a create or update request; `None` is a field that
      is absent or null. */
  datatype TimeEntryRequest = TimeEntryRequest(
    customerId: Option<nat>,
    projectId: Option<nat>,
    description: Option<string>,
    startTime: Option<int>,
    endTime: Option<int>,
    durationMinutes: Option<int>,
    hourlyRate: Option<real>,
    isBillable: Option<int>,
    notes: Option<string>)

  const MillisPerMinute := 60000

  /** The duration the handler binds before `|| null`: when both ends of the
      interval are given it is `Math.round((end - start) / 60000)`, and any
      supplied `duration_minutes` is ignored; otherwise the supplied value. */
  function SubmittedDuration(req: TimeEntryRequest): (d: Option<int>)
    ensures req.startTime.Some? && req.endTime.Some? ==>
      d.Some? &&
      var span := req.endTime.value - req.startTime.value;
      2 * MillisPerMinute * d.value - MillisPerMinute <= 2 * span < 2 * MillisPerMinute * d.value + MillisPerMinute
    ensures (req.startTime.None? || req.endTime.None?) ==> d == req.durationMinutes
  {
    if req.startTime.Some? && req.endTime.Some?
    then Some(Js.Round(req.endTime.value - req.startTime.value, MillisPerMinute))
    else req.durationMinutes
  }

  /** The row a request stores under `id`; an update keeps the row's billed flag. */
  function Row(id: nat, req: TimeEntryRequest, isBilled: int): (e: TimeEntry)
    ensures e.id == id && e.isBilled == isBilled
    // a zero (or absent) duration is stored as NULL, any other value as given
    ensures e.durationMinutes != Some(0)
    ensures e.durationMinutes.Some? <==> SubmittedDuration(req).Some? && SubmittedDuration(req).value != 0
    ensures e.durationMinutes.Some? ==> e.durationMinutes == SubmittedDuration(req)
    // `is_billable ?? 1`: only a missing flag defaults, an explicit 0 stays 0
    ensures req.isBillable.Some? ==> e.isBillable == req.isBillable.value
    ensures req.isBillable.None? ==> e.isBillable == 1
    // `hourly_rate || null`: a zero rate is stored as NULL, any other as given
    ensures e.hourlyRate != Some(0.0)
    ensures e.hourlyRate.Some? <==> Js.Truthy(req.hourlyRate, 0.0)
    ensures e.hourlyRate.Some? ==> e.hourlyRate == req.hourlyRate
    // `customer_id || null` and `project_id || null` likewise
    ensures e.customerId != Some(0)
    ensures e.customerId.Some? <==> Js.Truthy(req.customerId, 0)
    ensures e.customerId.Some? ==> e.customerId == req.customerId
    ensures e.projectId.Some? <==> Js.Truthy(req.projectId, 0)
    ensures e.projectId.Some? ==> e.projectId == req.projectId
    // `description || ''`, and the interval as sent
    ensures e.description == req.description.GetOr("")
    ensures e.startTime == req.startTime && e.endTime == req.endTime
    // `notes || null`: empty notes are stored as NULL
    ensures e.notes.Some? <==> Js.Truthy(req.notes, "")
    ensures e.notes.Some? ==> e.notes == req.notes
  {
    TimeEntry(
      id,
      Js.OrNull(req.customerId, 0),
      Js.OrNull(req.projectId, 0),
      Js.Or(req.description, "", ""),
      req.startTime,
      req.endTime,
      Js.OrNull(SubmittedDuration(req), 0),
      Js.OrNull(req.hourlyRate, 0.0),
      Js.Coalesce(req.isBillable, 1),
      isBilled,
      Js.OrNull(req.notes, ""))
  }

  function Ids(entries: seq<TimeEntry>): set<nat> {
    set e | e in entries :: e.id
  }

  /** Row ids are unique (they are the table's primary key). */
  predicate UniqueIds(entries: seq<TimeEntry>) {
    forall i, j :: 0 <= i < j < |entries| ==> entries[i].id != entries[j].id
  }

  /** The rows are in row-id order: ids strictly increase along the table. */
  predicate AscendingIds(entries: seq<TimeEntry>) {
    forall i, j :: 0 <= i < j < |entries| ==> entries[i].id < entries[j].id
  }

  /** `POST /api/time-entries` under the fresh row id the database assigns. */
  function Create(entries: seq<TimeEntry>, id: nat, req: TimeEntryRequest): (r: seq<TimeEntry>)
    requires id !in Ids(entries)
    ensures |r| == |entries| + 1 && r[..|entries|] == entries
    ensures r[|entries|] == Row(id, req, 0)
    ensures r[|entries|].id == id && r[|entries|].isBilled == 0
    ensures Ids(r) == Ids(entries) + {id}
    ensures UniqueIds(entries) ==> UniqueIds(r)
    // an autoincrement id above every existing one keeps the ids ascending
    ensures AscendingIds(entries) && (forall e :: e in entries ==> e.id < id) ==> AscendingIds(r)
  {
    var r := entries + [Row(id, req, 0)];
    assert r[..|entries|] == entries;
    assert forall e :: e in r <==> e in entries || e == r[|entries|];
    r
  }

  /** `PUT /api/time-entries/:id`: every column but the billed flag is
      rewritten; an unknown id changes nothing. */
  function Update(entries: seq<TimeEntry>, id: nat, req: TimeEntryRequest): (r: seq<TimeEntry>)
    ensures |r| == |entries|
    ensures forall i :: 0 <= i < |r| ==>
      if entries[i].id == id then r[i] == Row(id, req, entries[i].isBilled) else r[i] == entries[i]
  {
    seq(|entries|, i requires 0 <= i < |entries| =>
      if entries[i].id == id then Row(id, req, entries[i].isBilled) else entries[i])
  }

  /** An update never un-bills an entry nor bills it, and keeps ids unique. */
  lemma UpdateKeepsBilling(entries: seq<TimeEntry>, id: nat, req: TimeEntryRequest)
    ensures forall i :: 0 <= i < |entries| ==>
      Update(entries, id, req)[i].isBilled == entries[i].isBilled &&
      Update(entries, id, req)[i].id == entries[i].id
    ensures UniqueIds(entries) ==> UniqueIds(Update(entries, id, req))
  {
  }

  /** The filter `customer_id = X AND is_billable = 1 AND is_billed = 0`. */
  predicate Billable(e: TimeEntry, customer: nat) {
    e.customerId == Some(customer) && e.isBillable == 1 && e.isBilled == 0
  }

  /** `GET /api/customers/:id/unbilled-time-entries`: every qualifying row
      exactly as often as it occurs in the table, in the model's insertion
      order (the route's `start_time DESC` order is not modelled). */
  function Unbilled(entries: seq<TimeEntry>, customer: nat): (r: seq<TimeEntry>)
    ensures |r| <= |entries|
    ensures forall e :: e in r <==> e in entries && Billable(e, customer)
    ensures forall e :: multiset(r)[e] == if Billable(e, customer) then multiset(entries)[e] else 0
  {
    if |entries| == 0 then []
    else
      var last := entries[|entries| - 1];
      assert entries == entries[..|entries| - 1] + [last];
      Unbilled(entries[..|entries| - 1], customer) + (if Billable(last, customer) then [last] else [])
  }

  /** One `UPDATE time_entries SET is_billed = 1 WHERE id = ?`. */
  function MarkOne(entries: seq<TimeEntry>, id: nat): (r: seq<TimeEntry>)
    ensures |r| == |entries|
    ensures forall i :: 0 <= i < |r| ==>
      r[i] == if entries[i].id == id then entries[i].(isBilled := 1) else entries[i]
  {
    seq(|entries|, i requires 0 <= i < |entries| =>
      if entries[i].id == id then entries[i].(isBilled := 1) else entries[i])
  }

  /** The update loop over `time_entry_ids`, one statement per id in request
      order: every entry whose id was requested ends billed, whether or not
      it produced an invoice line, and every other entry is untouched. */
  function MarkBilled(entries: seq<TimeEntry>, ids: seq<nat>): (r: seq<TimeEntry>)
    ensures |r| == |entries|
    ensures forall i :: 0 <= i < |r| ==>
      r[i] == if entries[i].id in ids then entries[i].(isBilled := 1) else entries[i]
    decreases |ids|
  {
    if |ids| == 0 then entries
    else
      var r := MarkBilled(MarkOne(entries, ids[0]), ids[1..]);
      assert forall x :: x in ids <==> x == ids[0] || x in ids[1..];
      r
  }

  /** Every entry with a requested id is billed afterwards. */
  lemma MarkedAllBilled(entries: seq<TimeEntry>, ids: seq<nat>)
    ensures forall e :: e in MarkBilled(entries, ids) && e.id in ids ==> e.isBilled == 1
  {
    var m := MarkBilled(entries, ids);
    forall e | e in m && e.id in ids
      ensures e.isBilled == 1
    {
      var i :| 0 <= i < |m| && m[i] == e;
    }
  }

  /** Once billed, a requested entry never shows up as unbilled again. */
  lemma MarkedNeverUnbilled(entries: seq<TimeEntry>, ids: seq<nat>, customer: nat)
    ensures forall e :: e in Unbilled(MarkBilled(entries, ids), customer) ==> e.id !in ids
  {
    var m := MarkBilled(entries, ids);
    forall e | e in Unbilled(m, customer)
      ensures e.id !in ids
    {
      var i :| 0 <= i < |m| && m[i] == e;
    }
  }
}
