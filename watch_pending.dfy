// app/automation/watch_pending.py: batches of prompts waiting for approval,
// kept in the watch_pending table. A batch moves from "pending" to
// "approved" or "deleted"; only pending batches are listed or approved.
module WatchPending {
  import opened Wrappers
  import opened Json
  import Sorting

  datatype BatchStatus = Pending | Approved | Deleted

  /**
   * One row of the table. The prompts_json column enters as json.loads
   * parses it, None when it does not parse.
   */
  datatype Batch = Batch(sourceFile: string, promptsJson: Option<Value>, createdAt: string, status: BatchStatus)

  /** One item of list_pending. */
  datatype PendingItem = PendingItem(
    batchId: string,
    sourceFile: string,
    createdAt: string,
    status: BatchStatus,
    prompts: Value,
    overrides: Value)

  const DuplicateBatch: string := "UNIQUE constraint failed: watch_pending.batch_id"

  /** overrides or {} */
  function OverridesOrEmpty(overrides: Option<Value>): Value
  {
    if overrides.Some? && Truthy(overrides.value) then overrides.value else EmptyObj
  }

  /** The payload create_pending stores, as it reads back: {"prompts": prompts, "overrides": overrides or {}}. */
  function PayloadOf(prompts: seq<string>, overrides: Option<Value>): Value
  {
    var p := StrList(prompts);
    var o := OverridesOrEmpty(overrides);
    Obj(map["prompts" := p, "overrides" := o], ["prompts", "overrides"],
        "{'prompts': " + Display(p) + ", 'overrides': " + Display(o) + "}")
  }

  /** The prompts and overrides list_pending reports for a stored payload. */
  function Listed(payload: Option<Value>): (Value, Value)
  {
    match payload
    case None => (EmptyList, EmptyObj)
    case Some(Obj(fields, _, _)) => (GetOr(fields, "prompts", EmptyList), GetOr(fields, "overrides", EmptyObj))
    case Some(v) => (v, EmptyObj)
  }

  /** The prompts and overrides approve_pending returns for a stored payload: here falsy overrides become {}. */
  function ApprovedPayload(payload: Option<Value>): (Value, Value)
  {
    match payload
    case None => (EmptyList, EmptyObj)
    case Some(Obj(fields, _, _)) =>
      var o := GetOr(fields, "overrides", EmptyObj);
      (GetOr(fields, "prompts", EmptyList), if Truthy(o) then o else EmptyObj)
    case Some(v) => (v, EmptyObj)
  }

  function ItemOf(id: string, b: Batch): PendingItem
  {
    var (prompts, overrides) := Listed(b.promptsJson);
    PendingItem(id, b.sourceFile, b.createdAt, b.status, prompts, overrides)
  }

  /** The items of the pending batches among `ids`, in that order. */
  function PendingItems(ids: seq<string>, rows: map<string, Batch>): (r: seq<PendingItem>)
    requires forall id :: id in ids ==> id in rows
    ensures forall it :: it in r ==> it.batchId in ids && rows[it.batchId].status == Pending && it == ItemOf(it.batchId, rows[it.batchId])
    ensures forall id :: id in ids && rows[id].status == Pending ==> ItemOf(id, rows[id]) in r
  {
    if ids == [] then []
    else
      var rest := PendingItems(ids[1..], rows);
      if rows[ids[0]].status == Pending then [ItemOf(ids[0], rows[ids[0]])] + rest else rest
  }

  /** ORDER BY datetime(created_at) DESC, given the time `seconds` gives each timestamp. */
  function Newest(seconds: string -> real): PendingItem -> real
  {
    (it: PendingItem) => -seconds(it.createdAt)
  }

  class PendingStore {
    var rows: map<string, Batch>

    constructor ()
      ensures rows == map[]
    {
      rows := map[];
    }

    /**
     * create_pending: inserts a pending batch with the prompts and the
     * overrides (or {}) under the new id, stamped `now`; an id already in the
     * table violates its primary key.
     */
    method CreatePending(batchId: string, sourceFile: string, prompts: seq<string>, overrides: Option<Value>, now: string)
      returns (r: Result<string>)
      modifies this
      ensures batchId in old(rows) ==> r == Err(IntegrityError(DuplicateBatch)) && rows == old(rows)
      ensures batchId !in old(rows) ==>
        r == Ok(batchId) && rows == old(rows)[batchId := Batch(sourceFile, Some(PayloadOf(prompts, overrides)), now, Pending)]
    {
      if batchId in rows {
        return Err(IntegrityError(DuplicateBatch));
      }
      rows := rows[batchId := Batch(sourceFile, Some(PayloadOf(prompts, overrides)), now, Pending)];
      r := Ok(batchId);
    }

    /**
     * list_pending: every pending batch and no other, newest first, with the
     * prompts and overrides its payload holds. `order` is the order the
     * table hands the rows over in before sorting.
     */
    method ListPending(seconds: string -> real) returns (items: seq<PendingItem>, ghost order: seq<string>)
      ensures multiset(order) == multiset(rows.Keys)
      ensures forall id :: id in order <==> id in rows
      ensures multiset(items) == multiset(PendingItems(order, rows))
      ensures forall i, j :: 0 <= i < j < |items| ==> seconds(items[i].createdAt) >= seconds(items[j].createdAt)
    {
      var ids := SortedKeys(rows);
      forall id | id in ids
        ensures id in rows
      {
        assert id in multiset(ids);
      }
      forall id | id in rows
        ensures id in ids
      {
        assert id in multiset(rows.Keys);
      }
      var found: seq<PendingItem> := [];
      var i := |ids|;
      while i > 0
        invariant 0 <= i <= |ids|
        invariant found == PendingItems(ids[i..], rows)
      {
        i := i - 1;
        assert ids[i..][1..] == ids[i + 1..];
        if rows[ids[i]].status == Pending {
          found := [ItemOf(ids[i], rows[ids[i]])] + found;
        }
      }
      assert ids[0..] == ids;
      items := Sorting.SortBy(found, Newest(seconds));
      order := ids;
      forall i, j | 0 <= i < j < |items|
        ensures seconds(items[i].createdAt) >= seconds(items[j].createdAt)
      {
        assert Newest(seconds)(items[i]) <= Newest(seconds)(items[j]);
      }
    }

    /**
     * approve_pending: a batch that is not pending gives ([], {}) and
     * changes nothing; a pending one becomes approved and its prompts and
     * overrides are returned.
     */
    method ApprovePending(batchId: string) returns (prompts: Value, overrides: Value)
      modifies this
      ensures !(batchId in old(rows) && old(rows)[batchId].status == Pending) ==>
        prompts == EmptyList && overrides == EmptyObj && rows == old(rows)
      ensures batchId in old(rows) && old(rows)[batchId].status == Pending ==>
        rows == old(rows)[batchId := old(rows)[batchId].(status := Approved)] &&
        (prompts, overrides) == ApprovedPayload(old(rows)[batchId].promptsJson)
    {
      if batchId !in rows || rows[batchId].status != Pending {
        return EmptyList, EmptyObj;
      }
      var row := rows[batchId];
      rows := rows[batchId := row.(status := Approved)];
      prompts, overrides := ApprovedPayload(row.promptsJson).0, ApprovedPayload(row.promptsJson).1;
    }

    /** delete_pending: the batch, whatever its status, becomes "deleted"; an unknown id changes nothing. */
    method DeletePending(batchId: string)
      modifies this
      ensures batchId in old(rows) ==> rows == old(rows)[batchId := old(rows)[batchId].(status := Deleted)]
      ensures batchId !in old(rows) ==> rows == old(rows)
    {
      if batchId in rows {
        rows := rows[batchId := rows[batchId].(status := Deleted)];
      }
    }
  }

  /** A batch is listed only while pending: approving or deleting it takes it off the list. */
  lemma ListedOnlyWhilePending(ids: seq<string>, rows: map<string, Batch>, id: string, s: BatchStatus)
    requires forall x :: x in ids ==> x in rows
    requires id in rows && s != Pending
    ensures forall it :: it in PendingItems(ids, rows[id := rows[id].(status := s)]) ==> it.batchId != id
  {
  }

  /** What create_pending stores reads back as the same prompts and overrides, both in the list and on approval. */
  lemma CreatedReadsBack(prompts: seq<string>, overrides: Option<Value>)
    ensures Listed(Some(PayloadOf(prompts, overrides))) == (StrList(prompts), OverridesOrEmpty(overrides))
    ensures ApprovedPayload(Some(PayloadOf(prompts, overrides))) == (StrList(prompts), OverridesOrEmpty(overrides))
  {
  }

  /** A payload that does not parse lists and approves as no prompts and no overrides. */
  lemma UnparsableIsEmpty()
    ensures Listed(None) == (EmptyList, EmptyObj) && ApprovedPayload(None) == (EmptyList, EmptyObj)
  {
  }
}
