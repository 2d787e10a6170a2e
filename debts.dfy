/** The debt record kept in the query cache, and the partial update the cache code applies to it. */
module Debts {
  import opened Wrappers

  datatype Status = Pending | Paid

  /** A debt as fetched from the server: amounts are integer cents, dates integer timestamps. */
  datatype Debit = Debit(
    status: Status,
    id: string,
    createdAt: int,
    updatedAt: int,
    description: string,
    periodId: Option<string>,
    amount: int,
    expiresAt: Option<int>)

  /** `Partial<Omit<Debit, 'id'>>`: every field but the id, each one present or absent. */
  datatype DebitPatch = DebitPatch(
    status: Option<Status>,
    createdAt: Option<int>,
    updatedAt: Option<int>,
    description: Option<string>,
    periodId: Option<Option<string>>,
    amount: Option<int>,
    expiresAt: Option<Option<int>>)

  /** `{ ...item, ...data }`: the fields present in the patch win, the others are kept. */
  function Merge(item: Debit, data: DebitPatch): (r: Debit)
    ensures r.id == item.id
    ensures r.status == (if data.status.Some? then data.status.value else item.status)
    ensures r.createdAt == (if data.createdAt.Some? then data.createdAt.value else item.createdAt)
    ensures r.updatedAt == (if data.updatedAt.Some? then data.updatedAt.value else item.updatedAt)
    ensures r.description == (if data.description.Some? then data.description.value else item.description)
    ensures r.periodId == (if data.periodId.Some? then data.periodId.value else item.periodId)
    ensures r.amount == (if data.amount.Some? then data.amount.value else item.amount)
    ensures r.expiresAt == (if data.expiresAt.Some? then data.expiresAt.value else item.expiresAt)
  {
    Debit(
      data.status.GetOr(item.status),
      item.id,
      data.createdAt.GetOr(item.createdAt),
      data.updatedAt.GetOr(item.updatedAt),
      data.description.GetOr(item.description),
      data.periodId.GetOr(item.periodId),
      data.amount.GetOr(item.amount),
      data.expiresAt.GetOr(item.expiresAt))
  }

  /** Spreading the same patch twice is the same as spreading it once. */
  lemma MergeIdempotent(item: Debit, data: DebitPatch)
    ensures Merge(Merge(item, data), data) == Merge(item, data)
  {
  }

  /**
   * The list `map` that replaces every entry whose id is `debitId` by its merge with
   * `data` and keeps every other entry as it is.
   */
  function UpdateById(items: seq<Debit>, debitId: string, data: DebitPatch): (r: seq<Debit>)
    ensures |r| == |items|
  {
    if items == [] then []
    else
      var head := if items[0].id == debitId then Merge(items[0], data) else items[0];
      [head] + UpdateById(items[1..], debitId, data)
  }

  /** Position by position: the matching entry is merged, every other entry is untouched. */
  lemma {:induction false} UpdateByIdAt(items: seq<Debit>, debitId: string, data: DebitPatch, i: int)
    requires 0 <= i < |items|
    ensures UpdateById(items, debitId, data)[i] ==
            (if items[i].id == debitId then Merge(items[i], data) else items[i])
  {
    if i > 0 {
      UpdateByIdAt(items[1..], debitId, data, i - 1);
    }
  }

  /** The whole-list statement: same length, same order, same ids, only matching entries merged. */
  lemma {:induction false} UpdateByIdSpec(items: seq<Debit>, debitId: string, data: DebitPatch)
    ensures var r := UpdateById(items, debitId, data);
      && |r| == |items|
      && (forall i :: 0 <= i < |items| && items[i].id != debitId ==> r[i] == items[i])
      && (forall i :: 0 <= i < |items| && items[i].id == debitId ==> r[i] == Merge(items[i], data))
      && (forall i :: 0 <= i < |items| ==> r[i].id == items[i].id)
  {
    forall i | 0 <= i < |items| {
      UpdateByIdAt(items, debitId, data, i);
    }
  }

  /** When no entry carries `debitId` the list comes back unchanged. */
  lemma {:induction false} UpdateByIdAbsent(items: seq<Debit>, debitId: string, data: DebitPatch)
    requires forall i :: 0 <= i < |items| ==> items[i].id != debitId
    ensures UpdateById(items, debitId, data) == items
  {
    if items != [] {
      UpdateByIdAbsent(items[1..], debitId, data);
    }
  }

  /** Applying the same update twice gives the list the first application gave. */
  lemma {:induction false} UpdateByIdIdempotent(items: seq<Debit>, debitId: string, data: DebitPatch)
    ensures UpdateById(UpdateById(items, debitId, data), debitId, data) == UpdateById(items, debitId, data)
  {
    if items != [] {
      var once := UpdateById(items, debitId, data);
      UpdateByIdIdempotent(items[1..], debitId, data);
      MergeIdempotent(items[0], data);
      assert once[1..] == UpdateById(items[1..], debitId, data);
    }
  }
}
