/**
 * The `useDebitCache` hook: bound to the current period's debts key, it snapshots the
 * cached list when it runs and offers an optimistic update by id and a revert.
 */
module UseDebitCache {
  import opened Wrappers
  import opened Debts
  import opened QueryCache

  class DebitCacheHook {
    const client: DebtsQueryCache
    const currentPeriodId: string
    /** The list cached under the key when the hook ran. */
    const oldCache: Option<seq<Debit>>

    constructor (client: DebtsQueryCache, currentPeriodId: string)
      ensures this.client == client && this.currentPeriodId == currentPeriodId
      ensures oldCache == client.GetQueryData(currentPeriodId)
    {
      this.client := client;
      this.currentPeriodId := currentPeriodId;
      this.oldCache := client.GetQueryData(currentPeriodId);
    }

    /**
     * `updateCache`: merges `data` into the entry whose id is `debitId` and returns the
     * list as it was before the write. Without a cached list nothing is written.
     */
    method UpdateCache(debitId: string, data: DebitPatch) returns (cache: Option<seq<Debit>>)
      modifies client
      ensures cache == old(client.GetQueryData(currentPeriodId))
      ensures cache.None? ==> client.entries == old(client.entries) && client.stale == old(client.stale)
      ensures cache.Some? ==>
        && client.GetQueryData(currentPeriodId) == Some(UpdateById(cache.value, debitId, data))
        && client.stale == old(client.stale) - {currentPeriodId}
      ensures forall p :: p != currentPeriodId ==> client.GetQueryData(p) == old(client.GetQueryData(p))
    {
      cache := client.GetQueryData(currentPeriodId);
      var updated := if cache.Some? then Some(UpdateById(cache.value, debitId, data)) else None;
      client.SetQueryData(currentPeriodId, updated);
    }

    /**
     * `revertCache`: writes the snapshot taken when the hook ran back under the key,
     * whatever was written in between; an absent snapshot is ignored by the cache.
     */
    method RevertCache()
      modifies client
      ensures oldCache.Some? ==>
        && client.entries == old(client.entries)[currentPeriodId := oldCache.value]
        && client.stale == old(client.stale) - {currentPeriodId}
      ensures oldCache.None? ==> client.entries == old(client.entries) && client.stale == old(client.stale)
      ensures forall p :: p != currentPeriodId ==> client.GetQueryData(p) == old(client.GetQueryData(p))
    {
      client.SetQueryData(currentPeriodId, oldCache);
    }
  }

  /**
   * An optimistic edit that the server refuses: after the update and the revert the
   * key holds the list it held when the hook ran, with every entry and the order intact.
   */
  method EditThenRevert(client: DebtsQueryCache, periodId: string, debitId: string, data: DebitPatch)
    returns (during: Option<seq<Debit>>, after: Option<seq<Debit>>)
    modifies client
    ensures old(client.GetQueryData(periodId)).Some? ==> after == old(client.GetQueryData(periodId))
    ensures old(client.GetQueryData(periodId)).Some? ==>
      && during.Some? && |during.value| == |old(client.entries[periodId])|
      && forall i :: 0 <= i < |during.value| && old(client.entries[periodId])[i].id != debitId ==>
           during.value[i] == old(client.entries[periodId])[i]
    ensures old(client.GetQueryData(periodId)).None? ==> during.None? && after.None?
  {
    var hook := new DebitCacheHook(client, periodId);
    var before := hook.UpdateCache(debitId, data);
    during := client.GetQueryData(periodId);
    if before.Some? {
      UpdateByIdSpec(before.value, debitId, data);
    }
    hook.RevertCache();
    after := client.GetQueryData(periodId);
  }
}
