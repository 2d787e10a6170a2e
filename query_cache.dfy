/**
 * The part of the query client's cache that the debt code touches: one entry per
 * query key `['debts', { period }]`, keyed here by the period id.
 */
module QueryCache {
  import opened Wrappers
  import opened Debts

  class DebtsQueryCache {
    /** The cached debt list of each period that has data. */
    var entries: map<string, seq<Debit>>
    /** The periods whose entry has been invalidated and will be refetched on the next read. */
    var stale: set<string>

    constructor ()
      ensures entries == map[] && stale == {}
    {
      entries := map[];
      stale := {};
    }

    /** `getQueryData`: the cached list, or nothing when the key holds no data. */
    function GetQueryData(period: string): Option<seq<Debit>>
      reads this
    {
      if period in entries then Some(entries[period]) else None
    }

    /**
     * `setQueryData`: a present value replaces the entry and clears its invalidation;
     * an absent (`undefined`) value is ignored by the library and changes nothing.
     */
    method SetQueryData(period: string, data: Option<seq<Debit>>)
      modifies this
      ensures data.Some? ==> entries == old(entries)[period := data.value] && stale == old(stale) - {period}
      ensures data.None? ==> entries == old(entries) && stale == old(stale)
      ensures forall p :: p != period ==> GetQueryData(p) == old(GetQueryData(p))
    {
      if data.Some? {
        entries := entries[period := data.value];
        stale := stale - {period};
      }
    }

    /** `invalidateQueries`: the entry is marked stale; its data is kept until the refetch. */
    method InvalidateQueries(period: string)
      modifies this
      ensures entries == old(entries)
      ensures stale == old(stale) + {period}
    {
      stale := stale + {period};
    }

    /** Dropping the entry altogether, so that the key again holds no data. */
    method RemoveQueries(period: string)
      modifies this
      ensures entries == old(entries) - {period}
      ensures stale == old(stale) - {period}
    {
      entries := entries - {period};
      stale := stale - {period};
    }
  }
}
