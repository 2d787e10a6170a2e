/**
 * The "new debt" dialog: its form schema, the optimistic append of a pending debt to
 * the current period's cached list, and the rollback when the server refuses it.
 */
module CreateDebitDialog {
  import opened Wrappers
  import opened Debts
  import opened QueryCache

  /** The form's fields; the amount is in whole currency units before parsing, in cents after. */
  datatype FormValues = FormValues(description: string, amount: int)

  /** What the schema can refuse, one issue per field. */
  datatype FormIssue = DescriptionEmpty | AmountNegative

  /** The cents in an amount of whole currency units. */
  function ToCents(units: int): int {
    units * 100
  }

  /** The values the form is reset to after a debt was created. */
  const ResetValues := FormValues("", 0)

  /**
   * `formSchema`: the description must not be empty and the amount must not be
   * negative; every failing field is reported; an accepted amount is scaled to cents.
   */
  function ValidateForm(input: FormValues): (r: Result<FormValues, seq<FormIssue>>)
    ensures r.Ok? <==> |input.description| >= 1 && input.amount >= 0
    ensures r.Ok? ==> r.value.description == input.description && r.value.amount == input.amount * 100
    ensures r.Err? ==>
      && (DescriptionEmpty in r.error <==> input.description == [])
      && (AmountNegative in r.error <==> input.amount < 0)
  {
    var issues := (if |input.description| < 1 then [DescriptionEmpty] else [])
                + (if input.amount < 0 then [AmountNegative] else []);
    if issues == [] then Ok(FormValues(input.description, ToCents(input.amount))) else Err(issues)
  }

  /** The request the mutation sends: `createDebt({ amount, description, paymentPeriodId })`. */
  datatype CreateDebtRequest = CreateDebtRequest(amount: int, description: string, paymentPeriodId: string)

  /**
   * The debt synthesised for the cache: pending, without expiry, in the current period,
   * with the submitted amount and description; its id and its two dates (each read from
   * the clock separately) are supplied by the caller.
   */
  function PendingDebit(values: FormValues, currentPeriodId: string, debtId: string, createdAt: int, updatedAt: int): (r: Debit)
    ensures r.status == Pending && r.expiresAt == None && r.periodId == Some(currentPeriodId)
    ensures r.amount == values.amount && r.description == values.description
    ensures r.id == debtId && r.createdAt == createdAt && r.updatedAt == updatedAt
  {
    Debit(Pending, debtId, createdAt, updatedAt, values.description, Some(currentPeriodId), values.amount, None)
  }

  /**
   * `[...(cache ?? []), newDebitData]`: one entry longer, the new debt last, every
   * earlier entry where it was; an absent list counts as empty.
   */
  function AppendPending(cache: Option<seq<Debit>>, debit: Debit): (r: seq<Debit>)
    ensures |r| == |cache.GetOr([])| + 1
    ensures r[..|r| - 1] == cache.GetOr([]) && r[|r| - 1] == debit
    ensures cache.None? ==> r == [debit]
  {
    cache.GetOr([]) + [debit]
  }

  /** `updateDebitCache`: appends the pending debt under the current key and returns the old list. */
  method UpdateDebitCache(client: DebtsQueryCache, currentPeriodId: string, values: FormValues, debtId: string, createdAt: int, updatedAt: int)
    returns (cache: Option<seq<Debit>>)
    modifies client
    ensures cache == old(client.GetQueryData(currentPeriodId))
    ensures client.entries == old(client.entries)[currentPeriodId := AppendPending(cache, PendingDebit(values, currentPeriodId, debtId, createdAt, updatedAt))]
    ensures client.stale == old(client.stale) - {currentPeriodId}
  {
    cache := client.GetQueryData(currentPeriodId);
    var newDebitData := PendingDebit(values, currentPeriodId, debtId, createdAt, updatedAt);
    client.SetQueryData(currentPeriodId, Some(AppendPending(cache, newDebitData)));
  }

  /** `onMutate`: the optimistic append; the old list is kept as the mutation's context. */
  method OnMutate(client: DebtsQueryCache, currentPeriodId: string, request: CreateDebtRequest, debtId: string, createdAt: int, updatedAt: int)
    returns (snapshot: Option<seq<Debit>>)
    modifies client
    ensures snapshot == old(client.GetQueryData(currentPeriodId))
    ensures client.entries == old(client.entries)[currentPeriodId :=
      AppendPending(snapshot, PendingDebit(FormValues(request.description, request.amount), currentPeriodId, debtId, createdAt, updatedAt))]
    ensures client.stale == old(client.stale) - {currentPeriodId}
  {
    snapshot := UpdateDebitCache(client, currentPeriodId, FormValues(request.description, request.amount), debtId, createdAt, updatedAt);
  }

  /**
   * `onError` as written: `setQueryData(key, snapshot)`. A present snapshot is written
   * back; an absent one is ignored by the cache, so the optimistic list stays.
   */
  method OnError(client: DebtsQueryCache, currentPeriodId: string, snapshot: Option<seq<Debit>>)
    modifies client
    ensures snapshot.Some? ==>
      && client.entries == old(client.entries)[currentPeriodId := snapshot.value]
      && client.stale == old(client.stale) - {currentPeriodId}
    ensures snapshot.None? ==> client.entries == old(client.entries) && client.stale == old(client.stale)
  {
    client.SetQueryData(currentPeriodId, snapshot);
  }

  /**
   * A create refused by the server while nothing was cached for the period: the
   * rollback as written leaves the synthesised debt in the cache.
   */
  method FailedCreateKeepsOptimisticRow(currentPeriodId: string, values: FormValues, debtId: string, createdAt: int, updatedAt: int)
    returns (before: Option<seq<Debit>>, after: Option<seq<Debit>>)
    ensures before == None
    ensures after == Some([PendingDebit(values, currentPeriodId, debtId, createdAt, updatedAt)])
  {
    var client := new DebtsQueryCache();
    before := client.GetQueryData(currentPeriodId);
    var request := CreateDebtRequest(values.amount, values.description, currentPeriodId);
    var snapshot := OnMutate(client, currentPeriodId, request, debtId, createdAt, updatedAt);
    OnError(client, currentPeriodId, snapshot);
    after := client.GetQueryData(currentPeriodId);
  }

  /**
   * The rollback as intended: the key reads exactly as the snapshot afterwards, also
   * when the snapshot is absent (the entry is then dropped).
   */
  method RestoreSnapshot(client: DebtsQueryCache, currentPeriodId: string, snapshot: Option<seq<Debit>>)
    modifies client
    ensures client.GetQueryData(currentPeriodId) == snapshot
    ensures forall p :: p != currentPeriodId ==> client.GetQueryData(p) == old(client.GetQueryData(p))
    ensures client.stale == old(client.stale) - {currentPeriodId}
  {
    if snapshot.Some? {
      client.SetQueryData(currentPeriodId, snapshot);
    } else {
      client.RemoveQueries(currentPeriodId);
    }
  }

  /** The result of pressing "Criar". */
  datatype SubmitOutcome = Refused(issues: seq<FormIssue>) | Created | Failed

  /**
   * `form.handleSubmit(onSubmit)` with the server's answer as `serverAccepts`: invalid
   * input issues nothing; a created debt stays in the cache and resets the form; a
   * refused one leaves the cache as it was before the optimistic write. The reset form
   * is refused for its empty description, so submitting it again sends nothing.
   */
  method Submit(client: DebtsQueryCache, currentPeriodId: string, input: FormValues, debtId: string, createdAt: int, updatedAt: int, serverAccepts: bool)
    returns (outcome: SubmitOutcome, form: FormValues)
    modifies client
    ensures ValidateForm(input).Err? ==>
      && outcome == Refused(ValidateForm(input).error) && form == input
      && client.entries == old(client.entries) && client.stale == old(client.stale)
    ensures ValidateForm(input).Ok? && serverAccepts ==>
      && outcome == Created && form == ResetValues
      && client.GetQueryData(currentPeriodId) ==
         Some(AppendPending(old(client.GetQueryData(currentPeriodId)),
                            PendingDebit(ValidateForm(input).value, currentPeriodId, debtId, createdAt, updatedAt)))
    ensures ValidateForm(input).Ok? && !serverAccepts ==>
      && outcome == Failed && form == input
      && client.GetQueryData(currentPeriodId) == old(client.GetQueryData(currentPeriodId))
    ensures ValidateForm(input).Ok? ==> client.stale == old(client.stale) - {currentPeriodId}
    ensures forall p :: p != currentPeriodId ==> client.GetQueryData(p) == old(client.GetQueryData(p))
    ensures outcome == Created ==> ValidateForm(form) == Err([DescriptionEmpty])
  {
    var parsed := ValidateForm(input);
    if parsed.Err? {
      return Refused(parsed.error), input;
    }
    var values := parsed.value;
    var request := CreateDebtRequest(values.amount, values.description, currentPeriodId);
    var snapshot := OnMutate(client, currentPeriodId, request, debtId, createdAt, updatedAt);
    if serverAccepts {
      outcome, form := Created, ResetValues;
      assert [DescriptionEmpty] + [] == [DescriptionEmpty];
    } else {
      RestoreSnapshot(client, currentPeriodId, snapshot);
      outcome, form := Failed, input;
    }
  }
}
