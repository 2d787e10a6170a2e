/**
 * The "new period" dialog: the rule that a period ends strictly after it starts, and the
 * calendar's range selection, which keeps the previous bound for a missing end.
 */
module CreatePeriodDialog {
  import opened Wrappers

  /** The form value: the period's bounds as integer timestamps. */
  datatype PeriodRange = PeriodRange(startPeriod: int, endPeriod: int)

  /** A schema issue added by the refinement. */
  datatype Issue = Custom(message: string)

  const EndBeforeStartMessage := "A data final deve ser depois da data inicial"

  /** `isAfter(date, dateToCompare)`: the first date is strictly later than the second. */
  predicate IsAfter(date: int, dateToCompare: int) {
    date > dateToCompare
  }

  /**
   * `formSchema` with its `superRefine`: a period whose end is not strictly after its
   * start gets exactly one custom issue, with the fixed message.
   */
  function ValidatePeriod(period: PeriodRange): (r: Result<PeriodRange, seq<Issue>>)
    ensures r.Ok? <==> period.endPeriod > period.startPeriod
    ensures r.Ok? ==> r.value == period
    ensures r.Err? ==> r.error == [Custom(EndBeforeStartMessage)]
  {
    var issues := if !IsAfter(period.endPeriod, period.startPeriod) then [Custom(EndBeforeStartMessage)] else [];
    if issues == [] then Ok(period) else Err(issues)
  }

  /** What the range calendar reports: nothing, or a range whose ends may each be missing. */
  datatype DateRange = DateRange(from: Option<int>, to: Option<int>)

  /** `onSelect`: `range?.from ?? startPeriod` and `range?.to ?? endPeriod`. */
  function SelectRange(current: PeriodRange, range: Option<DateRange>): (r: PeriodRange)
    ensures range.Some? && range.value.from.Some? ==> r.startPeriod == range.value.from.value
    ensures range.None? || range.value.from.None? ==> r.startPeriod == current.startPeriod
    ensures range.Some? && range.value.to.Some? ==> r.endPeriod == range.value.to.value
    ensures range.None? || range.value.to.None? ==> r.endPeriod == current.endPeriod
  {
    match range
    case None => PeriodRange(current.startPeriod, current.endPeriod)
    case Some(DateRange(from, to)) => PeriodRange(from.GetOr(current.startPeriod), to.GetOr(current.endPeriod))
  }

  /** Reporting the same selection twice leaves the form where the first report put it. */
  lemma SelectRangeIdempotent(current: PeriodRange, range: Option<DateRange>)
    ensures SelectRange(SelectRange(current, range), range) == SelectRange(current, range)
  {
  }

  /**
   * Picking only a start on or after the current end (the first click of a range) makes
   * the form invalid until an end is picked.
   */
  lemma StartOnlySelectionPastEndIsRefused(current: PeriodRange, from: int)
    requires from >= current.endPeriod
    ensures ValidatePeriod(SelectRange(current, Some(DateRange(Some(from), None)))) ==
            Err([Custom(EndBeforeStartMessage)])
  {
  }
}
