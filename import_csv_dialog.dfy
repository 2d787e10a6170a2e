/**
 * The CSV import dialog: the file checks, the early return without a file, the upload
 * of the first selected file, and the invalidation of the period's debts on success.
 */
module ImportCsvDialog {
  import opened Wrappers
  import opened QueryCache

  /** A selected file; only its MIME type matters here. */
  datatype File = File(name: string, mimeType: string)

  const InvalidFileMessage := "Informe um arquivo válido"
  const NotCsvMessage := "O arquivo deve ser do tipo csv"
  const CsvType := "text/csv"

  /** The schema's verdict: the file list, the messages of the failed checks, or a thrown TypeError. */
  datatype FileCheck = Accepted(files: seq<File>) | Rejected(messages: seq<string>) | Throws

  /**
   * The two `refine` checks as written. Both run; `null` fails both. On a list without a
   * first entry, `value?.[0].type` reads `.type` of undefined and throws.
   */
  function CheckFileAsWritten(file: Option<seq<File>>): (r: FileCheck)
    ensures file.None? ==> r == Rejected([InvalidFileMessage, NotCsvMessage])
    ensures file == Some([]) ==> r.Throws?
    ensures r.Accepted? <==> file.Some? && |file.value| > 0 && file.value[0].mimeType == CsvType
  {
    match file
    case None => Rejected([InvalidFileMessage, NotCsvMessage])
    case Some(files) =>
      if |files| == 0 then Throws
      else if files[0].mimeType == CsvType then Accepted(files)
      else Rejected([NotCsvMessage])
  }

  /**
   * The checks with the first entry read as `value?.[0]?.type`: nothing throws, and a
   * missing first entry fails the CSV check like any other non-CSV file.
   */
  function CheckFile(file: Option<seq<File>>): (r: FileCheck)
    ensures !r.Throws?
    ensures r.Accepted? <==> file.Some? && |file.value| > 0 && file.value[0].mimeType == CsvType
    ensures r.Accepted? ==> r.files == file.value
    ensures file.None? ==> r == Rejected([InvalidFileMessage, NotCsvMessage])
    ensures file.Some? && !r.Accepted? ==> r == Rejected([NotCsvMessage])
    ensures file.Some? && |file.value| > 0 ==> r == CheckFileAsWritten(file)
  {
    var first := if file.Some? && |file.value| > 0 then Some(file.value[0]) else None;
    var messages := (if file.None? then [InvalidFileMessage] else [])
                  + (if first.None? || first.value.mimeType != CsvType then [NotCsvMessage] else []);
    if messages == [] then Accepted(file.value) else Rejected(messages)
  }

  /**
   * The empty file list that a cancelled file picker leaves crashes the check as
   * written, where the corrected check reports it as not a CSV file.
   */
  lemma EmptySelectionThrows()
    ensures CheckFileAsWritten(Some([])) == Throws
    ensures CheckFile(Some([])) == Rejected([NotCsvMessage])
  {
    assert [] + [NotCsvMessage] == [NotCsvMessage];
  }

  /** `importDebtCsvFile({ data, periodId })`, with the multipart field `csv`. */
  datatype ImportRequest = ImportRequest(csv: File, periodId: string)

  /**
   * `onSubmit`: without a file it returns before anything is sent; otherwise it uploads
   * the first selected file as the field `csv`.
   */
  function OnSubmit(file: Option<seq<File>>, currentPeriodId: string): (r: Option<ImportRequest>)
    requires file.Some? ==> |file.value| > 0
    ensures r.None? <==> file.None?
    ensures r.Some? ==> r.value.csv == file.value[0] && r.value.periodId == currentPeriodId
  {
    if file.None? then None else Some(ImportRequest(file.value[0], currentPeriodId))
  }

  /** What pressing "Importar" led to. */
  datatype ImportOutcome = Invalid(messages: seq<string>) | Imported(request: ImportRequest) | ImportFailed(request: ImportRequest)

  /**
   * `handleSubmit(onSubmit)` with the server's answer as `serverAccepts`: a refused file
   * sends nothing; an accepted import only invalidates the current period's debts,
   * writing no rows; a failed one leaves the cache alone.
   */
  method Submit(client: DebtsQueryCache, currentPeriodId: string, file: Option<seq<File>>, serverAccepts: bool)
    returns (outcome: ImportOutcome)
    modifies client
    ensures client.entries == old(client.entries)
    ensures !CheckFile(file).Accepted? ==>
      outcome == Invalid(CheckFile(file).messages) && client.stale == old(client.stale)
    ensures CheckFile(file).Accepted? && serverAccepts ==>
      && outcome == Imported(ImportRequest(file.value[0], currentPeriodId))
      && client.stale == old(client.stale) + {currentPeriodId}
    ensures CheckFile(file).Accepted? && !serverAccepts ==>
      outcome == ImportFailed(ImportRequest(file.value[0], currentPeriodId)) && client.stale == old(client.stale)
  {
    var check := CheckFile(file);
    if !check.Accepted? {
      return Invalid(check.messages);
    }
    var request := OnSubmit(file, currentPeriodId);
    if serverAccepts {
      client.InvalidateQueries(currentPeriodId);
      outcome := Imported(request.value);
    } else {
      outcome := ImportFailed(request.value);
    }
  }
}
