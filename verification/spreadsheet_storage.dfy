/**
 * The spreadsheet store of submissions (SpreadsheetStorage): a workbook of three sheets
 * (Submissions, Materials, Validation Sources), each a list of rows that saving a
 * submission appends to, a cache of the workbook last read from the file, and the
 * lookups over the Submissions sheet.
 */
module Storage {
  import opened Values
  import opened Seqs
  import opened Strings
  import opened Submission

  // ---------------------------------------------------------------- sheets as rows

  /** One row of cells, as `sheet_to_json(ws, { header: 1 })` returns it. */
  type Row = seq<JsValue>

  /** A record of `sheet_to_json(ws)`: the filled cells of a row, keyed by their column's header. */
  type Record = map<string, JsValue>

  /** A sheet: its rows from the top. */
  type Sheet = seq<Row>

  /** The three sheets of the workbook, by name. */
  datatype Sheets = Sheets(submissions: Sheet, materials: Sheet, sources: Sheet)

  /** The workbook `book_new` creates with three sheets made by `aoa_to_sheet([])`. */
  const EmptySheets := Sheets([], [], [])

  /** A header row: one text cell per column name. */
  function Headers(names: seq<string>): (h: Row)
    ensures |h| == |names|
    ensures forall i :: 0 <= i < |h| ==> h[i] == Str(names[i])
  {
    MapSeq(names, (name: string) => Str(name))
  }

  /** `Object.keys(row)` written as cells. */
  function RowKeys(entries: seq<(string, JsValue)>): (h: Row)
    ensures |h| == |entries|
    ensures forall i :: 0 <= i < |h| ==> h[i] == Str(entries[i].0)
  {
    if entries == [] then [] else [Str(entries[0].0)] + RowKeys(entries[1..])
  }

  /** `Object.values(row)` */
  function RowValues(entries: seq<(string, JsValue)>): (v: Row)
    ensures |v| == |entries|
    ensures forall i :: 0 <= i < |v| ==> v[i] == entries[i].1
  {
    if entries == [] then [] else [entries[0].1] + RowValues(entries[1..])
  }

  /**
   * The rows of a sheet after an append: the header goes first when the sheet was empty,
   * then the new rows; the rows already there are kept as they were.
   */
  function Appended(sheet: Sheet, header: Row, rows: seq<Row>): (r: Sheet)
    ensures |r| == |sheet| + (if sheet == [] then 1 else 0) + |rows|
    ensures r[..|sheet|] == sheet
    ensures sheet == [] ==> r[0] == header
    ensures r[|r| - |rows|..] == rows
  {
    (if |sheet| == 0 then sheet + [header] else sheet) + rows
  }

  // ---------------------------------------------------------------- Submissions sheet

  /** The header row of the Submissions sheet. */
  function SubmissionHeader(): Row {
    Headers(SubmissionColumns)
  }

  /** The values row a submission adds to the Submissions sheet: one cell per column, the id first. */
  function SubmissionValues(fd: FormData, stringify: Stringify): (v: Row)
    ensures |v| == 28 && v[0] == fd.id
  {
    RowValues(ToSpreadsheetRow(fd, stringify))
  }

  /** Entries named by the given names, in order, have those names as their header. */
  lemma KeysAreHeaders(entries: seq<(string, JsValue)>, names: seq<string>)
    requires |entries| == |names|
    requires forall i :: 0 <= i < |entries| ==> entries[i].0 == names[i]
    ensures RowKeys(entries) == Headers(names)
  {
  }

  /** The keys of every submission's row form the same header. */
  lemma SubmissionKeys(fd: FormData, stringify: Stringify)
    ensures RowKeys(ToSpreadsheetRow(fd, stringify)) == SubmissionHeader()
  {
    KeysAreHeaders(ToSpreadsheetRow(fd, stringify), SubmissionColumns);
  }

  /** The Submissions sheet after `addSubmissionRow`. */
  function SubmissionAppended(sheet: Sheet, fd: FormData, stringify: Stringify): Sheet {
    Appended(sheet, SubmissionHeader(), [SubmissionValues(fd, stringify)])
  }

  // ---------------------------------------------------------------- Materials sheet

  const MaterialsColumns: seq<string> := [
    "Submission ID", "Submission Date", "Production Lot/Batch No.", "Composition Material",
    "Percentage", "Sustainable", "Sustainability Claim", "Feedstock Type"
  ]

  /** The header row of the Materials sheet. */
  function MaterialsHeader(): Row {
    Headers(MaterialsColumns)
  }

  /** The detail row of one material of a submission. */
  function MaterialRow(fd: FormData, m: Material): (r: Row)
    ensures |r| == 8
    ensures r[0] == fd.id && r[3] == m.compositionMaterial && r[4] == m.percentage
    ensures r[5] == Str("Yes") || r[5] == Str("No")
    ensures r[5] == Str("Yes") <==> Truthy(m.sustainable)
    ensures !Nullish(r[6]) && !Nullish(r[7])
  {
    [fd.id, fd.submissionDate, fd.productionLotBatchNo, m.compositionMaterial, m.percentage,
     YesNo(m.sustainable), Or(m.sustainabilityClaim, Str("")), Or(m.feedstockRecycledMaterials, Str(""))]
  }

  /** The detail rows of the given materials, in order. */
  function MaterialRows(fd: FormData, ms: seq<Material>): (rows: seq<Row>)
    ensures |rows| == |ms|
    ensures forall i :: 0 <= i < |ms| ==> rows[i] == MaterialRow(fd, ms[i])
  {
    if ms == [] then [] else MaterialRows(fd, ms[..|ms| - 1]) + [MaterialRow(fd, ms[|ms| - 1])]
  }

  /** The Materials sheet after `saveMaterialsDetail`. */
  function MaterialsAppended(sheet: Sheet, fd: FormData): Sheet {
    Appended(sheet, MaterialsHeader(), MaterialRows(fd, fd.materials))
  }

  // ---------------------------------------------------------------- Validation Sources sheet

  const SourcesColumns: seq<string> := [
    "Submission ID", "Production Lot/Batch No.", "Source #", "Kgs", "Feedstock Type",
    "Feedstock Source Type", "Source Name", "Address", "Source Certification",
    "Source Invoice No.", "Source Invoice Date", "Invoice File", "Packing List File",
    "Proof of Delivery File", "Lab Testing File", "Certificates", "Other Documents"
  ]

  /** `list || []` for a list that may be absent. */
  function OrEmpty(docs: Option<seq<Document>>): seq<Document> {
    if docs.Some? then docs.value else []
  }

  /** The header row of the Validation Sources sheet. */
  function SourcesHeader(): Row {
    Headers(SourcesColumns)
  }

  /** The row of one validation source, numbered n. */
  function SourceRow(fd: FormData, n: int, src: Source, stringify: Stringify): (r: Row)
    ensures |r| == 17
    ensures r[0] == fd.id && r[1] == fd.productionLotBatchNo && r[2] == Num(n)
    ensures r[15] == Str(stringify(DocumentsPayload(OrEmpty(src.certificates))))
    ensures r[16] == Str(stringify(DocumentsPayload(OrEmpty(src.otherDocuments))))
  {
    [fd.id, fd.productionLotBatchNo, Num(n), src.kgs, src.feedstockType, src.feedstockSourceType,
     src.sourceName, src.address, src.sourceCertification, src.sourceInvoiceNo, src.sourceInvoiceDate,
     src.invoiceFile, src.packingListFile, src.proofOfDeliveryFile, src.labTestingFile,
     Str(stringify(DocumentsPayload(OrEmpty(src.certificates)))),
     Str(stringify(DocumentsPayload(OrEmpty(src.otherDocuments))))]
  }

  /** The rows of the given sources, numbered from `first` on. */
  function SourceRows(fd: FormData, srcs: seq<Source>, first: int, stringify: Stringify): (rows: seq<Row>)
    ensures |rows| == |srcs|
    ensures forall i :: 0 <= i < |srcs| ==> rows[i] == SourceRow(fd, first + i, srcs[i], stringify)
  {
    if srcs == [] then []
    else
      var n := |srcs| - 1;
      SourceRows(fd, srcs[..n], first, stringify) + [SourceRow(fd, first + n, srcs[n], stringify)]
  }

  /** The sources of a submission are numbered 1 to n in their order, each row the width of the header. */
  lemma SourcesNumbered(fd: FormData, srcs: seq<Source>, stringify: Stringify)
    ensures forall i :: 0 <= i < |srcs| ==>
      |SourceRows(fd, srcs, 1, stringify)[i]| == |SourcesHeader()|
      && SourceRows(fd, srcs, 1, stringify)[i][2] == Num(i + 1)
  {
  }

  /** The Validation Sources sheet after `saveValidationSources`. */
  function SourcesAppended(sheet: Sheet, fd: FormData, sv: SelfValidation, stringify: Stringify): Sheet {
    Appended(sheet, SourcesHeader(), SourceRows(fd, sv.sources, 1, stringify))
  }

  // ---------------------------------------------------------------- saving a submission

  /** `formData.validationMethod === 'SelfValidation' && formData.selfValidation` */
  predicate SelfValidates(fd: FormData) {
    StrictEquals(fd.validationMethod, Str("SelfValidation")) && fd.selfValidation.Some?
  }

  /** The three sheets after saving a submission onto the given ones. */
  function SubmissionSaved(s: Sheets, fd: FormData, stringify: Stringify): Sheets {
    Sheets(
      SubmissionAppended(s.submissions, fd, stringify),
      MaterialsAppended(s.materials, fd),
      if SelfValidates(fd) then SourcesAppended(s.sources, fd, fd.selfValidation.value, stringify) else s.sources)
  }

  // ---------------------------------------------------------------- reading records back

  /** The property name `sheet_to_json` gives a header cell; None for a cell that names no column. */
  function HeaderName(cell: JsValue): Option<string> {
    match cell
    case Str(s) => Some(s)
    case Num(n) => Some(IntToString(n))
    case _ => None
  }

  /** One record of `sheet_to_json(ws)`: the row's cells keyed by the header; empty cells are left out. */
  function RecordOf(header: Row, row: Row): (rec: Record)
    ensures forall k :: k in rec ==> !Nullish(rec[k])
    ensures header != [] && header[0].Str? && row != [] && !Nullish(row[0]) ==> header[0].s in rec && rec[header[0].s] == row[0]
    decreases |header|
  {
    if header == [] then map[]
    else
      var rest := RecordOf(header[1..], if row == [] then [] else row[1..]);
      var cell := if row == [] then Undefined else row[0];
      match HeaderName(header[0])
      case Some(name) => if Nullish(cell) then rest else rest[name := cell]
      case None => rest
  }

  /** The records of the rows under a header; a row with no filled cell gives none. */
  function RecordsOf(header: Row, rows: seq<Row>): (recs: seq<Record>)
    ensures |recs| <= |rows|
    ensures forall i :: 0 <= i < |recs| ==> |recs[i]| > 0
  {
    if rows == [] then []
    else
      var rec := RecordOf(header, rows[0]);
      (if |rec| == 0 then [] else [rec]) + RecordsOf(header, rows[1..])
  }

  /** `sheet_to_json(ws)`: the first row is the header, every later row a record. */
  function Records(sheet: Sheet): seq<Record> {
    if sheet == [] then [] else RecordsOf(sheet[0], sheet[1..])
  }

  /** Records are read row by row: the records of two blocks of rows are those of each, in order. */
  lemma {:induction false} RecordsOfAppend(header: Row, rows: seq<Row>, more: seq<Row>)
    ensures RecordsOf(header, rows + more) == RecordsOf(header, rows) + RecordsOf(header, more)
  {
    if rows == [] {
      assert rows + more == more;
    } else {
      var all := rows + more;
      assert all[0] == rows[0] && all[1..] == rows[1..] + more;
      RecordsOfAppend(header, rows[1..], more);
      var rec := RecordOf(header, rows[0]);
      var head: seq<Record> := if |rec| == 0 then [] else [rec];
      assert RecordsOf(header, all) == head + RecordsOf(header, rows[1..] + more);
      assert RecordsOf(header, rows) == head + RecordsOf(header, rows[1..]);
    }
  }

  /** `s['Submission ID'] === id` */
  predicate HasId(rec: Record, id: JsValue) {
    StrictEquals(Get(rec, "Submission ID"), id)
  }

  /** The position of the first record with the id; |recs| when there is none. */
  function FirstWithId(recs: seq<Record>, id: JsValue): (k: nat)
    ensures k <= |recs|
    ensures forall j :: 0 <= j < k ==> !HasId(recs[j], id)
    ensures k < |recs| ==> HasId(recs[k], id)
  {
    if recs == [] || HasId(recs[0], id) then 0 else 1 + FirstWithId(recs[1..], id)
  }

  /** `submissions.find(s => s['Submission ID'] === id)`: the first record with the id. */
  function FindById(recs: seq<Record>, id: JsValue): (r: Option<Record>)
    ensures r.None? <==> forall i :: 0 <= i < |recs| ==> !HasId(recs[i], id)
    ensures r.Some? ==> exists i :: 0 <= i < |recs| && recs[i] == r.value && HasId(r.value, id)
                                   && forall j :: 0 <= j < i ==> !HasId(recs[j], id)
  {
    var k := FirstWithId(recs, id);
    if k < |recs| then Some(recs[k]) else None
  }

  /** A record meets the criteria: it strictly equals every criterion that is not null or undefined. */
  predicate Matches(criteria: Record, rec: Record) {
    forall key :: key in criteria ==> Nullish(criteria[key]) || StrictEquals(Get(rec, key), criteria[key])
  }

  /** The criteria check, as the predicate the filter takes. */
  function MatchesAll(criteria: Record): Record -> bool {
    rec => Matches(criteria, rec)
  }

  /** `submissions.filter(...)` with the criteria check. */
  function Search(recs: seq<Record>, criteria: Record): (r: seq<Record>)
    ensures forall rec :: rec in r <==> rec in recs && Matches(criteria, rec)
  {
    Filter(recs, MatchesAll(criteria))
  }

  /** The search keeps the records' order: its result is a subsequence of them. */
  lemma SearchIsSubsequence(recs: seq<Record>, criteria: Record)
    ensures IsSubsequence(Search(recs, criteria), recs)
  {
    FilterIsSubsequence(recs, MatchesAll(criteria));
  }

  /** The search keeps every copy of a matching record and no copy of any other. */
  lemma SearchMultiplicity(recs: seq<Record>, criteria: Record)
    ensures forall rec :: multiset(Search(recs, criteria))[rec] == if Matches(criteria, rec) then multiset(recs)[rec] else 0
  {
    FilterMultiplicity(recs, MatchesAll(criteria));
  }

  /** Criteria that are empty or all null/undefined return every record. */
  lemma SearchNullCriteria(recs: seq<Record>, criteria: Record)
    requires forall key :: key in criteria ==> Nullish(criteria[key])
    ensures Search(recs, criteria) == recs
  {
    FilterKeepsAll(recs, MatchesAll(criteria));
  }

  /** Searching by two sets of criteria on different keys, one after the other, is searching by both. */
  lemma SearchConjunctive(recs: seq<Record>, c1: Record, c2: Record)
    requires c1.Keys !! c2.Keys
    ensures Search(Search(recs, c1), c2) == Search(recs, c1 + c2)
  {
    var p, q := MatchesAll(c1), MatchesAll(c2);
    FilterComposed(recs, p, q);
    forall rec | rec in recs ensures Both(p, q)(rec) == MatchesAll(c1 + c2)(rec) {
      if Matches(c1 + c2, rec) {
        forall key | key in c1 ensures Nullish(c1[key]) || StrictEquals(Get(rec, key), c1[key]) {
          assert key !in c2 && (c1 + c2)[key] == c1[key];
        }
      }
    }
    FilterCongruent(recs, Both(p, q), MatchesAll(c1 + c2));
  }

  /** Searching by the id finds, in order, the records getSubmission picks the first of. */
  lemma {:induction false} FindIsFirstOfSearch(recs: seq<Record>, id: JsValue)
    requires !Nullish(id)
    ensures FindById(recs, id) == (var r := Search(recs, map["Submission ID" := id]); if r == [] then None else Some(r[0]))
  {
    var c := map["Submission ID" := id];
    if recs != [] {
      FindIsFirstOfSearch(recs[1..], id);
      assert Matches(c, recs[0]) <==> HasId(recs[0], id);
    }
  }

  /** Appending one row under the sheet's own header adds that row's record, if any, after the others. */
  lemma AppendedRecords(sheet: Sheet, header: Row, row: Row)
    requires sheet == [] || sheet[0] == header
    ensures Records(Appended(sheet, header, [row])) == Records(sheet) + RecordsOf(header, [row])
  {
    var t := Appended(sheet, header, [row]);
    var body := if sheet == [] then [] else sheet[1..];
    assert t[0] == header && t[1..] == body + [row];
    RecordsOfAppend(header, body, [row]);
  }

  /** getSubmission finds a record whenever some record has the id. */
  lemma FoundWhenPresent(recs: seq<Record>, k: int, id: JsValue)
    requires 0 <= k < |recs| && HasId(recs[k], id)
    ensures FindById(recs, id).Some?
  {
  }

  /** A row whose first cell is a filled id, under a header naming the Submission ID first, gives a record with that id. */
  lemma RecordOfHasId(header: Row, row: Row, id: JsValue)
    requires header != [] && header[0] == Str("Submission ID")
    requires row != [] && row[0] == id && !Nullish(id) && IsPrimitive(id)
    ensures HasId(RecordOf(header, row), id) && |RecordOf(header, row)| > 0
  {
    assert RecordOf(header, row)["Submission ID"] == id;
  }

  /** The single row's record, when it has a filled cell, is the last record after the append. */
  lemma AppendedRecordLast(sheet: Sheet, header: Row, row: Row)
    requires sheet == [] || sheet[0] == header
    requires |RecordOf(header, row)| > 0
    ensures Records(Appended(sheet, header, [row])) == Records(sheet) + [RecordOf(header, row)]
  {
    AppendedRecords(sheet, header, row);
    assert RecordsOf(header, [row]) == [RecordOf(header, row)] + RecordsOf(header, []);
  }

  /** A row appended under a header whose first column is the Submission ID is found by the id in its first cell. */
  lemma AppendedRowFound(sheet: Sheet, header: Row, row: Row, id: JsValue)
    requires sheet == [] || sheet[0] == header
    requires header != [] && header[0] == Str("Submission ID")
    requires row != [] && row[0] == id && !Nullish(id) && IsPrimitive(id)
    ensures FindById(Records(Appended(sheet, header, [row])), id).Some?
  {
    RecordOfHasId(header, row, id);
    AppendedRecordLast(sheet, header, row);
    var recs := Records(sheet) + [RecordOf(header, row)];
    FoundWhenPresent(recs, |recs| - 1, id);
  }

  /**
   * A submission added to a Submissions sheet that is empty or headed by the submission
   * header is found again by its id, when that id is a filled primitive value.
   */
  lemma SavedSubmissionFound(sheet: Sheet, fd: FormData, stringify: Stringify)
    requires sheet == [] || sheet[0] == SubmissionHeader()
    requires Truthy(fd.id) && IsPrimitive(fd.id)
    ensures FindById(Records(SubmissionAppended(sheet, fd, stringify)), fd.id).Some?
  {
    assert SubmissionHeader()[0] == Str("Submission ID");
    AppendedRowFound(sheet, SubmissionHeader(), SubmissionValues(fd, stringify), fd.id);
  }

  // ---------------------------------------------------------------- the workbook and the file

  /** An open workbook; its sheets are replaced in place. */
  class Workbook {
    var submissions: Sheet
    var materials: Sheet
    var sources: Sheet

    function Contents(): Sheets
      reads this
    {
      Sheets(submissions, materials, sources)
    }

    /** `book_new` with the three sheets, or `readFile` of a file holding them. */
    constructor (s: Sheets)
      ensures Contents() == s
    {
      submissions, materials, sources := s.submissions, s.materials, s.sources;
    }
  }

  /** The workbook file: whether it exists, its modification time and what it holds. */
  class WorkbookFile {
    var present: bool
    var mtime: int
    var stored: Sheets

    constructor ()
      ensures !present
    {
      present, mtime, stored := false, 0, EmptySheets;
    }
  }

  class SpreadsheetStorage {
    const file: WorkbookFile
    var workbookCache: Workbook?
    /** The modification time of the file when the cached workbook was read from it. */
    var lastModified: Option<int>

    /** The store starts with nothing cached. */
    constructor (file: WorkbookFile)
      ensures this.file == file && workbookCache == null && lastModified == None
    {
      this.file := file;
      workbookCache := null;
      lastModified := None;
    }

    /** Whether loadWorkbook may return the cached workbook without reading the file. */
    predicate CacheHit()
      reads this, file
    {
      file.present && workbookCache != null && lastModified == Some(file.mtime)
    }

    /** The sheets loadWorkbook returns in the current state. */
    function Loaded(): Sheets
      reads this, file, workbookCache
    {
      if !file.present then EmptySheets
      else if CacheHit() then workbookCache.Contents()
      else file.stored
    }

    /**
     * `loadWorkbook()`: the cached workbook while the file's mtime is the one it was read at;
     * otherwise the file is read and cached with its mtime; a missing file gives a new empty
     * workbook, which is cached while lastModified stays as it was. Loading never changes
     * what the next load returns.
     */
    method LoadWorkbook() returns (wb: Workbook)
      modifies this
      ensures wb.Contents() == old(Loaded()) && Loaded() == old(Loaded())
      ensures old(CacheHit()) ==> wb == old(workbookCache) && unchanged(this)
      ensures !old(CacheHit()) ==> fresh(wb) && workbookCache == wb
      ensures !old(CacheHit()) && file.present ==> lastModified == Some(file.mtime)
      ensures !file.present ==> lastModified == old(lastModified)
    {
      if file.present {
        var modified := file.mtime;
        if workbookCache != null && lastModified == Some(modified) {
          return workbookCache;
        }
        wb := new Workbook(file.stored);
        workbookCache := wb;
        lastModified := Some(modified);
        return;
      }
      wb := new Workbook(EmptySheets);
      workbookCache := wb;
    }

    /** `saveWorkbook(wb)`: the file is written (at time `now`) and the cache is dropped. */
    method SaveWorkbook(wb: Workbook, now: int)
      modifies this, file
      ensures file.present && file.stored == old(wb.Contents()) && file.mtime == now
      ensures workbookCache == null && lastModified == None
    {
      file.present, file.stored, file.mtime := true, wb.Contents(), now;
      workbookCache := null;
      lastModified := None;
    }

    /** `saveSubmission(formData)`: appends the submission to the loaded workbook, writes it and returns the id. */
    method SaveSubmission(fd: FormData, stringify: Stringify, now: int) returns (id: JsValue)
      modifies this, file, workbookCache
      ensures id == fd.id
      ensures file.present && file.stored == SubmissionSaved(old(Loaded()), fd, stringify) && file.mtime == now
      ensures workbookCache == null && lastModified == None
    {
      ghost var saved := SubmissionSaved(Loaded(), fd, stringify);
      assert saved == SubmissionSaved(old(Loaded()), fd, stringify);
      var wb := LoadWorkbook();
      AppendSubmission(wb, fd, stringify);
      assert wb.Contents() == saved;
      SaveWorkbook(wb, now);
      id := fd.id;
    }

    /** `getAllSubmissions()`: the records of the Submissions sheet; none when there is no file. */
    method GetAllSubmissions() returns (recs: seq<Record>)
      modifies this
      ensures recs == (if old(file.present) then Records(old(Loaded()).submissions) else [])
      ensures Loaded() == old(Loaded())
      ensures !old(file.present) ==> unchanged(this)
    {
      if !file.present {
        return [];
      }
      var wb := LoadWorkbook();
      recs := Records(wb.submissions);
    }

    /** `getSubmission(id)`: the first record whose Submission ID is the id. */
    method GetSubmission(id: JsValue) returns (r: Option<Record>)
      modifies this
      ensures r == FindById(if old(file.present) then Records(old(Loaded()).submissions) else [], id)
      ensures Loaded() == old(Loaded())
    {
      var recs := GetAllSubmissions();
      r := FindById(recs, id);
    }

    /** `searchSubmissions(criteria)`: the records meeting every criterion, in sheet order. */
    method SearchSubmissions(criteria: Record) returns (r: seq<Record>)
      modifies this
      ensures r == Search(if old(file.present) then Records(old(Loaded()).submissions) else [], criteria)
      ensures Loaded() == old(Loaded())
    {
      var recs := GetAllSubmissions();
      r := Search(recs, criteria);
    }
  }

  // ---------------------------------------------------------------- appending rows

  /** The sheet updates of saveSubmission, in its order; Validation Sources only for a self-validated submission. */
  method AppendSubmission(wb: Workbook, fd: FormData, stringify: Stringify)
    modifies wb
    ensures wb.Contents() == SubmissionSaved(old(wb.Contents()), fd, stringify)
  {
    AddSubmissionRow(wb, fd, stringify);
    SaveMaterialsDetail(wb, fd);
    if SelfValidates(fd) {
      SaveValidationSources(wb, fd, stringify);
    }
  }

  /** `addSubmissionRow(wb, formData)` */
  method AddSubmissionRow(wb: Workbook, fd: FormData, stringify: Stringify)
    modifies wb
    ensures wb.submissions == SubmissionAppended(old(wb.submissions), fd, stringify)
    ensures unchanged(wb`materials, wb`sources)
  {
    var data := wb.submissions;
    var row := ToSpreadsheetRow(fd, stringify);
    if |data| == 0 {
      SubmissionKeys(fd, stringify);
      data := data + [RowKeys(row)];
    }
    data := data + [RowValues(row)];
    wb.submissions := data;
  }

  /** The `forEach` of saveMaterialsDetail: one row per material pushed onto `data`. */
  method PushMaterialRows(data: Sheet, fd: FormData) returns (out: Sheet)
    ensures out == data + MaterialRows(fd, fd.materials)
  {
    out := data;
    var materials := fd.materials;
    for i := 0 to |materials|
      invariant out == data + MaterialRows(fd, materials[..i])
    {
      assert materials[..i + 1][..i] == materials[..i];
      AppendAssoc(data, MaterialRows(fd, materials[..i]), [MaterialRow(fd, materials[i])]);
      out := out + [MaterialRow(fd, materials[i])];
    }
    assert materials[..|materials|] == materials;
  }

  /** `saveMaterialsDetail(wb, formData)` */
  method SaveMaterialsDetail(wb: Workbook, fd: FormData)
    modifies wb
    ensures wb.materials == MaterialsAppended(old(wb.materials), fd)
    ensures unchanged(wb`submissions, wb`sources)
  {
    var data := wb.materials;
    if |data| == 0 {
      data := data + [MaterialsHeader()];
    }
    data := PushMaterialRows(data, fd);
    wb.materials := data;
  }

  /** The `forEach` of saveValidationSources: one row per source, numbered from 1, pushed onto `data`. */
  method PushSourceRows(data: Sheet, fd: FormData, sources: seq<Source>, stringify: Stringify) returns (out: Sheet)
    ensures out == data + SourceRows(fd, sources, 1, stringify)
  {
    out := data;
    for index := 0 to |sources|
      invariant out == data + SourceRows(fd, sources[..index], 1, stringify)
    {
      assert sources[..index + 1][..index] == sources[..index];
      AppendAssoc(data, SourceRows(fd, sources[..index], 1, stringify), [SourceRow(fd, index + 1, sources[index], stringify)]);
      out := out + [SourceRow(fd, index + 1, sources[index], stringify)];
    }
    assert sources[..|sources|] == sources;
  }

  /** `saveValidationSources(wb, formData)`; the caller has checked that selfValidation is set. */
  method SaveValidationSources(wb: Workbook, fd: FormData, stringify: Stringify)
    requires fd.selfValidation.Some?
    modifies wb
    ensures wb.sources == SourcesAppended(old(wb.sources), fd, fd.selfValidation.value, stringify)
    ensures unchanged(wb`submissions, wb`materials)
  {
    var data := wb.sources;
    if |data| == 0 {
      data := data + [SourcesHeader()];
    }
    data := PushSourceRows(data, fd, fd.selfValidation.value.sources, stringify);
    wb.sources := data;
  }
}
