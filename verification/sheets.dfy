/** The job queue kept in the grading spreadsheet: the scan for pending rows
    (`get_pending_rows`) and the write-backs (`update_status`,
    `mark_processing_start`, `write_grading_results`), together with a model
    of the sheet those writes land in. */
module Sheets {
  import opened Wrappers
  import opened Text
  import opened A1

  // ---------------------------------------------------------------------------
  // Column map (1-based) and status values
  // ---------------------------------------------------------------------------

  const COL_STATUS: nat := 3
  const COL_CARATULA: nat := 4
  const COL_TRANSCRIPT: nat := 5
  const COL_EVIDENCIAS: nat := 6
  const COL_DAIR: nat := 7
  const COL_FAIR: nat := 8
  const COL_RAPSHEET: nat := 9
  const COL_SUMMARY: nat := 10
  const COL_GRADING_LINK: nat := 11
  const COL_TOKENS_IN: nat := 13
  const COL_TOKENS_OUT: nat := 14
  const COL_APP_VERSION: nat := 15
  const COL_START_TIME: nat := 16
  const COL_END_TIME: nat := 17
  const COL_DURATION: nat := 18

  const STATUS_PENDING: string := "PENDING PROCESSING"
  const STATUS_PROCESSING: string := "PROCESSING"
  const STATUS_COMPLETED: string := "COMPLETED"
  const STATUS_MAIN_LINK_MISSING: string := "ERROR: MAIN LINK MISSING"
  const STATUS_SAVE_FAILED: string := "ERROR SAVING RESULTS"

  /** The configured application version written to column O. */
  const APP_VERSION: string := "v1.0.0"

  // ---------------------------------------------------------------------------
  // Jobs and the pending-row scan
  // ---------------------------------------------------------------------------

  /** The document locators of one case, keyed by role. */
  datatype Links = Links(caratula: string, transcript: string, evidencias: string,
                         dair: string, fair: string, rapsheet: string, summary: string)

  /** One row of work; `rowIdx` is the 1-based row of the sheet. */
  datatype Job = Job(rowIdx: nat, clientId: string, clientName: string, links: Links)

  /** The cell texts returned by `get_all_values`, row by row. */
  type Grid = seq<seq<string>>

  /** The text of column `col`, or `""` when the row is too short. */
  function CellOr(row: seq<string>, col: nat): string
    requires col >= 1
  {
    if |row| >= col then row[col - 1] else ""
  }

  /** The row has a status cell whose stripped text is the pending sentinel. */
  predicate IsPendingRow(row: seq<string>) {
    |row| >= COL_STATUS && Strip(row[COL_STATUS - 1]) == STATUS_PENDING
  }

  /** Both mandatory locators (transcript in E, summary in J) are present. */
  predicate HasMainLinks(row: seq<string>) {
    CellOr(row, COL_TRANSCRIPT) != [] && CellOr(row, COL_SUMMARY) != []
  }

  /** The record built for a selected row. */
  function JobFromRow(row: seq<string>, rowIdx: nat): Job
    requires |row| >= COL_STATUS
  {
    Job(rowIdx, row[0], row[1],
        Links(CellOr(row, COL_CARATULA), CellOr(row, COL_TRANSCRIPT), CellOr(row, COL_EVIDENCIAS),
              CellOr(row, COL_DAIR), CellOr(row, COL_FAIR), CellOr(row, COL_RAPSHEET),
              CellOr(row, COL_SUMMARY)))
  }

  datatype RowVerdict = NotPending | MainLinkMissing | Ready(job: Job)

  function ClassifyRow(row: seq<string>, rowIdx: nat): (v: RowVerdict)
    ensures v.Ready? <==> IsPendingRow(row) && HasMainLinks(row)
    ensures v.MainLinkMissing? <==> IsPendingRow(row) && !HasMainLinks(row)
    ensures v.Ready? ==> v.job == JobFromRow(row, rowIdx)
  {
    if |row| < COL_STATUS then NotPending
    else if Strip(row[COL_STATUS - 1]) != STATUS_PENDING then NotPending
    else
      var transcript := CellOr(row, COL_TRANSCRIPT);
      var summary := CellOr(row, COL_SUMMARY);
      if transcript == [] || summary == [] then MainLinkMissing
      else Ready(JobFromRow(row, rowIdx))
  }

  /** What the scan returns and the status writes it issues on the way. */
  datatype Scan = Scan(jobs: seq<Job>, writes: seq<SheetCall>)

  /** The verdict on every row of the grid, in order; `verdicts[i]` is about
      row number `i + 1`. */
  function Verdicts(grid: Grid): (vs: seq<RowVerdict>)
    ensures |vs| == |grid|
    ensures forall i :: 0 <= i < |grid| ==> vs[i] == ClassifyRow(grid[i], i + 1)
    ensures RowNumbered(vs)
  {
    seq(|grid|, i requires 0 <= i < |grid| => ClassifyRow(grid[i], i + 1))
  }

  /** Each ready verdict carries the row number of its position. */
  predicate RowNumbered(vs: seq<RowVerdict>) {
    forall i :: 0 <= i < |vs| && vs[i].Ready? ==> vs[i].job.rowIdx == i + 1
  }

  /** The status write for a pending row that lacks a mandatory locator. */
  predicate IsMissingLinkWrite(vs: seq<RowVerdict>, w: SheetCall) {
    && w.UpdateCell? && w == UpdateCell(w.row, COL_STATUS, Str(STATUS_MAIN_LINK_MISSING))
    && 1 <= w.row <= |vs| && vs[w.row - 1].MainLinkMissing?
  }

  /** The scan of verdicts `i..` (row numbers `i+1..`). */
  function ScanFrom(vs: seq<RowVerdict>, i: nat): (r: Scan)
    requires RowNumbered(vs)
    ensures forall k :: 0 <= k < |r.jobs| ==>
              i < r.jobs[k].rowIdx <= |vs| && vs[r.jobs[k].rowIdx - 1] == Ready(r.jobs[k])
    ensures forall k :: 0 <= k < |r.writes| ==> IsMissingLinkWrite(vs, r.writes[k]) && i < r.writes[k].row
    decreases |vs| - i
  {
    if i >= |vs| then Scan([], [])
    else
      var rest := ScanFrom(vs, i + 1);
      match vs[i]
      case NotPending => rest
      case MainLinkMissing => Scan(rest.jobs, UpdateStatus(i + 1, STATUS_MAIN_LINK_MISSING) + rest.writes)
      case Ready(job) => Scan([job] + rest.jobs, rest.writes)
  }

  predicate JobsAscending(jobs: seq<Job>) {
    forall a, b :: 0 <= a < b < |jobs| ==> jobs[a].rowIdx < jobs[b].rowIdx
  }

  predicate WritesAscending(writes: seq<SheetCall>) {
    forall a, b :: 0 <= a < b < |writes| ==> writes[a].UpdateCell? && writes[b].UpdateCell? && writes[a].row < writes[b].row
  }

  predicate HasJobFor(jobs: seq<Job>, row: nat) {
    exists k :: 0 <= k < |jobs| && jobs[k].rowIdx == row
  }

  predicate HasWriteFor(writes: seq<SheetCall>, row: nat) {
    exists k :: 0 <= k < |writes| && writes[k].UpdateCell? && writes[k].row == row
  }

  /** The scan lists jobs and writes in strictly ascending row order. */
  lemma {:induction false} ScanFromAscending(vs: seq<RowVerdict>, i: nat)
    requires RowNumbered(vs)
    ensures JobsAscending(ScanFrom(vs, i).jobs) && WritesAscending(ScanFrom(vs, i).writes)
    decreases |vs| - i
  {
    if i < |vs| {
      ScanFromAscending(vs, i + 1);
      var rest := ScanFrom(vs, i + 1);
      var r := ScanFrom(vs, i);
      match vs[i]
      case NotPending =>
        assert r == rest;
      case MainLinkMissing =>
        assert r.jobs == rest.jobs;
        assert r.writes == UpdateStatus(i + 1, STATUS_MAIN_LINK_MISSING) + rest.writes;
        assert forall k :: 0 < k < |r.writes| ==> r.writes[k] == rest.writes[k - 1];
      case Ready(job) =>
        assert r.writes == rest.writes;
        assert r.jobs == [job] + rest.jobs;
        assert forall k :: 0 < k < |r.jobs| ==> r.jobs[k] == rest.jobs[k - 1];
    }
  }

  /** One step of the scan: a ready row puts its job in front of the rest. */
  lemma ScanFromJobsStep(vs: seq<RowVerdict>, i: nat)
    requires RowNumbered(vs) && i < |vs|
    ensures ScanFrom(vs, i).jobs == (if vs[i].Ready? then [vs[i].job] else []) + ScanFrom(vs, i + 1).jobs
  {
  }

  /** No ready row at or after `i` is missed. */
  lemma {:induction false} ScanFromCompleteJobs(vs: seq<RowVerdict>, i: nat, j: nat)
    requires RowNumbered(vs) && i <= j < |vs| && vs[j].Ready?
    ensures HasJobFor(ScanFrom(vs, i).jobs, j + 1)
    decreases |vs| - i
  {
    ScanFromJobsStep(vs, i);
    var front := if vs[i].Ready? then [vs[i].job] else [];
    if j > i {
      ScanFromCompleteJobs(vs, i + 1, j);
      HasJobForAppend(front, ScanFrom(vs, i + 1).jobs, j + 1);
    } else {
      assert (front + ScanFrom(vs, i + 1).jobs)[0].rowIdx == j + 1;
    }
  }

  /** A job found in the rest is still found after more jobs are put in front. */
  lemma HasJobForAppend(front: seq<Job>, rest: seq<Job>, row: nat)
    requires HasJobFor(rest, row)
    ensures HasJobFor(front + rest, row)
  {
    var k :| 0 <= k < |rest| && rest[k].rowIdx == row;
    assert (front + rest)[|front| + k] == rest[k];
  }

  /** One step of the scan: a row missing a main link puts its mark in front
      of the rest. */
  lemma ScanFromWritesStep(vs: seq<RowVerdict>, i: nat)
    requires RowNumbered(vs) && i < |vs|
    ensures ScanFrom(vs, i).writes ==
              (if vs[i].MainLinkMissing? then UpdateStatus(i + 1, STATUS_MAIN_LINK_MISSING) else []) + ScanFrom(vs, i + 1).writes
  {
  }

  /** No pending row without a main link at or after `i` is missed. */
  lemma {:induction false} ScanFromCompleteWrites(vs: seq<RowVerdict>, i: nat, j: nat)
    requires RowNumbered(vs) && i <= j < |vs| && vs[j].MainLinkMissing?
    ensures HasWriteFor(ScanFrom(vs, i).writes, j + 1)
    decreases |vs| - i
  {
    ScanFromWritesStep(vs, i);
    var front := if vs[i].MainLinkMissing? then UpdateStatus(i + 1, STATUS_MAIN_LINK_MISSING) else [];
    if j > i {
      ScanFromCompleteWrites(vs, i + 1, j);
      HasWriteForAppend(front, ScanFrom(vs, i + 1).writes, j + 1);
    } else {
      assert (front + ScanFrom(vs, i + 1).writes)[0] == UpdateCell(j + 1, COL_STATUS, Str(STATUS_MAIN_LINK_MISSING));
    }
  }

  /** A write found in the rest is still found after more writes are put in front. */
  lemma HasWriteForAppend(front: seq<SheetCall>, rest: seq<SheetCall>, row: nat)
    requires HasWriteFor(rest, row)
    ensures HasWriteFor(front + rest, row)
  {
    var k :| 0 <= k < |rest| && rest[k].UpdateCell? && rest[k].row == row;
    assert (front + rest)[|front| + k] == rest[k];
  }

  /** No ready row and no pending row without a main link after the header
      is missed by the scan. */
  lemma ScanComplete(vs: seq<RowVerdict>)
    requires RowNumbered(vs)
    ensures forall j :: 1 <= j < |vs| && vs[j].Ready? ==> HasJobFor(ScanFrom(vs, 1).jobs, j + 1)
    ensures forall j :: 1 <= j < |vs| && vs[j].MainLinkMissing? ==> HasWriteFor(ScanFrom(vs, 1).writes, j + 1)
  {
    forall j | 1 <= j < |vs| && vs[j].Ready?
      ensures HasJobFor(ScanFrom(vs, 1).jobs, j + 1)
    {
      ScanFromCompleteJobs(vs, 1, j);
    }
    forall j | 1 <= j < |vs| && vs[j].MainLinkMissing?
      ensures HasWriteFor(ScanFrom(vs, 1).writes, j + 1)
    {
      ScanFromCompleteWrites(vs, 1, j);
    }
  }

  /** `get_pending_rows` over the cell texts of the sheet. Row 1 is the header
      and is skipped. */
  function PendingRows(grid: Grid): (r: Scan)
    // Header row never selected or written.
    ensures forall k :: 0 <= k < |r.jobs| ==> 2 <= r.jobs[k].rowIdx <= |grid|
    ensures forall k :: 0 <= k < |r.writes| ==> r.writes[k].UpdateCell? && 2 <= r.writes[k].row <= |grid|
    // Every job is a pending row with both main links, read verbatim.
    ensures forall k :: 0 <= k < |r.jobs| ==>
              var row := grid[r.jobs[k].rowIdx - 1];
              IsPendingRow(row) && HasMainLinks(row) && r.jobs[k] == JobFromRow(row, r.jobs[k].rowIdx)
    // In ascending row order, and no such row is left out.
    ensures JobsAscending(r.jobs)
    ensures forall j :: 1 <= j < |grid| && IsPendingRow(grid[j]) && HasMainLinks(grid[j]) ==> HasJobFor(r.jobs, j + 1)
    // One `ERROR: MAIN LINK MISSING` status write per pending row without a
    // main link, in row order, and no other write.
    ensures forall k :: 0 <= k < |r.writes| ==>
              && r.writes[k] == UpdateCell(r.writes[k].row, COL_STATUS, Str(STATUS_MAIN_LINK_MISSING))
              && IsPendingRow(grid[r.writes[k].row - 1]) && !HasMainLinks(grid[r.writes[k].row - 1])
    ensures WritesAscending(r.writes)
    ensures forall j :: 1 <= j < |grid| && IsPendingRow(grid[j]) && !HasMainLinks(grid[j]) ==> HasWriteFor(r.writes, j + 1)
  {
    var vs := Verdicts(grid);
    ScanFromAscending(vs, 1);
    ScanComplete(vs);
    ScanFrom(vs, 1)
  }
  /** `job` holds the cells of `row`: A and B verbatim and every locator
      column D..J as its cell's text, the two main locators non-empty. */
  predicate HoldsRow(job: Job, row: seq<string>) {
    && |row| >= COL_SUMMARY
    && job.clientId == row[0] && job.clientName == row[1]
    && job.links.caratula == row[COL_CARATULA - 1]
    && job.links.transcript == row[COL_TRANSCRIPT - 1] != []
    && job.links.evidencias == row[COL_EVIDENCIAS - 1]
    && job.links.dair == row[COL_DAIR - 1]
    && job.links.fair == row[COL_FAIR - 1]
    && job.links.rapsheet == row[COL_RAPSHEET - 1]
    && job.links.summary == row[COL_SUMMARY - 1] != []
  }

  /** A pending row with both main locators reaches column J, so the record
      built from it takes every optional locator from its cell: the `""`
      fallbacks never apply to a job. */
  lemma JobRowFields(row: seq<string>, rowIdx: nat)
    requires IsPendingRow(row) && HasMainLinks(row)
    ensures HoldsRow(JobFromRow(row, rowIdx), row)
  {
    assert |row| >= COL_SUMMARY;
  }

  /** What a job record holds: the cells of its own row. */
  lemma PendingJobFields(grid: Grid)
    ensures var jobs := PendingRows(grid).jobs;
      forall k :: 0 <= k < |jobs| ==> HoldsRow(jobs[k], grid[jobs[k].rowIdx - 1])
  {
    JobsHoldRows(grid, PendingRows(grid).jobs);
  }

  /** Records built from pending rows with both main locators hold their rows. */
  lemma JobsHoldRows(grid: Grid, jobs: seq<Job>)
    requires forall k :: 0 <= k < |jobs| ==> 2 <= jobs[k].rowIdx <= |grid|
    requires forall k :: 0 <= k < |jobs| ==>
               var row := grid[jobs[k].rowIdx - 1];
               IsPendingRow(row) && HasMainLinks(row) && jobs[k] == JobFromRow(row, jobs[k].rowIdx)
    ensures forall k :: 0 <= k < |jobs| ==> HoldsRow(jobs[k], grid[jobs[k].rowIdx - 1])
  {
    forall k | 0 <= k < |jobs|
      ensures HoldsRow(jobs[k], grid[jobs[k].rowIdx - 1])
    {
      JobRowFields(grid[jobs[k].rowIdx - 1], jobs[k].rowIdx);
    }
  }

  // ---------------------------------------------------------------------------
  // Write-backs
  // ---------------------------------------------------------------------------

  /** A value sent to the sheet. Clock readings are the formatted
      `%Y-%m-%d %H:%M:%S` text they are written as; the elapsed-minutes
      figure is kept symbolic as the pair of readings it is computed from. */
  datatype CellValue =
    | Str(text: string)
    | Int(n: int)
    | Blank
    | Stamp(time: string)
    | Minutes(from: string, to: string)

  /** One block of values for one A1 range, as `batch_update` receives it. */
  datatype RangeWrite = RangeWrite(range: string, values: seq<seq<CellValue>>)

  /** A call made to the worksheet. `stored` is the pre-decided outcome of an
      `update` call: whether the backend accepted it. */
  datatype SheetCall =
    | UpdateCell(row: nat, col: nat, value: CellValue)
    | BatchUpdate(updates: seq<RangeWrite>)
    | UpdateRange(range: string, values: seq<seq<CellValue>>, stored: bool)

  /** The A1 name of one cell. */
  function CellRangeName(col: nat, row: nat): string
    requires 1 <= col <= 26
  {
    RangeName(Range(Cell(col, row), Cell(col, row)))
  }

  /** `update_status`: one cell write to column C. A failed write is logged
      and swallowed, so the operation has no error outcome. */
  function UpdateStatus(row: nat, status: string): (calls: seq<SheetCall>)
    ensures |calls| == 1 && calls[0].UpdateCell?
    ensures calls[0].row == row && calls[0].col == COL_STATUS && calls[0].value == Str(status)
  {
    [UpdateCell(row, COL_STATUS, Str(status))]
  }

  /** `mark_processing_start`: one batch setting `C{row}` to `PROCESSING` and
      `P{row}` to the start time. */
  function MarkProcessingStart(row: nat, now: string): (calls: seq<SheetCall>)
    ensures |calls| == 1 && calls[0].BatchUpdate? && |calls[0].updates| == 2
    ensures row >= 1 ==>
              && ParseRange(calls[0].updates[0].range) == Some(Range(Cell(COL_STATUS, row), Cell(COL_STATUS, row)))
              && calls[0].updates[0].values == [[Str(STATUS_PROCESSING)]]
              && ParseRange(calls[0].updates[1].range) == Some(Range(Cell(COL_START_TIME, row), Cell(COL_START_TIME, row)))
              && calls[0].updates[1].values == [[Stamp(now)]]
  {
    assert row >= 1 ==>
             && ParseRange(CellRangeName(COL_STATUS, row)) == Some(Range(Cell(COL_STATUS, row), Cell(COL_STATUS, row)))
             && ParseRange(CellRangeName(COL_START_TIME, row)) == Some(Range(Cell(COL_START_TIME, row), Cell(COL_START_TIME, row))) by {
      if row >= 1 {
        ParseRangeName(Range(Cell(COL_STATUS, row), Cell(COL_STATUS, row)));
        ParseRangeName(Range(Cell(COL_START_TIME, row), Cell(COL_START_TIME, row)));
      }
    }
    [BatchUpdate([
      RangeWrite(CellRangeName(COL_STATUS, row), [[Str(STATUS_PROCESSING)]]),
      RangeWrite(CellRangeName(COL_START_TIME, row), [[Stamp(now)]])])]
  }

  /** The result fields of `write_grading_results`. `None` is a missing key;
      a present key whose value is Python `None` is `Some(Blank)`. */
  datatype ResultData = ResultData(gradingUrl: Option<CellValue>, tokensIn: Option<int>,
                                   tokensOut: Option<int>, startTime: Option<string>)

  /** The eight values written to `K{row}:R{row}`, one per column from K. */
  function ResultValues(data: ResultData, now: string): (vs: seq<CellValue>)
    ensures |vs| == COL_DURATION - COL_GRADING_LINK + 1
    ensures vs[0] == data.gradingUrl.GetOr(Str([]))
    ensures vs[1] == Str([])
    ensures vs[COL_TOKENS_IN - COL_GRADING_LINK] == Int(data.tokensIn.GetOr(0))
    ensures vs[COL_TOKENS_OUT - COL_GRADING_LINK] == Int(data.tokensOut.GetOr(0))
    ensures vs[COL_APP_VERSION - COL_GRADING_LINK] == Str(APP_VERSION)
    ensures vs[COL_START_TIME - COL_GRADING_LINK] == Stamp(data.startTime.GetOr(now))
    ensures vs[COL_END_TIME - COL_GRADING_LINK] == Stamp(now)
    ensures vs[COL_DURATION - COL_GRADING_LINK] == Minutes(data.startTime.GetOr(now), now)
  {
    var start := data.startTime.GetOr(now);
    [data.gradingUrl.GetOr(Str([])), Str([]), Int(data.tokensIn.GetOr(0)), Int(data.tokensOut.GetOr(0)),
     Str(APP_VERSION), Stamp(start), Stamp(now), Minutes(start, now)]
  }

  /** The range `K{row}:R{row}`. */
  function ResultRangeName(row: nat): string {
    RangeName(Range(Cell(COL_GRADING_LINK, row), Cell(COL_DURATION, row)))
  }

  /** `write_grading_results`: one range write of the eight result values,
      then `COMPLETED`, or `ERROR SAVING RESULTS` when the range write was
      rejected. `now` is the end-time clock reading. */
  function WriteGradingResults(row: nat, data: ResultData, now: string, stored: bool): (calls: seq<SheetCall>)
    ensures |calls| == 2 && calls[0].UpdateRange? && calls[0].stored == stored
    ensures |calls[0].values| == 1 && |calls[0].values[0]| == 8
    ensures calls[1..] == UpdateStatus(row, if stored then STATUS_COMPLETED else STATUS_SAVE_FAILED)
    ensures calls[0].values[0] == ResultValues(data, now)
    ensures row >= 1 ==>
              ParseRange(calls[0].range) == Some(Range(Cell(COL_GRADING_LINK, row), Cell(COL_DURATION, row)))
  {
    assert row >= 1 ==> ParseRange(ResultRangeName(row)) == Some(Range(Cell(COL_GRADING_LINK, row), Cell(COL_DURATION, row))) by {
      if row >= 1 {
        ParseRangeName(Range(Cell(COL_GRADING_LINK, row), Cell(COL_DURATION, row)));
      }
    }
    [UpdateRange(ResultRangeName(row), [ResultValues(data, now)], stored)]
      + UpdateStatus(row, if stored then STATUS_COMPLETED else STATUS_SAVE_FAILED)
  }

  // ---------------------------------------------------------------------------
  // The sheet the calls write to
  // ---------------------------------------------------------------------------

  /** The worksheet contents; rows and cells beyond the ends read as blank. */
  type Sheet = seq<seq<CellValue>>

  function Get(sheet: Sheet, row: int, col: int): CellValue {
    if 1 <= row <= |sheet| && 1 <= col <= |sheet[row - 1]| then sheet[row - 1][col - 1] else Blank
  }

  /** Set one cell, growing the sheet with blanks when needed. */
  function SetCell(sheet: Sheet, row: nat, col: nat, v: CellValue): (r: Sheet)
    requires row >= 1 && col >= 1
    ensures Get(r, row, col) == v
    ensures forall i, j :: !(i == row && j == col) ==> Get(r, i, j) == Get(sheet, i, j)
    ensures row <= |sheet| && col <= |sheet[row - 1]| ==> r == sheet[row - 1 := sheet[row - 1][col - 1 := v]]
  {
    var grown := if |sheet| >= row then sheet else sheet + seq(row - |sheet|, _ => []);
    var line := grown[row - 1];
    var wide := if |line| >= col then line else line + seq(col - |line|, _ => Blank);
    grown[row - 1 := wide[col - 1 := v]]
  }

  /** Write `vs` left to right starting at (`row`, `col`). */
  function WriteValues(sheet: Sheet, row: nat, col: nat, vs: seq<CellValue>): (r: Sheet)
    requires row >= 1 && col >= 1
    ensures forall k :: 0 <= k < |vs| ==> Get(r, row, col + k) == vs[k]
    ensures forall i, j :: !(i == row && col <= j < col + |vs|) ==> Get(r, i, j) == Get(sheet, i, j)
    decreases |vs|
  {
    if vs == [] then sheet
    else
      WriteValues(SetCell(sheet, row, col, vs[0]), row, col + 1, vs[1..])
  }

  /** The cell (`i`, `j`) lies in the block `rows` anchored at (`row`, `col`). */
  predicate InBlock(rows: seq<seq<CellValue>>, row: int, col: int, i: int, j: int) {
    row <= i < row + |rows| && col <= j < col + |rows[i - row]|
  }

  /** Write the rows of `rows` top to bottom starting at (`row`, `col`). */
  function WriteBlock(sheet: Sheet, row: nat, col: nat, rows: seq<seq<CellValue>>): (r: Sheet)
    requires row >= 1 && col >= 1
    ensures forall i, j :: InBlock(rows, row, col, i, j) ==> Get(r, i, j) == rows[i - row][j - col]
    ensures forall i, j :: !InBlock(rows, row, col, i, j) ==> Get(r, i, j) == Get(sheet, i, j)
    decreases |rows|
  {
    if rows == [] then sheet
    else
      var first := WriteValues(sheet, row, col, rows[0]);
      var r := WriteBlock(first, row + 1, col, rows[1..]);
      assert forall i, j :: InBlock(rows, row, col, i, j) && i > row ==> InBlock(rows[1..], row + 1, col, i, j);
      assert forall i, j :: InBlock(rows[1..], row + 1, col, i, j) ==> InBlock(rows, row, col, i, j);
      r
  }

  /** The values written at the top-left cell of an A1 range; a range that
      does not parse is rejected by the backend and writes nothing. */
  function WriteAt(sheet: Sheet, range: string, rows: seq<seq<CellValue>>): Sheet {
    match ParseRange(range)
    case None => sheet
    case Some(rg) => WriteBlock(sheet, rg.first.row, rg.first.col, rows)
  }

  function ApplyRangeWrites(sheet: Sheet, ws: seq<RangeWrite>): Sheet
    decreases |ws|
  {
    if ws == [] then sheet else ApplyRangeWrites(WriteAt(sheet, ws[0].range, ws[0].values), ws[1..])
  }

  /** The effect of one call on the sheet. A rejected `update` leaves it as
      it was. */
  function Apply(sheet: Sheet, call: SheetCall): Sheet {
    match call
    case UpdateCell(row, col, v) => if row >= 1 && col >= 1 then SetCell(sheet, row, col, v) else sheet
    case BatchUpdate(ws) => ApplyRangeWrites(sheet, ws)
    case UpdateRange(range, values, stored) => if stored then WriteAt(sheet, range, values) else sheet
  }

  function ApplyAll(sheet: Sheet, calls: seq<SheetCall>): Sheet
    decreases |calls|
  {
    if calls == [] then sheet else ApplyAll(Apply(sheet, calls[0]), calls[1..])
  }

  lemma {:induction false} ApplyAllConcat(sheet: Sheet, a: seq<SheetCall>, b: seq<SheetCall>)
    ensures ApplyAll(sheet, a + b) == ApplyAll(ApplyAll(sheet, a), b)
    decreases |a|
  {
    if a == [] {
      assert a + b == b;
    } else {
      assert (a + b)[0] == a[0];
      assert (a + b)[1..] == a[1..] + b;
      ApplyAllConcat(Apply(sheet, a[0]), a[1..], b);
    }
  }

  /** The cell texts `get_all_values` returns for a sheet, given how the
      sheet displays each value. */
  function Shown(display: CellValue -> string, sheet: Sheet): (g: Grid)
    ensures |g| == |sheet|
    ensures forall i :: 0 <= i < |sheet| ==> |g[i]| == |sheet[i]|
    ensures forall i, j :: 0 <= i < |sheet| && 0 <= j < |sheet[i]| ==> g[i][j] == display(sheet[i][j])
  {
    seq(|sheet|, i requires 0 <= i < |sheet| =>
      seq(|sheet[i]|, j requires 0 <= j < |sheet[i]| => display(sheet[i][j])))
  }

  /** Text cells display as their text. */
  ghost predicate ShowsTextVerbatim(display: CellValue -> string) {
    forall s :: display(Str(s)) == s
  }

  // ---------------------------------------------------------------------------
  // What each write-back does to the sheet
  // ---------------------------------------------------------------------------

  /** Writing one value to a cell range named by `CellRangeName`. */
  lemma WriteAtCell(sheet: Sheet, col: nat, row: nat, v: CellValue)
    requires 1 <= col <= 26 && row >= 1
    ensures var r := WriteAt(sheet, CellRangeName(col, row), [[v]]);
      && Get(r, row, col) == v
      && forall i, j :: !(i == row && j == col) ==> Get(r, i, j) == Get(sheet, i, j)
  {
    ParseRangeName(Range(Cell(col, row), Cell(col, row)));
    var r := WriteAt(sheet, CellRangeName(col, row), [[v]]);
    assert r == WriteBlock(sheet, row, col, [[v]]);
    assert InBlock([[v]], row, col, row, col);
    forall i, j | !(i == row && j == col)
      ensures Get(r, i, j) == Get(sheet, i, j)
    {
      assert !InBlock([[v]], row, col, i, j);
    }
  }

  /** `update_status` sets column C of its row and nothing else. */
  lemma UpdateStatusEffect(sheet: Sheet, row: nat, status: string)
    requires row >= 1
    ensures var r := ApplyAll(sheet, UpdateStatus(row, status));
      && Get(r, row, COL_STATUS) == Str(status)
      && forall i, j :: !(i == row && j == COL_STATUS) ==> Get(r, i, j) == Get(sheet, i, j)
  {
    var calls := UpdateStatus(row, status);
    assert ApplyAll(sheet, calls) == ApplyAll(Apply(sheet, calls[0]), []);
  }

  /** `mark_processing_start` sets column C to `PROCESSING` and column P to
      the start time, and nothing else. */
  lemma MarkProcessingStartEffect(sheet: Sheet, row: nat, now: string)
    requires row >= 1
    ensures var r := ApplyAll(sheet, MarkProcessingStart(row, now));
      && Get(r, row, COL_STATUS) == Str(STATUS_PROCESSING)
      && Get(r, row, COL_START_TIME) == Stamp(now)
      && forall i, j :: !(i == row && (j == COL_STATUS || j == COL_START_TIME)) ==> Get(r, i, j) == Get(sheet, i, j)
  {
    var calls := MarkProcessingStart(row, now);
    var ws := calls[0].updates;
    var s1 := WriteAt(sheet, ws[0].range, ws[0].values);
    var s2 := WriteAt(s1, ws[1].range, ws[1].values);
    assert ApplyRangeWrites(sheet, ws) == ApplyRangeWrites(s1, ws[1..]);
    assert ApplyRangeWrites(s1, ws[1..]) == ApplyRangeWrites(s2, []);
    assert ApplyAll(sheet, calls) == ApplyAll(Apply(sheet, calls[0]), []);
    WriteAtCell(sheet, COL_STATUS, row, Str(STATUS_PROCESSING));
    WriteAtCell(s1, COL_START_TIME, row, Stamp(now));
  }

  /** The result block `K..R` of a row is exactly the block `ResultValues`. */
  lemma WriteResultBlock(sheet: Sheet, row: nat, vs: seq<CellValue>)
    requires row >= 1 && |vs| == COL_DURATION - COL_GRADING_LINK + 1
    ensures var r := WriteAt(sheet, ResultRangeName(row), [vs]);
      && (forall c :: COL_GRADING_LINK <= c <= COL_DURATION ==> Get(r, row, c) == vs[c - COL_GRADING_LINK])
      && forall i, j :: !(i == row && COL_GRADING_LINK <= j <= COL_DURATION) ==> Get(r, i, j) == Get(sheet, i, j)
  {
    assert row >= 1 ==> ParseRange(ResultRangeName(row)) == Some(Range(Cell(COL_GRADING_LINK, row), Cell(COL_DURATION, row))) by {
      if row >= 1 {
        ParseRangeName(Range(Cell(COL_GRADING_LINK, row), Cell(COL_DURATION, row)));
      }
    }
    var r := WriteAt(sheet, ResultRangeName(row), [vs]);
    assert r == WriteBlock(sheet, row, COL_GRADING_LINK, [vs]);
    forall c | COL_GRADING_LINK <= c <= COL_DURATION
      ensures Get(r, row, c) == vs[c - COL_GRADING_LINK]
    {
      assert InBlock([vs], row, COL_GRADING_LINK, row, c);
    }
    forall i, j | !(i == row && COL_GRADING_LINK <= j <= COL_DURATION)
      ensures Get(r, i, j) == Get(sheet, i, j)
    {
      assert !InBlock([vs], row, COL_GRADING_LINK, i, j);
    }
  }

  /** `write_grading_results`: when the range write is accepted, columns K..R
      hold the result values (token counts in M and N, version in O, start,
      end and duration in P, Q, R) and the status is `COMPLETED`; when it is
      rejected, only the status changes, to `ERROR SAVING RESULTS`. Nothing
      else in the sheet changes either way. */
  lemma WriteGradingResultsEffect(sheet: Sheet, row: nat, data: ResultData, now: string, stored: bool)
    requires row >= 1
    ensures var r := ApplyAll(sheet, WriteGradingResults(row, data, now, stored));
      && Get(r, row, COL_STATUS) == Str(if stored then STATUS_COMPLETED else STATUS_SAVE_FAILED)
      && (forall c :: COL_GRADING_LINK <= c <= COL_DURATION ==>
            Get(r, row, c) == if stored then ResultValues(data, now)[c - COL_GRADING_LINK] else Get(sheet, row, c))
      && forall i, j :: !(i == row && (j == COL_STATUS || COL_GRADING_LINK <= j <= COL_DURATION)) ==>
            Get(r, i, j) == Get(sheet, i, j)
  {
    var calls := WriteGradingResults(row, data, now, stored);
    var s1 := Apply(sheet, calls[0]);
    assert ApplyAll(sheet, calls) == ApplyAll(s1, calls[1..]);
    if stored {
      WriteResultBlock(sheet, row, ResultValues(data, now));
    }
    UpdateStatusEffect(s1, row, if stored then STATUS_COMPLETED else STATUS_SAVE_FAILED);
  }

  // ---------------------------------------------------------------------------
  // Rescanning after the scan's own writes
  // ---------------------------------------------------------------------------

  /** The effect of a run of status writes to column C of rows that already
      have a column C: the shape of the sheet is kept, and exactly the
      written status cells change. */
  lemma HasWriteForCons(ws: seq<SheetCall>, n: nat)
    requires ws != []
    ensures HasWriteFor(ws, n) <==> (ws[0].UpdateCell? && ws[0].row == n) || HasWriteFor(ws[1..], n)
  {
    if HasWriteFor(ws[1..], n) {
      var k :| 0 <= k < |ws[1..]| && ws[1..][k].UpdateCell? && ws[1..][k].row == n;
      assert ws[k + 1] == ws[1..][k];
    }
    if HasWriteFor(ws, n) && !(ws[0].UpdateCell? && ws[0].row == n) {
      var k :| 0 <= k < |ws| && ws[k].UpdateCell? && ws[k].row == n;
      assert ws[1..][k - 1] == ws[k];
    }
  }

  /** Status writes to column C of rows that have a column C. */
  predicate StatusWritesFit(sheet: Sheet, ws: seq<SheetCall>, v: CellValue) {
    forall k :: 0 <= k < |ws| ==>
      ws[k].UpdateCell? && ws[k] == UpdateCell(ws[k].row, COL_STATUS, v)
      && 1 <= ws[k].row <= |sheet| && |sheet[ws[k].row - 1]| >= COL_STATUS
  }

  /** Same number of rows, same length of each row. */
  predicate SameShape(a: Sheet, b: Sheet) {
    |a| == |b| && forall i :: 0 <= i < |a| ==> |a[i]| == |b[i]|
  }

  /** The effect of a run of status writes to column C of rows that already
      have a column C: the shape of the sheet is kept, and exactly the
      written status cells change. */
  lemma {:induction false} ApplyStatusWrites(sheet: Sheet, ws: seq<SheetCall>, v: CellValue)
    requires StatusWritesFit(sheet, ws, v)
    ensures SameShape(ApplyAll(sheet, ws), sheet)
    ensures forall i, j :: 0 <= i < |sheet| && 0 <= j < |sheet[i]| ==>
              ApplyAll(sheet, ws)[i][j] == if j == COL_STATUS - 1 && HasWriteFor(ws, i + 1) then v else sheet[i][j]
    decreases |ws|
  {
    if ws != [] {
      var w := ws[0];
      var s1 := Apply(sheet, w);
      assert s1 == sheet[w.row - 1 := sheet[w.row - 1][COL_STATUS - 1 := v]];
      assert SameShape(s1, sheet);
      assert StatusWritesFit(s1, ws[1..], v) by {
        forall k | 0 <= k < |ws[1..]|
          ensures ws[1..][k].UpdateCell? && ws[1..][k] == UpdateCell(ws[1..][k].row, COL_STATUS, v)
                  && 1 <= ws[1..][k].row <= |s1| && |s1[ws[1..][k].row - 1]| >= COL_STATUS
        {
          assert ws[1..][k] == ws[k + 1];
        }
      }
      ApplyStatusWrites(s1, ws[1..], v);
      assert ApplyAll(sheet, ws) == ApplyAll(s1, ws[1..]);
      forall n: nat | 1 <= n <= |sheet|
        ensures HasWriteFor(ws, n) <==> w.row == n || HasWriteFor(ws[1..], n)
      {
        HasWriteForCons(ws, n);
      }
    }
  }

  /** The verdicts after the missing-link rows have been marked. */
  predicate MarkedMissing(vs: seq<RowVerdict>, vs': seq<RowVerdict>, i: nat) {
    |vs'| == |vs| && forall j :: i <= j < |vs| ==> vs'[j] == (if vs[j].MainLinkMissing? then NotPending else vs[j])
  }

  lemma {:induction false} ScanFromMarked(vs: seq<RowVerdict>, vs': seq<RowVerdict>, i: nat)
    requires RowNumbered(vs) && RowNumbered(vs') && MarkedMissing(vs, vs', i)
    ensures ScanFrom(vs', i).jobs == ScanFrom(vs, i).jobs
    ensures ScanFrom(vs', i).writes == []
    decreases |vs| - i
  {
    if i < |vs| {
      assert MarkedMissing(vs, vs', i + 1);
      ScanFromMarked(vs, vs', i + 1);
    }
  }

  /** A row whose status cell has been overwritten with the missing-link
      marker is no longer pending. */
  lemma MarkedRowNotPending(row: seq<string>, n: nat)
    requires |row| >= COL_STATUS && row[COL_STATUS - 1] == STATUS_MAIN_LINK_MISSING
    ensures ClassifyRow(row, n) == NotPending
  {
    StripTrimmed(STATUS_MAIN_LINK_MISSING);
    assert |Strip(row[COL_STATUS - 1])| != |STATUS_PENDING|;
  }

  /** The displayed grid after status writes: written rows show the new
      status in column C, the other rows are displayed as before. */
  lemma ShownAfterStatusWrites(display: CellValue -> string, sheet: Sheet, ws: seq<SheetCall>, status: string)
    requires ShowsTextVerbatim(display) && StatusWritesFit(sheet, ws, Str(status))
    ensures var g := Shown(display, sheet);
      var g' := Shown(display, ApplyAll(sheet, ws));
      && |g'| == |g|
      && forall j :: 0 <= j < |g| ==>
           && |g'[j]| == |g[j]|
           && (HasWriteFor(ws, j + 1) ==> g'[j][COL_STATUS - 1] == status)
           && (!HasWriteFor(ws, j + 1) ==> g'[j] == g[j])
  {
    ApplyStatusWrites(sheet, ws, Str(status));
    forall j | 0 <= j < |sheet| {
      ShownRowAfterWrites(display, sheet, ws, status, j);
    }
  }

  /** One row of `ShownAfterStatusWrites`. */
  lemma ShownRowAfterWrites(display: CellValue -> string, sheet: Sheet, ws: seq<SheetCall>, status: string, j: nat)
    requires ShowsTextVerbatim(display) && StatusWritesFit(sheet, ws, Str(status)) && j < |sheet|
    ensures |ApplyAll(sheet, ws)| == |sheet|
    ensures |Shown(display, ApplyAll(sheet, ws))[j]| == |Shown(display, sheet)[j]|
    ensures HasWriteFor(ws, j + 1) ==> Shown(display, ApplyAll(sheet, ws))[j][COL_STATUS - 1] == status
    ensures !HasWriteFor(ws, j + 1) ==> Shown(display, ApplyAll(sheet, ws))[j] == Shown(display, sheet)[j]
  {
    ApplyStatusWrites(sheet, ws, Str(status));
    if HasWriteFor(ws, j + 1) {
      WrittenRowFits(sheet, ws, Str(status), j + 1);
    }
    ShownRowAfter(display, sheet, ApplyAll(sheet, ws), j, HasWriteFor(ws, j + 1), Str(status));
  }

  /** A status write lands on an existing row that has a column C. */
  lemma WrittenRowFits(sheet: Sheet, ws: seq<SheetCall>, v: CellValue, row: nat)
    requires StatusWritesFit(sheet, ws, v) && HasWriteFor(ws, row)
    ensures 1 <= row <= |sheet| && |sheet[row - 1]| >= COL_STATUS
  {
    var k :| 0 <= k < |ws| && ws[k].UpdateCell? && ws[k].row == row;
  }

  /** One displayed row after a write that may have replaced its status
      cell: it keeps its length, shows the new status when written, and is
      shown as before otherwise. */
  lemma ShownRowAfter(display: CellValue -> string, sheet: Sheet, sheet': Sheet, j: nat, written: bool, v: CellValue)
    requires SameShape(sheet', sheet) && j < |sheet|
    requires written ==> |sheet[j]| >= COL_STATUS
    requires forall c :: 0 <= c < |sheet[j]| ==> sheet'[j][c] == if c == COL_STATUS - 1 && written then v else sheet[j][c]
    ensures |Shown(display, sheet')[j]| == |Shown(display, sheet)[j]|
    ensures written ==> Shown(display, sheet')[j][COL_STATUS - 1] == display(v)
    ensures !written ==> Shown(display, sheet')[j] == Shown(display, sheet)[j]
  {
    if !written {
      assert forall c :: 0 <= c < |sheet[j]| ==> Shown(display, sheet')[j][c] == Shown(display, sheet)[j][c];
    }
  }

  /** Writes that are all missing-link writes hit no other row. */
  lemma OnlyMissingLinkRowsWritten(vs: seq<RowVerdict>, ws: seq<SheetCall>, j: nat)
    requires forall k :: 0 <= k < |ws| ==> IsMissingLinkWrite(vs, ws[k])
    requires j < |vs| && !vs[j].MainLinkMissing?
    ensures !HasWriteFor(ws, j + 1)
  {
  }

  /** A row at or after row 2 gets a write exactly when it lacks a main link. */
  lemma ScanWritesExactly(vs: seq<RowVerdict>, j: nat)
    requires RowNumbered(vs) && 1 <= j < |vs|
    ensures vs[j].MainLinkMissing? <==> HasWriteFor(ScanFrom(vs, 1).writes, j + 1)
  {
    var ws := ScanFrom(vs, 1).writes;
    if vs[j].MainLinkMissing? {
      ScanFromCompleteWrites(vs, 1, j);
    } else {
      OnlyMissingLinkRowsWritten(vs, ws, j);
    }
  }

  /** The scan's writes land on existing status cells. */
  lemma ScanWritesFit(display: CellValue -> string, sheet: Sheet)
    ensures StatusWritesFit(sheet, ScanFrom(Verdicts(Shown(display, sheet)), 1).writes, Str(STATUS_MAIN_LINK_MISSING))
  {
    var g := Shown(display, sheet);
    var vs := Verdicts(g);
    var ws := ScanFrom(vs, 1).writes;
    forall k | 0 <= k < |ws|
      ensures 1 <= ws[k].row <= |sheet| && |sheet[ws[k].row - 1]| >= COL_STATUS
    {
      assert IsMissingLinkWrite(vs, ws[k]);
      assert ClassifyRow(g[ws[k].row - 1], ws[k].row).MainLinkMissing?;
    }
  }

  /** After applying the scan's writes, the verdicts are those of the first
      scan with every missing-link row turned into a non-pending one. */
  lemma MarkedVerdicts(display: CellValue -> string, sheet: Sheet)
    requires ShowsTextVerbatim(display)
    ensures var vs := Verdicts(Shown(display, sheet));
      var ws := ScanFrom(vs, 1).writes;
      MarkedMissing(vs, Verdicts(Shown(display, ApplyAll(sheet, ws))), 1)
  {
    var g := Shown(display, sheet);
    var vs := Verdicts(g);
    var ws := ScanFrom(vs, 1).writes;
    ScanWritesFit(display, sheet);
    ShownAfterStatusWrites(display, sheet, ws, STATUS_MAIN_LINK_MISSING);
    var g' := Shown(display, ApplyAll(sheet, ws));
    var vs' := Verdicts(g');
    forall j | 1 <= j < |vs|
      ensures vs'[j] == (if vs[j].MainLinkMissing? then NotPending else vs[j])
    {
      ScanWritesExactly(vs, j);
      var written := HasWriteFor(ws, j + 1);
      MarkedRowVerdict(g[j], g'[j], j + 1, written);
    }
  }

  /** One row before and after the scan's writes. */
  lemma MarkedRowVerdict(row: seq<string>, row': seq<string>, n: nat, written: bool)
    requires ClassifyRow(row, n).MainLinkMissing? <==> written
    requires written ==> |row'| == |row| && row'[COL_STATUS - 1] == STATUS_MAIN_LINK_MISSING
    requires !written ==> row' == row
    ensures ClassifyRow(row', n) == if written then NotPending else ClassifyRow(row, n)
  {
    if written {
      MarkedRowNotPending(row', n);
    }
  }

  /** Rescanning the sheet after the scan's `ERROR: MAIN LINK MISSING` writes
      selects the same jobs and issues no further writes: the scan settles in
      one pass. Text cells are assumed to display as their text. */
  lemma RescanAfterMarking(display: CellValue -> string, sheet: Sheet)
    requires ShowsTextVerbatim(display)
    ensures var scan := PendingRows(Shown(display, sheet));
      var rescan := PendingRows(Shown(display, ApplyAll(sheet, scan.writes)));
      rescan.jobs == scan.jobs && rescan.writes == []
  {
    var vs := Verdicts(Shown(display, sheet));
    var ws := ScanFrom(vs, 1).writes;
    MarkedVerdicts(display, sheet);
    ScanFromMarked(vs, Verdicts(Shown(display, ApplyAll(sheet, ws))), 1);
  }
}
