# VAWA grading pipeline — a Dafny model

This project models the batch pipeline that grades VAWA and T-visa legal cases.
Its job queue is a Google Sheet. A run goes through these steps:

1. It builds a context cache from the local reference PDFs ("fundamentos").
2. It opens a chat session over that cache.
3. It scans the sheet for rows whose status is `PENDING PROCESSING`. A pending
   row without its transcript or summary locator is marked
   `ERROR: MAIN LINK MISSING`.
4. It processes each remaining row in turn:
   - it marks the row `PROCESSING` and stamps the start time;
   - it downloads each linked document, converting it to PDF;
   - it runs the six-step review conversation, with the PDFs attached to
     the first step;
   - it uploads the final review as a Markdown file;
   - it writes the link, the token counts, the version and the times back
     to the row, and the status becomes `COMPLETED`;
   - if a step fails, it writes a short `ERROR: …` status instead;
   - it always removes the job's temporary directory.

The model is functional:

- Every remote answer is a parameter of the model: Drive, Sheets, the chat
  backend, the cache backend, the uploader and the clocks.
  - In `Grading.World` and `Grading.Setup`, each one is a function-typed field.
  - In `Normalizer.Drive`, they are keyed by file id.
  - In `Chat.Backend`, they are keyed by the global send number.
- Every side effect becomes an entry in an event trace
  (`Grading.Event`, `Chat.Try`, `Normalizer.DriveRequest`).
- The worksheet is a grid of `Sheets.CellValue`. `Sheets.ApplyAll` gives the
  meaning of the calls the pipeline makes on it.

Modules:

- `Wrappers`: `Option` and `Result`.
- `Text`: `strip`, lower-casing, `in`, `join` and `split`, decimal rendering, and `os.path.join`.
- `A1`: A1 cell and range names and their parser.
- `DriveTools`: locator parsing (`get_id_from_url`), name normalisation and subfolder matching.
- `Sheets`: the column layout, the pending-row scan, the write-backs and their effect on the sheet.
- `Cache`: the reference-PDF selection and the cache request.
- `Normalizer`: `download_as_pdf` with its MIME-type dispatch, paragraph joining and Latin-1 sanitisation.
- `Chat`: the session start, the retry loop and the six-step review flow.
- `Grading`: `process_single_case` and `run`.

In one place the program's own comments and its code disagree, and the pipeline model follows the code:

- **Start time and duration.** The comment at src/workflows/grading_process.py:111 says the duration is measured from the start time stamped when the row is marked, and the docstring of `write_grading_results` (src/services/sheets_service.py:125-133) lists `start_time` among the record's fields. The code never passes that start time on. This is also listed under Findings, where the corrected record is defined and proved separately.

The retry loop `_send_message_with_retry` (src/services/chat_service.py:139-149) is documented only as "exponential retries" (line 140). With its default of three attempts, it pauses 1 s after the first failure and 2 s after the second. It re-raises the third failure without pausing (`Chat.DefaultRetryAllRefused`).

## Model

| member | source | states |
|---|---|---|
| Text.StripSlice | src/services/sheets_service.py:69 | `strip()` returns a contiguous slice of its input, and only whitespace is cut on either side. |
| Text.StripBounds | src/services/sheets_service.py:69 | `strip()` keeps exactly the part between its two cut points, and the parts cut off on either side are whitespace. |
| Text.StripTrimmed | src/services/sheets_service.py:69 | stripping text with no surrounding whitespace returns it unchanged. |
| Text.Lower | src/utils/drive_tools.py:43 | lower-casing keeps the length and lowers each character in place. |
| Text.AsciiOnly | src/utils/drive_tools.py:42 | a character occurs in the result exactly when it occurs in the input and is ASCII; the result is never longer and an all-ASCII text is unchanged; a single character is kept exactly when it is ASCII. |
| Text.AsciiOnlyConcat | src/utils/drive_tools.py:42 | dropping the non-ASCII characters works piecewise: the result for a concatenation is the concatenation of the results. |
| Text.PathJoin | src/workflows/grading_process.py:70 | `os.path.join`: the result ends with the file name; an absolute name replaces the directory; a relative name is appended with one `/` when the directory does not end in `/`, and directly otherwise. |
| Text.DigitsValueOfNatToString | src/services/sheets_service.py:117-118 | the decimal text of a row number reads back as that number. |
| Text.SplitJoin | src/services/drive_service.py:155 | splitting a separator-joined list, none of whose parts holds the separator, gives back the list. |
| A1.ParseCellName | src/services/sheets_service.py:117-118 | the cell name built for a column and row (`C{row}`, `P{row}`) parses back to that cell. |
| A1.ParseRangeName | src/services/sheets_service.py:154 | the range name built for a block (`K{row}:R{row}`) parses back to the same corners. |
| DriveTools.SearchId | src/utils/drive_tools.py:23-25 | `re.search(pat + '([a-zA-Z0-9_-]+)')` finds a group exactly when the pattern occurs followed by an id character; the group is the maximal id run after the leftmost such occurrence. |
| DriveTools.CapturedIdUnique | src/utils/drive_tools.py:23-25 | the captured group is determined by the text: two captures are the same id. |
| DriveTools.CapturedIdShape | src/utils/drive_tools.py:23-25 | a captured id is non-empty, uses only id characters, and occurs in the locator. |
| DriveTools.IdFromUrl | src/utils/drive_tools.py:14-36 | an empty locator gives `None`; otherwise the `/d/` capture wins, then the `folders/` capture, and a text that has neither is returned only when it is longer than 20 characters and has no `/`; any id returned occurs in the locator. |
| DriveTools.DocLinkYieldsId | src/utils/drive_tools.py:23-25 | a Docs link `…/d/<id>…` whose id is followed by a non-id character (or nothing) yields exactly that id. |
| DriveTools.NormalizeName | src/utils/drive_tools.py:39-43 | an empty name normalises to `""`; otherwise the result is ASCII, stripped, has no upper-case letter, and is a slice of the lowered ASCII residue of the decomposed name whose cut-off parts on both sides are all whitespace. |
| DriveTools.FirstMatch | src/utils/drive_tools.py:70-75 | returns the first folder position whose name contains some target, and `None` exactly when no folder matches. |
| DriveTools.FindSubfolder | src/utils/drive_tools.py:50-86 | fails exactly on an `HttpError` with status 403 or 429, carrying that status; any other error gives no folder; after a listing, the folder returned is the first in listing order whose normalised name contains a normalised target, and there is none exactly when no folder matches. |
| DriveTools.BlankTargetMatchesFirstFolder | src/utils/drive_tools.py:70-75 | a target that normalises to the empty string matches every name, so the first listed folder is returned. |
| Sheets.ClassifyRow | src/services/sheets_service.py:67-97 | a row is a job exactly when its stripped status is `PENDING PROCESSING` and both main locators (E and J) are non-empty; it needs the missing-link mark exactly when it is pending and a main locator is empty; a job's fields are read from the row. |
| Sheets.ScanFrom | src/services/sheets_service.py:63-97 | every job found is a ready row after the start row, with its own row number; every write is a missing-link mark on a pending row without main locators. |
| Sheets.ScanFromAscending | src/services/sheets_service.py:63-97 | jobs and marks come out in ascending row order. |
| Sheets.ScanComplete | src/services/sheets_service.py:63-97 | every ready row after the header yields a job, and every pending row without main locators yields a mark. |
| Sheets.PendingRows | src/services/sheets_service.py:52-102 | `get_pending_rows`: the header row is skipped; the jobs are exactly the pending rows with both main locators, in row order, each read from its row; the marks are exactly the `ERROR: MAIN LINK MISSING` status updates of the other pending rows, in row order. |
| Sheets.PendingJobFields | src/services/sheets_service.py:82-97 | every job record holds the cells of its own row: columns A and B verbatim, both main locators non-empty, and every optional locator (D, F, G, H, I) as its cell's text. |
| Sheets.JobRowFields | src/services/sheets_service.py:74-97 | a pending row with both main locators reaches column J, so the record built from it reads every optional locator from its cell; the code's `""` fallbacks never apply to a job. |
| Sheets.UpdateStatus | src/services/sheets_service.py:105-110 | one `update_cell` on column C of the row with the status text. |
| Sheets.MarkProcessingStart | src/services/sheets_service.py:113-122 | one `batch_update` of exactly two single-cell writes: the range names parse to `C{row}`, which gets `PROCESSING`, and `P{row}`, which gets the start time. |
| Sheets.ResultValues | src/services/sheets_service.py:134-151 | the eight values for K..R are the link (or `""`), an empty L, the token counts (default 0), the configured version, the start time (defaulting to the end time), the end time, and the duration between the two. |
| Sheets.WriteGradingResults | src/services/sheets_service.py:125-163 | one range update of the eight result values, on a range name that parses to `K{row}:R{row}`; then the status `COMPLETED` when the backend stored it, else `ERROR SAVING RESULTS`. |
| Sheets.SetCell | src/services/sheets_service.py:108 | `update_cell` sets exactly one cell, growing the grid if needed, and leaves every other cell as it was. |
| Sheets.WriteBlock | src/services/sheets_service.py:155 | a block write sets exactly the cells of the block to the given values and no others. |
| Sheets.ApplyAllConcat | src/services/sheets_service.py:105-163 | applying two call sequences in turn is applying their concatenation. |
| Sheets.Shown | src/services/sheets_service.py:60 | `get_all_values` shows every cell, keeping the grid's shape. |
| Sheets.WriteAtCell | src/services/sheets_service.py:117-118 | a one-cell range write changes exactly the named cell. |
| Sheets.UpdateStatusEffect | src/services/sheets_service.py:105-110 | after `update_status`, column C of the row holds the status, and nothing else has changed. |
| Sheets.MarkProcessingStartEffect | src/services/sheets_service.py:113-122 | after `mark_processing_start`, C holds `PROCESSING` and P holds the start stamp, and nothing else has changed. |
| Sheets.WriteResultBlock | src/services/sheets_service.py:154-155 | the `K{row}:R{row}` write sets columns K..R of that row, in order, and nothing else. |
| Sheets.WriteGradingResultsEffect | src/services/sheets_service.py:125-163 | after `write_grading_results`, the status is `COMPLETED` when stored, else `ERROR SAVING RESULTS`; K..R hold the result values only when stored; nothing else changes. |
| Sheets.ApplyStatusWrites | src/services/sheets_service.py:79 | applying a list of status writes sets the status exactly on the rows written, keeps every other cell, and keeps the grid's shape. |
| Sheets.ScanFromMarked | src/services/sheets_service.py:63-97 | with the marked rows no longer pending, the scan finds the same jobs and no marks. |
| Sheets.MarkedRowNotPending | src/services/sheets_service.py:69-79 | a row whose status is `ERROR: MAIN LINK MISSING` is not pending. |
| Sheets.ShownAfterStatusWrites | src/services/sheets_service.py:60 | after status writes, the displayed grid differs from the old one only in the status of the written rows. |
| Sheets.ScanWritesExactly | src/services/sheets_service.py:74-80 | a data row is marked exactly when it is pending without its main locators. |
| Sheets.ScanWritesFit | src/services/sheets_service.py:74-80 | every mark targets the status cell of an existing row that is wide enough to hold it. |
| Sheets.MarkedVerdicts | src/services/sheets_service.py:63-97 | after the marks are applied, each marked row reads as not pending, and every other row reads as before. |
| Sheets.MarkedRowVerdict | src/services/sheets_service.py:69-80 | overwriting a missing-link row's status with the mark turns it into a not-pending row; an untouched row keeps its verdict. |
| Sheets.RescanAfterMarking | src/services/sheets_service.py:52-102 | scanning again after applying the scan's marks finds the same jobs and no new marks. |
| Cache.SelectPdfs | src/services/cache_service.py:23 | keeps exactly the listed names ending in `.pdf` in any case, and never adds a name. |
| Cache.SelectPdfsConcat | src/services/cache_service.py:23 | the selection keeps listing order. |
| Cache.AnyCaseExtensionSelected | src/services/cache_service.py:23 | `.PDF`, `.Pdf`, … are all selected. |
| Cache.ReferencePaths | src/services/cache_service.py:28 | one path per selected file, in order, each ending with the file name under the reference directory; a relative name under a directory without a trailing `/` becomes `<dir>/<name>`. |
| Cache.EnsureFundamentosCache | src/services/cache_service.py:13-56 | a missing directory, a failed listing, or a listing with no PDFs each raises before any request; otherwise exactly one creation request is made with the fixed name, the 12-hour TTL, the fixed instruction and the selected paths, and its answer becomes the handle or the error. |
| Normalizer.StrategyFor | src/services/drive_service.py:88-132 | each of the four known MIME types selects its own branch, and every other type, or no type, selects the raw-download fallback. |
| Normalizer.Convert | src/services/drive_service.py:88-132 | a Google Doc is exported as PDF; every other type is fetched with `get_media`. |
| Normalizer.DownloadAsPdf | src/services/drive_service.py:75-139 | the metadata request comes first and its failure raises at once; otherwise exactly one content request follows; the output path is returned exactly when bytes were written. |
| Normalizer.DownloadContents | src/services/drive_service.py:88-132 | the bytes written are the exported PDF, the raw media, the rendered sanitised docx paragraphs, or the rendered sanitised UTF-8 text, according to the type. |
| Normalizer.UnknownTypeFallsBack | src/services/drive_service.py:128-132 | an unsupported type whose media can be fetched still produces the output file. |
| Normalizer.JoinParagraphs | src/services/drive_service.py:149-155 | the extracted text has the paragraphs' total length plus one newline between each pair, and no paragraphs gives `""`. |
| Normalizer.JoinParagraphsNewlines | src/services/drive_service.py:155 | the joined text has the paragraphs' own newlines plus one per gap. |
| Normalizer.JoinParagraphsRecoverable | src/services/drive_service.py:155 | paragraphs without newlines can be recovered by splitting the text on newlines. |
| Normalizer.Sanitize | src/services/drive_service.py:165 | the Latin-1 round trip keeps the length and replaces each character by itself or by `?`. |
| Normalizer.SanitizeLatin1 | src/services/drive_service.py:165 | the result is all Latin-1, and a character is kept exactly when it was Latin-1 already. |
| Normalizer.SanitizeIdempotent | src/services/drive_service.py:165 | sanitising twice is sanitising once. |
| Normalizer.SanitizeFixedPoint | src/services/drive_service.py:165 | a text is left unchanged exactly when it is all Latin-1. |
| Chat.FetchDocText | src/services/chat_service.py:21-34 | the prompt text is the export of the id parsed from the locator; any export failure raises, naming the locator. |
| Chat.InitializeSession | src/services/chat_service.py:36-67 | the system instructions are fetched first, and their failure aborts even when a cache is given; once they are fetched, the session starts exactly when the backend accepts the chosen model (the cache when one is given, else the standard model with the fetched instructions), and a refusal raises the backend's error. |
| Chat.RetryFrom | src/services/chat_service.py:141-149 | each attempt sends the next message number; every attempt but the last was refused and was followed by a pause of 2^i seconds; the last is not followed by a pause. |
| Chat.SendWithRetry | src/services/chat_service.py:139-149 | at most `retries` attempts; zero attempts happen exactly when the budget is zero, and then the result is `None`; a reply is the last attempt's delivery; a failure means every attempt was used and the last refusal is re-raised. |
| Chat.RetryLemma | src/services/chat_service.py:141-149 | from attempt `i`, the loop makes no attempt exactly when the budget is spent; a failure uses up the rest of the budget and re-raises the last refusal. |
| Chat.RetryFindsFirstDelivery | src/services/chat_service.py:141-143 | when the first delivery comes at attempt `d` within the budget, its reply is returned after exactly `d + 1` attempts. |
| Chat.RetryAllRefused | src/services/chat_service.py:144-146 | when every remaining attempt is refused, all of them are made and the last refusal is raised. |
| Chat.DefaultRetryAllRefused | src/services/chat_service.py:139-149 | with the default budget of three and three refusals, the pauses are 1 s and 2 s, the third failure is not followed by a pause, and it is raised. |
| Chat.FlowSteps | src/services/chat_service.py:83-90 | six review steps, and only the first attaches the case files. |
| Chat.Attachments | src/services/chat_service.py:105-110 | one PDF part per path, in order, each holding the file's bytes, exactly when every file reads; otherwise the error names the first unreadable file, every earlier one having read. |
| Chat.StepMessage | src/services/chat_service.py:101-110 | the message is the prompt alone, unless the step attaches files and there are some; then the prompt is followed by the attachments. |
| Chat.RunStep | src/services/chat_service.py:98-121 | an unexportable prompt fails with its locator and an unreadable attachment with its error, both before any send; a step whose message builds but whose three sends are all refused fails with the last refusal after three sends; a step completes exactly when its message builds and the retry loop gets a reply; a completed step starts at the given send, its attempts and reply are the retry loop's from there, and it is followed by a 1-second pause. |
| Chat.RunSteps | src/services/chat_service.py:95-121 | the logged steps are at most the remaining steps, each answered; success runs every remaining step and the send count is the one after the last step's attempts. |
| Chat.RunStepsTrace | src/services/chat_service.py:95-121 | each logged step starts at the send after its predecessor's last attempt and is exactly what the step runner completes from there; a failure is the step after the logged ones, run from the send after them, with its error and send count. |
| Chat.RunStepsThreaded | src/services/chat_service.py:95-121 | the logged steps are threaded from the first send, each begun where its predecessor's attempts ended. |
| Chat.RunStepsStops | src/services/chat_service.py:95-121 | a failed run stops at the step after the logged ones, run from the send after them, and reports that step's failure and send count. |
| Chat.RunStepsResult | src/services/chat_service.py:123-133 | a successful flow's result is the last step's reply text with its prompt and candidate token counts. |
| Chat.ExecuteGradingFlow | src/services/chat_service.py:69-137 | without a session it raises before any send; the steps run are a prefix of the six, each answered and sent as built; success runs all six, counts every send and returns the final audit's text and tokens. |
| Chat.FlowThreaded | src/services/chat_service.py:95-121 | the six steps are threaded from the flow's first send: each logged step is what `RunStep` completes for its own review step, from the send after its predecessor's attempts. |
| Chat.FlowFailure | src/services/chat_service.py:95-137 | with a session, a failed flow stopped at its first failing step: the flow's error and send count are those of that step, run from the send after the completed steps. |
| Chat.StepSucceeds | src/services/chat_service.py:98-121 | a step whose prompt exports and whose files are readable completes unless all three sends of its budget are refused. |
| Chat.FlowSucceeds | src/services/chat_service.py:69-137 | with a session, exportable prompts, readable files and no three refusals in a row from the first send on, the flow succeeds. |
| Chat.FlowMessages | src/services/chat_service.py:95-110 | each step's message starts with its fetched prompt; the first step carries one PDF part per case file, in order, and every other step carries only the prompt. |
| Grading.DocumentPath | src/workflows/grading_process.py:70 | a role's document is saved as `<role>.pdf` inside the temporary directory: the path starts with the directory and is `<dir>/<role>.pdf` when the directory does not end in `/`. |
| Grading.Attempt | src/workflows/grading_process.py:68-74 | a document attempt downloads the id parsed from the role's locator to the role's path in the job's own temporary directory, and its result is `download_as_pdf` of that id to that path. |
| Grading.EligibleRolesOrdered | src/workflows/grading_process.py:55-67 | only roles with a locator longer than five characters are attempted, in the fixed role order. |
| Grading.EligibleRolesComplete | src/workflows/grading_process.py:66-67 | every role with such a locator is attempted. |
| Grading.Attempts | src/workflows/grading_process.py:66-77 | one attempt per eligible role, in role order. |
| Grading.AttemptsInRoleOrder | src/workflows/grading_process.py:55-77 | a role is attempted exactly when its locator is eligible; attempts follow role order; each uses its locator's id and its role's path. |
| Grading.SavedPaths | src/workflows/grading_process.py:73-77 | the PDFs handed to the review are exactly the paths whose download succeeded; a failed download is skipped. |
| Grading.SavedPathsConcat | src/workflows/grading_process.py:66-77 | the saved paths keep attempt order. |
| Grading.ReadSavedPaths | src/workflows/grading_process.py:73-77 | when the local files hold what the downloads wrote, each saved path reads back as the bytes its download wrote, in attempt order. |
| Grading.DocumentPathsDisjoint | src/workflows/grading_process.py:45 | two jobs whose `mkdtemp` directories differ never share a document path, whatever the roles. |
| Grading.ErrorStatus | src/workflows/grading_process.py:117 | the failure status is `ERROR: ` followed by the first `min(50, len)` characters of the message. |
| Grading.OutputFileName | src/workflows/grading_process.py:87 | the upload name is `GRADING_<name with spaces as _>_<id>.md`: between the prefix and the id sits the client name with each space replaced by `_`, character for character; it has no space when the id has none. |
| Grading.ResultDataAsWritten | src/workflows/grading_process.py:107-112 | the result record carries the link and the token counts but no start time. |
| Grading.ResultDataFor | src/workflows/grading_process.py:107-112 | the corrected record also carries the start time stamped when the row was marked. |
| Grading.SaveReview | src/workflows/grading_process.py:84-113 | after the review, a failed review is the job's error; a successful one is uploaded under the job's file name with the review text, and the upload's answer (a link or an error) decides the outcome. |
| Grading.SaveReviewWrites | src/workflows/grading_process.py:84-113 | the only sheet calls after the review are the result write-back, and only after a successful upload. |
| Grading.Review | src/workflows/grading_process.py:79-84 | no review runs exactly when no PDF was saved; otherwise the flow runs on the saved PDFs. |
| Grading.Middle | src/workflows/grading_process.py:79-117 | with no PDFs the job fails with the no-documents error and makes no send; otherwise the review comes first, and its failure or the upload's is the job's error. |
| Grading.MiddleWrites | src/workflows/grading_process.py:79-117 | after the documents, the sheet calls are exactly the closing writes for the outcome. |
| Grading.LayoutShape | src/workflows/grading_process.py:48-120 | the mark comes first, then the document fetches, then the rest, and the temp-dir removal comes last and only once. |
| Grading.LayoutCalls | src/workflows/grading_process.py:48-120 | the sheet calls of a job are the mark followed by the sheet calls of the rest. |
| Grading.ProcessSingleCase | src/workflows/grading_process.py:39-120 | the documents are the attempts for the row's locators, saved in the temporary directory created for this row; the review sees the saved paths; the outcome and the sends are those of the review and the upload; the sheet calls are the processing mark followed by exactly the closing writes for the outcome. |
| Grading.JobEvents | src/workflows/grading_process.py:39-120 | the row is marked first; the documents are fetched in role order; the row's own temporary directory is removed last, whatever happened. |
| Grading.NoDocumentsNoReview | src/workflows/grading_process.py:79-80 | when no document was saved, the job fails with the no-documents error before any review or upload, and makes no send. |
| Grading.ReviewAttaches | src/workflows/grading_process.py:73-84 | when the local files hold what the downloads wrote and the first review step completes, that step's message is its prompt followed by exactly the downloaded PDFs, in attempt order. A failed step logs no message. |
| Grading.ReviewAttachesDownloads | src/workflows/grading_process.py:39-84 | the same for a whole job: its review's first step attaches the bytes its own downloads wrote. |
| Grading.ClosingWrites | src/workflows/grading_process.py:106-117 | a failure writes only the `ERROR: …` status; a saved review writes the result block of the record as written, so P gets the end stamp and R the end-to-end duration, then `COMPLETED` or `ERROR SAVING RESULTS` according to whether the block was stored. |
| Grading.TerminalNotPending | src/services/sheets_service.py:69-71 | a closing status is never `PENDING PROCESSING`, even after stripping, nor `PROCESSING`. |
| Grading.JobSheetEffect | src/workflows/grading_process.py:39-120 | after a job its row holds a closing status and no other row changes; a stored success holds the link, the tokens and the end stamp, with the end stamp also in P and the end-to-end duration in R, as the code writes them; otherwise P keeps the start stamp of the mark. |
| Grading.ClosingWritesEffect | src/workflows/grading_process.py:106-117 | the closing writes set the row's status; a stored success sets K..R to the values of the record as written (P is the end stamp); otherwise K..R are unchanged; every other cell of the row (A..B, D..J and beyond R) is unchanged, and no other row changes. |
| Grading.StartTimeLostAsWritten | src/workflows/grading_process.py:107-113 | as written, after a successful job column P holds the end time and the duration is end-to-end; the start stamp is lost whenever the clocks differ. |
| Grading.StartTimeKept | src/workflows/grading_process.py:107-113 | passing the start time keeps P at the start stamp and measures the duration from start to end. |
| Grading.ThreadThreaded | src/workflows/grading_process.py:34-35 | each job in the loop starts at the send count the previous job left. |
| Grading.ProcessJobs | src/workflows/grading_process.py:34-35 | every pending job is processed once, in order, on the shared session, and each continues the previous job's send count. |
| Grading.ClosesRows | src/workflows/grading_process.py:34-35 | when each job closes only its own row, running the jobs in row order leaves each job's closing status in its row and changes no row without a job. |
| Grading.ThreadedRunsClose | src/workflows/grading_process.py:34-35 | every job of the loop closes its own row and touches no other. |
| Grading.ProcessJobsEffect | src/workflows/grading_process.py:34-35 | after the loop, every job row holds its closing status and every other row is unchanged. |
| Grading.Run | src/workflows/grading_process.py:16-37 | a cache failure stops the run before the session; a started session is opened on the cache's handle; a failed scan aborts the run; otherwise every pending job from the scan is processed on the fresh session, starting from send 0. |
| Grading.ProcessJobsSettle | src/workflows/grading_process.py:34-35 | after the loop, no job row is pending or processing any more; each holds a terminal status. |
| Grading.RunSettlesJobs | src/workflows/grading_process.py:16-37 | after a finished run, every job found by the scan has a terminal status, so a later scan would not pick it up again. |

## Left out

- Credentials, OAuth and client construction (`google_client.py` apart from `upload_file`), the Vertex wrapper and `main.py` are not part of this model. The cache backend, the session start and the uploader appear as answers only.
- The `tenacity` retry decorators on `get_file_metadata` (src/services/drive_service.py:33-47), `download_as_pdf` and `find_subfolder` are left out. The Drive answers are taken as final.
- Drive list pagination in `find_subfolder` is left out. The listing is the concatenated result.
- The other Drive helpers of `drive_tools.py` (from line 88 on) are left out. The pipeline core does not call them.
- Clocks are parameters (`startClock`, `endClock`) that give already-formatted timestamps.
- The duration is kept symbolic (`Minutes(start, end)`). Float subtraction and `round(…, 2)` are not modelled.
- `time.sleep` is not performed. The retry loop's pauses are recorded in each `Chat.Try`, and the one-second pause after every review step (src/services/chat_service.py:121) is recorded in each `Chat.StepLog`.
- Unicode NFD decomposition is a parameter of `DriveTools.NormalizeName`.
- UTF-8 decoding, docx paragraph extraction and FPDF rendering are parameters (`Normalizer.Converters`).
- The chunked `MediaIoBaseDownload` loop is left out. A download is its final bytes or an error.
- The Markdown file written to the temporary directory before the upload is not modelled. The upload receives the review text directly.
- The upload's parent folder and MIME type are not modelled.
- `tempfile.mkdtemp` is a parameter keyed by the job's row (`Grading.World.tempDir`). That it returns a fresh directory each time is not modelled; `Grading.DocumentPathsDisjoint` shows that distinct directories give distinct document paths.
- Reading a local file is a parameter (`Grading.World.read`). That it returns what a download wrote there is the hypothesis `Grading.ReadsDownloads` of the lemmas that need it, not a fact of the model.
- An exception from `shutil.rmtree` would end the whole run. The model records the removal as an event that always succeeds.
- Failures of `update_cell` and `batch_update` are swallowed by the code. The model applies those calls as accepted. Only the result range write carries an accepted-or-not flag, because only its failure changes what the code does next.
- Logging is left out.
- An exception escaping `get_pending_rows` ends `run`. The model reports this as `ScanFailed`.
- Sheets.Shown: what `get_all_values` shows for a non-text cell is a parameter. The rescan lemmas assume only that a text cell shows as its text.
- Chat.SendWithRetry: a zero retry budget returns `None`, which the review flow never meets, because it always uses three.
- Grading.ProcessJobsEffect: states the effect of the jobs' own calls. The missing-link marks that the scan writes before the loop are covered separately, by `Sheets.RescanAfterMarking`.
- Grading.Run: the chat session is one stateful object, shared across jobs. The model captures this only through the global send counter threaded from job to job.

## Findings

| source | as written | input that shows it | evidently intended | confidence | as-written member | corrected member |
|---|---|---|---|---|---|---|
| src/workflows/grading_process.py:107-113 with src/services/sheets_service.py:134-136 | `process_single_case` builds the result record without `start_time`, so `write_grading_results` falls back to the end time. Column P is overwritten with the end time, and the duration is always 0. | any successful job whose start clock reading differs from its end clock reading | P keeps the start stamp written by `mark_processing_start`, and R is the start-to-end duration | not executed | Grading.StartTimeLostAsWritten | Grading.StartTimeKept |

`Grading.ResultDataAsWritten` models the record as written. The pipeline uses it: `Grading.ClosingWrites`, `Grading.JobSheetEffect` and `Grading.ClosingWritesEffect` describe the sheet as the code leaves it. `Grading.ResultDataFor` is the corrected record, and `Grading.StartTimeKept` proves the intended property about it.
