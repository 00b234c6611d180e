/** The pipeline driver (`GradingProcess`): the run-level setup and job loop,
    and the per-job sequence of mark, document normalisation, review,
    upload, result write-back and clean-up. Every remote answer and clock
    reading is part of the `World` the run is evaluated in. */
module Grading {
  import opened Wrappers
  import opened Text
  import opened Sheets
  import DriveTools
  import Cache
  import Chat
  import Normalizer

  // ---------------------------------------------------------------------------
  // Document roles
  // ---------------------------------------------------------------------------

  datatype Role = Caratula | Transcript | Evidencias | Dair | Fair | Rapsheet | Summary

  /** The roles in the order their documents are fetched. */
  const Roles: seq<Role> := [Caratula, Transcript, Evidencias, Dair, Fair, Rapsheet, Summary]

  function RoleName(role: Role): string {
    match role
    case Caratula => "caratula"
    case Transcript => "transcript"
    case Evidencias => "evidencias"
    case Dair => "dair"
    case Fair => "fair"
    case Rapsheet => "rapsheet"
    case Summary => "summary"
  }

  function RoleLink(links: Links, role: Role): string {
    match role
    case Caratula => links.caratula
    case Transcript => links.transcript
    case Evidencias => links.evidencias
    case Dair => links.dair
    case Fair => links.fair
    case Rapsheet => links.rapsheet
    case Summary => links.summary
  }

  /** The position of a role in `Roles`. */
  function RoleIndex(role: Role): (i: nat)
    ensures i < |Roles| && Roles[i] == role
  {
    match role
    case Caratula => 0
    case Transcript => 1
    case Evidencias => 2
    case Dair => 3
    case Fair => 4
    case Rapsheet => 5
    case Summary => 6
  }

  /** A locator worth trying: non-empty and longer than five characters. */
  predicate Eligible(url: string) {
    |url| > 5
  }

  /** The file a role's document is saved to. */
  function DocumentPath(tempDir: string, role: Role): (p: string)
    ensures EndsWith(p, RoleName(role) + ".pdf")
    ensures StartsWith(p, tempDir)
    ensures tempDir != [] && tempDir[|tempDir| - 1] != '/' ==> p == tempDir + "/" + RoleName(role) + ".pdf"
  {
    var name := RoleName(role) + ".pdf";
    assert name[..1] != "/" by {
      assert name[0] == RoleName(role)[0];
    }
    PathJoin(tempDir, name)
  }

  // ---------------------------------------------------------------------------
  // The world a run is evaluated in
  // ---------------------------------------------------------------------------

  /** Remote answers and clock readings. Clock readings, and the temporary
      directory `mkdtemp` creates for a job, are keyed by the job's row; `read`
      reads a local file by path; `stored` says whether the backend accepts a row's result
      range write; `describe` is `str(e)` of an error raised by a foreign
      call. */
  datatype World = World(
    drive: Normalizer.Drive,
    conv: Normalizer.Converters,
    docs: Chat.PromptDocs,
    prompts: Chat.TextExport,
    read: Chat.FileReader,
    send: Chat.Backend,
    upload: (string, string) -> Result<Option<string>, string>,
    tempDir: nat -> string,
    startClock: nat -> string,
    endClock: nat -> string,
    stored: nat -> bool,
    describe: Chat.ChatError -> string)

  // ---------------------------------------------------------------------------
  // Documents
  // ---------------------------------------------------------------------------

  /** One attempted document: the role, the id extracted from its locator,
      the target path and what the download did. */
  datatype DocAttempt = DocAttempt(role: Role, fileId: Option<string>, path: string, download: Normalizer.Download)

  function Attempt(w: World, dir: string, links: Links, role: Role): (a: DocAttempt)
    ensures a.role == role && a.path == DocumentPath(dir, role)
    ensures a.fileId == DriveTools.IdFromUrl(RoleLink(links, role))
    ensures a.download == Normalizer.DownloadAsPdf(w.drive, w.conv, a.fileId, a.path)
  {
    var fileId := DriveTools.IdFromUrl(RoleLink(links, role));
    var path := DocumentPath(dir, role);
    DocAttempt(role, fileId, path, Normalizer.DownloadAsPdf(w.drive, w.conv, fileId, path))
  }

  /** The roles from position `i` of `Roles` on whose locator is eligible,
      in role order. */
  function EligibleRoles(links: Links, i: nat): (roles: seq<Role>)
    requires i <= |Roles|
    ensures |roles| <= |Roles| - i
    decreases |Roles| - i
  {
    if i == |Roles| then []
    else if Eligible(RoleLink(links, Roles[i])) then [Roles[i]] + EligibleRoles(links, i + 1)
    else EligibleRoles(links, i + 1)
  }

  /** Only eligible roles from position `i` on, each once, in role order. */
  predicate RolesSound(links: Links, i: nat, roles: seq<Role>) {
    forall k :: 0 <= k < |roles| ==> i <= RoleIndex(roles[k]) && Eligible(RoleLink(links, roles[k]))
  }

  predicate RolesOrdered(roles: seq<Role>) {
    forall a, b :: 0 <= a < b < |roles| ==> RoleIndex(roles[a]) < RoleIndex(roles[b])
  }

  lemma {:induction false} EligibleRolesOrdered(links: Links, i: nat)
    requires i <= |Roles|
    ensures RolesSound(links, i, EligibleRoles(links, i))
    ensures RolesOrdered(EligibleRoles(links, i))
    decreases |Roles| - i
  {
    if i < |Roles| {
      var rest := EligibleRoles(links, i + 1);
      var r := EligibleRoles(links, i);
      EligibleRolesOrdered(links, i + 1);
      if Eligible(RoleLink(links, Roles[i])) {
        assert r == [Roles[i]] + rest;
        RoleIndexAt(i);
        RolesCons(links, i, Roles[i], rest);
      } else {
        assert r == rest;
      }
    }
  }

  /** `RoleIndex` is the position in `Roles`. */
  lemma RoleIndexAt(i: nat)
    requires i < |Roles|
    ensures RoleIndex(Roles[i]) == i
  {
    if i == 0 {} else if i == 1 {} else if i == 2 {} else if i == 3 {} else if i == 4 {} else if i == 5 {}
  }

  /** An eligible role at position `i` put in front of a sound, ordered list
      from `i + 1` keeps the list sound and ordered from `i`. */
  lemma RolesCons(links: Links, i: nat, role: Role, rest: seq<Role>)
    requires RoleIndex(role) == i && Eligible(RoleLink(links, role))
    requires RolesSound(links, i + 1, rest) && RolesOrdered(rest)
    ensures RolesSound(links, i, [role] + rest) && RolesOrdered([role] + rest)
  {
    var r := [role] + rest;
    forall a, b | 0 <= a < b < |r|
      ensures RoleIndex(r[a]) < RoleIndex(r[b])
    {
      assert r[b] == rest[b - 1];
      if a > 0 {
        assert r[a] == rest[a - 1];
      }
    }
    forall k | 0 <= k < |r|
      ensures i <= RoleIndex(r[k]) && Eligible(RoleLink(links, r[k]))
    {
      if k > 0 {
        assert r[k] == rest[k - 1];
      }
    }
  }

  /** Every eligible role from position `i` on is listed. */
  lemma {:induction false} EligibleRolesComplete(links: Links, i: nat)
    requires i <= |Roles|
    ensures forall role: Role :: i <= RoleIndex(role) && Eligible(RoleLink(links, role)) ==>
              role in EligibleRoles(links, i)
    decreases |Roles| - i
  {
    if i < |Roles| {
      EligibleRolesComplete(links, i + 1);
      forall role: Role | i <= RoleIndex(role) && Eligible(RoleLink(links, role))
        ensures role in EligibleRoles(links, i)
      {
        if RoleIndex(role) == i {
          assert EligibleRoles(links, i)[0] == role;
        }
      }
    }
  }

  /** The attempts of a job: one per eligible role, in role order. */
  function Attempts(w: World, dir: string, links: Links): (docs: seq<DocAttempt>)
    ensures var roles := EligibleRoles(links, 0);
      |docs| == |roles| && forall k :: 0 <= k < |docs| ==> docs[k] == Attempt(w, dir, links, roles[k])
    ensures Written(docs)
  {
    var roles := EligibleRoles(links, 0);
    seq(|roles|, k requires 0 <= k < |roles| => Attempt(w, dir, links, roles[k]))
  }

  /** The documents a job tries to fetch: a role is attempted exactly when
      its locator is eligible, in the fixed role order, each attempt
      fetching the id extracted from the locator into the role's file. */
  lemma AttemptsInRoleOrder(w: World, dir: string, links: Links)
    ensures var docs := Attempts(w, dir, links);
      && (forall role: Role :: Eligible(RoleLink(links, role)) <==> exists k :: 0 <= k < |docs| && docs[k].role == role)
      && (forall a, b :: 0 <= a < b < |docs| ==> RoleIndex(docs[a].role) < RoleIndex(docs[b].role))
      && forall k :: 0 <= k < |docs| ==>
           && docs[k].fileId == DriveTools.IdFromUrl(RoleLink(links, docs[k].role))
           && docs[k].path == DocumentPath(dir, docs[k].role)
  {
    var roles := EligibleRoles(links, 0);
    var docs := Attempts(w, dir, links);
    EligibleRolesOrdered(links, 0);
    EligibleRolesComplete(links, 0);
    AttemptsFollowRoles(links, dir, roles, docs);
  }

  /** Attempts that follow a sound, ordered and complete role list, one per
      role, inherit its order and its coverage. */
  lemma AttemptsFollowRoles(links: Links, dir: string, roles: seq<Role>, docs: seq<DocAttempt>)
    requires |docs| == |roles|
    requires forall k :: 0 <= k < |docs| ==>
               && docs[k].role == roles[k]
               && docs[k].fileId == DriveTools.IdFromUrl(RoleLink(links, roles[k]))
               && docs[k].path == DocumentPath(dir, roles[k])
    requires RolesSound(links, 0, roles) && RolesOrdered(roles)
    requires forall role: Role :: Eligible(RoleLink(links, role)) ==> role in roles
    ensures forall role: Role :: Eligible(RoleLink(links, role)) <==> exists k :: 0 <= k < |docs| && docs[k].role == role
    ensures forall a, b :: 0 <= a < b < |docs| ==> RoleIndex(docs[a].role) < RoleIndex(docs[b].role)
    ensures forall k :: 0 <= k < |docs| ==>
              && docs[k].fileId == DriveTools.IdFromUrl(RoleLink(links, docs[k].role))
              && docs[k].path == DocumentPath(dir, docs[k].role)
  {
    forall role: Role
      ensures Eligible(RoleLink(links, role)) <==> exists k :: 0 <= k < |docs| && docs[k].role == role
    {
      if Eligible(RoleLink(links, role)) {
        var k :| 0 <= k < |roles| && roles[k] == role;
        assert docs[k].role == role;
      }
    }
  }

  /** The saved paths, in attempt order: one per successful download. */
  function SavedPaths(docs: seq<DocAttempt>): (paths: seq<string>)
    ensures |paths| <= |docs|
    ensures forall p :: p in paths <==> exists k :: 0 <= k < |docs| && docs[k].download.outcome.Success? && docs[k].path == p
  {
    if docs == [] then []
    else
      var rest := SavedPaths(docs[1..]);
      assert forall k :: 1 <= k < |docs| ==> docs[k] == docs[1..][k - 1];
      if docs[0].download.outcome.Success? then [docs[0].path] + rest else rest
  }

  /** A failed download is skipped: it contributes nothing, and the other
      attempts still contribute theirs. */
  lemma {:induction false} SavedPathsConcat(a: seq<DocAttempt>, b: seq<DocAttempt>)
    ensures SavedPaths(a + b) == SavedPaths(a) + SavedPaths(b)
    decreases |a|
  {
    if a == [] {
      assert a + b == b;
    } else {
      assert (a + b)[0] == a[0];
      assert (a + b)[1..] == a[1..] + b;
      SavedPathsConcat(a[1..], b);
    }
  }

  /** A saved document is one whose download wrote bytes. */
  predicate Written(docs: seq<DocAttempt>) {
    forall k :: 0 <= k < |docs| && docs[k].download.outcome.Success? ==> docs[k].download.written.Some?
  }

  /** The bytes the successful downloads wrote, in attempt order: the
      contents behind `SavedPaths`. */
  function SavedBytes(docs: seq<DocAttempt>): (bytes: seq<Normalizer.Bytes>)
    requires Written(docs)
    ensures |bytes| == |SavedPaths(docs)|
  {
    if docs == [] then []
    else
      assert forall k :: 1 <= k < |docs| ==> docs[k] == docs[1..][k - 1];
      var rest := SavedBytes(docs[1..]);
      if docs[0].download.outcome.Success? then [docs[0].download.written.value] + rest else rest
  }

  /** The local files hold what the downloads wrote: reading the path of a
      successful attempt gives the bytes its download wrote there. */
  predicate ReadsDownloads(read: Chat.FileReader, docs: seq<DocAttempt>) {
    forall k :: 0 <= k < |docs| && docs[k].download.outcome.Success? ==> read(docs[k].path) == docs[k].download.written
  }

  /** When the files hold what the downloads wrote, each saved path reads
      back as the matching downloaded bytes. */
  lemma {:induction false} ReadSavedPaths(read: Chat.FileReader, docs: seq<DocAttempt>)
    requires Written(docs) && ReadsDownloads(read, docs)
    ensures var paths := SavedPaths(docs);
      forall m :: 0 <= m < |paths| ==> read(paths[m]) == Some(SavedBytes(docs)[m])
  {
    if docs != [] {
      var tail := docs[1..];
      assert forall k :: 1 <= k < |docs| ==> docs[k] == tail[k - 1];
      ReadSavedPaths(read, tail);
      if docs[0].download.outcome.Success? {
        var paths := SavedPaths(docs);
        forall m | 0 <= m < |paths|
          ensures read(paths[m]) == Some(SavedBytes(docs)[m])
        {
          if m > 0 {
            assert paths[m] == SavedPaths(tail)[m - 1];
            assert SavedBytes(docs)[m] == SavedBytes(tail)[m - 1];
          }
        }
      }
    }
  }

  /** A role's file name has no `/`. */
  lemma RoleFileNoSlash(role: Role)
    ensures forall i :: 0 <= i < |RoleName(role) + ".pdf"| ==> (RoleName(role) + ".pdf")[i] != '/'
  {
  }

  /** Two jobs with different temporary directories never share a document
      path, whatever the roles: `mkdtemp` returns a fresh directory without a
      trailing `/`. */
  lemma DocumentPathsDisjoint(dir1: string, dir2: string, a: Role, b: Role)
    requires dir1 != dir2
    requires dir1 != [] && dir1[|dir1| - 1] != '/' && dir2 != [] && dir2[|dir2| - 1] != '/'
    ensures DocumentPath(dir1, a) != DocumentPath(dir2, b)
  {
    if |dir1| <= |dir2| {
      PathsDiffer(dir1, dir2, a, b);
    } else {
      PathsDiffer(dir2, dir1, b, a);
    }
  }

  lemma PathsDiffer(short: string, long: string, a: Role, b: Role)
    requires short != long && |short| <= |long|
    requires short != [] && short[|short| - 1] != '/' && long != [] && long[|long| - 1] != '/'
    ensures DocumentPath(short, a) != DocumentPath(long, b)
  {
    var p := DocumentPath(short, a);
    var q := DocumentPath(long, b);
    var n := RoleName(a) + ".pdf";
    assert p == short + "/" + n;
    assert q == long + "/" + RoleName(b) + ".pdf";
    if |short| == |long| {
      // Same length: the directories are the equal-length prefixes.
      assert p[..|short|] == short && q[..|long|] == long;
    } else if |p| == |q| {
      // The longer directory ends where the shorter path is inside its file name.
      RoleFileNoSlash(a);
      assert q[|long|] == '/';
      assert p[|long|] == n[|long| - |short| - 1];
    }
  }

  // ---------------------------------------------------------------------------
  // Names and messages
  // ---------------------------------------------------------------------------

  const NO_DOCUMENTS_MESSAGE: string := "No se pudieron descargar documentos v\U{e1}lidos para el cliente."

  const ERROR_PREFIX: string := "ERROR: "

  /** The status written for a failed job: the prefix and at most the first
      fifty characters of the error's message. */
  function ErrorStatus(message: string): (s: string)
    ensures |s| <= 57 && StartsWith(s, ERROR_PREFIX)
    ensures |s| == 7 + Min(50, |message|)
    ensures StartsWith(message, s[7..])
  {
    ERROR_PREFIX + Take(message, 50)
  }

  /** The name of the uploaded review: `GRADING_`, the client name with
      spaces turned into underscores, `_`, the client id, `.md`. */
  function OutputFileName(clientName: string, clientId: string): (f: string)
    ensures StartsWith(f, "GRADING_") && EndsWith(f, "_" + clientId + ".md")
    ensures |f| == |clientName| + |clientId| + 12
    ensures ' ' !in clientId ==> ' ' !in f
    ensures f[8..8 + |clientName|] == ReplaceChar(clientName, ' ', '_')
  {
    var f := "GRADING_" + ReplaceChar(clientName, ' ', '_') + "_" + clientId + ".md";
    assert f[|f| - |clientId| - 4..] == "_" + clientId + ".md";
    assert f[8..8 + |clientName|] == ReplaceChar(clientName, ' ', '_');
    f
  }

  // ---------------------------------------------------------------------------
  // One job
  // ---------------------------------------------------------------------------

  datatype PipelineError =
    | NoDocuments
    | ReviewFailed(error: Chat.ChatError)
    | UploadFailed(reason: string)

  /** `str(e)` of a job's error. */
  function ErrorMessage(w: World, e: PipelineError): string {
    match e
    case NoDocuments => NO_DOCUMENTS_MESSAGE
    case ReviewFailed(c) => w.describe(c)
    case UploadFailed(reason) => reason
  }

  /** What a job does, in order. */
  datatype Event =
    | SheetCallMade(call: SheetCall)
    | DocumentFetched(attempt: DocAttempt)
    | ReviewRun(steps: seq<Chat.StepLog>)
    | UploadRequested(name: string, content: string)
    | TempDirRemoved(dir: string)

  function SheetEvents(calls: seq<SheetCall>): (es: seq<Event>)
    ensures |es| == |calls| && forall k :: 0 <= k < |calls| ==> es[k] == SheetCallMade(calls[k])
  {
    seq(|calls|, k requires 0 <= k < |calls| => SheetCallMade(calls[k]))
  }

  function DocumentEvents(docs: seq<DocAttempt>): (es: seq<Event>)
    ensures |es| == |docs| && forall k :: 0 <= k < |docs| ==> es[k] == DocumentFetched(docs[k])
  {
    seq(|docs|, k requires 0 <= k < |docs| => DocumentFetched(docs[k]))
  }

  /** The sheet calls among a job's events, in order. */
  function SheetCallsOf(events: seq<Event>): seq<SheetCall> {
    if events == [] then []
    else if events[0].SheetCallMade? then [events[0].call] + SheetCallsOf(events[1..])
    else SheetCallsOf(events[1..])
  }

  lemma {:induction false} SheetCallsOfConcat(a: seq<Event>, b: seq<Event>)
    ensures SheetCallsOf(a + b) == SheetCallsOf(a) + SheetCallsOf(b)
    decreases |a|
  {
    if a == [] {
      assert a + b == b;
    } else {
      assert (a + b)[0] == a[0];
      assert (a + b)[1..] == a[1..] + b;
      SheetCallsOfConcat(a[1..], b);
    }
  }

  /** The link cell of the results: the web link, or a blank cell when the
      upload reported none. */
  function LinkCell(link: Option<string>): CellValue {
    match link
    case Some(l) => Str(l)
    case None => Blank
  }

  /** The result fields as `process_single_case` builds them: no start time,
      so the write-back falls back to the end time. */
  function ResultDataAsWritten(link: Option<string>, graded: Chat.Graded): (d: ResultData)
    ensures d.startTime.None?
    ensures d.gradingUrl == Some(LinkCell(link)) && d.tokensIn == Some(graded.tokensIn) && d.tokensOut == Some(graded.tokensOut)
  {
    ResultData(Some(LinkCell(link)), Some(graded.tokensIn), Some(graded.tokensOut), None)
  }

  /** The result fields with the start time the job was marked with, as the
      duration column evidently intends. */
  function ResultDataFor(link: Option<string>, graded: Chat.Graded, start: string): (d: ResultData)
    ensures d.startTime == Some(start)
    ensures d.gradingUrl == Some(LinkCell(link)) && d.tokensIn == Some(graded.tokensIn) && d.tokensOut == Some(graded.tokensOut)
  {
    ResultData(Some(LinkCell(link)), Some(graded.tokensIn), Some(graded.tokensOut), Some(start))
  }


  /** A reviewed and uploaded case: the review and the web link of the
      uploaded file (absent when the upload reported none). */
  datatype Saved = Saved(graded: Chat.Graded, link: Option<string>)

  /** The sheet calls that close a job: the result write-back after a saved
      review, built from the record as `process_single_case` writes it, so
      that columns P and R take the end time; the short error status
      otherwise. */
  function ClosingWrites(w: World, row: nat, outcome: Result<Saved, PipelineError>): (calls: seq<SheetCall>)
    ensures outcome.Failure? ==> calls == UpdateStatus(row, ErrorStatus(ErrorMessage(w, outcome.error)))
    ensures outcome.Success? ==>
              && |calls| == 2 && calls[0].UpdateRange? && calls[0].stored == w.stored(row)
              && calls[0].values == [ResultValues(ResultDataAsWritten(outcome.value.link, outcome.value.graded), w.endClock(row))]
              && calls[0].values[0][COL_START_TIME - COL_GRADING_LINK] == Stamp(w.endClock(row))
              && calls[0].values[0][COL_DURATION - COL_GRADING_LINK] == Minutes(w.endClock(row), w.endClock(row))
              && calls[1..] == UpdateStatus(row, if w.stored(row) then STATUS_COMPLETED else STATUS_SAVE_FAILED)
  {
    match outcome
    case Success(saved) =>
      WriteGradingResults(row, ResultDataAsWritten(saved.link, saved.graded), w.endClock(row), w.stored(row))
    case Failure(e) => UpdateStatus(row, ErrorStatus(ErrorMessage(w, e)))
  }

  /** The status a job leaves in column C. */
  function ClosingStatus(w: World, row: nat, outcome: Result<Saved, PipelineError>): string {
    match outcome
    case Success(_) => if w.stored(row) then STATUS_COMPLETED else STATUS_SAVE_FAILED
    case Failure(e) => ErrorStatus(ErrorMessage(w, e))
  }

  /** The part of a job after its documents: review, upload and, when both
      succeed, the result write-back. */
  datatype Tail = Tail(events: seq<Event>, sends: nat, outcome: Result<Saved, PipelineError>)

  /** The review was uploaded under the job's output name with the review's
      text as content, and the outcome is what the upload answered. */
  predicate Uploaded(w: World, job: Job, graded: Chat.Graded, t: Tail) {
    var name := OutputFileName(job.clientName, job.clientId);
    var up := w.upload(name, graded.text);
    && |t.events| >= 2 && t.events[1] == UploadRequested(name, graded.text)
    && (up.Failure? ==> t.outcome == Failure(UploadFailed(up.error)))
    && (up.Success? ==> t.outcome == Success(Saved(graded, up.value)))
  }

  /** After the review `flow`: upload of the review and write-back. */
  function SaveReview(w: World, job: Job, flow: Chat.FlowRun): (t: Tail)
    ensures |t.events| >= 1 && t.events[0] == ReviewRun(flow.steps) && t.sends == flow.sends
    ensures flow.outcome.Failure? ==> t.outcome == Failure(ReviewFailed(flow.outcome.error))
    ensures flow.outcome.Success? ==> Uploaded(w, job, flow.outcome.value, t)
  {
    var reviewed := [ReviewRun(flow.steps)];
    match flow.outcome
    case Failure(e) => Tail(reviewed, flow.sends, Failure(ReviewFailed(e)))
    case Success(graded) =>
      var name := OutputFileName(job.clientName, job.clientId);
      var uploaded := reviewed + [UploadRequested(name, graded.text)];
      match w.upload(name, graded.text)
      case Failure(reason) => Tail(uploaded, flow.sends, Failure(UploadFailed(reason)))
      case Success(link) =>
        var outcome := Success(Saved(graded, link));
        Tail(uploaded + SheetEvents(ClosingWrites(w, job.rowIdx, outcome)), flow.sends, outcome)
  }

  /** No clean-up and no document fetch among `es`. */
  predicate Inner(es: seq<Event>) {
    forall k :: 0 <= k < |es| ==> !es[k].TempDirRemoved? && !es[k].DocumentFetched?
  }

  lemma {:induction false} SheetCallsOfSheetEvents(calls: seq<SheetCall>)
    ensures SheetCallsOf(SheetEvents(calls)) == calls
    decreases |calls|
  {
    if calls != [] {
      assert SheetEvents(calls)[1..] == SheetEvents(calls[1..]);
      SheetCallsOfSheetEvents(calls[1..]);
    }
  }

  lemma {:induction false} SheetCallsOfDocumentEvents(docs: seq<DocAttempt>)
    ensures SheetCallsOf(DocumentEvents(docs)) == []
    decreases |docs|
  {
    if docs != [] {
      assert DocumentEvents(docs)[1..] == DocumentEvents(docs[1..]);
      SheetCallsOfDocumentEvents(docs[1..]);
    }
  }

  /** Appending sheet calls to inner events keeps them inner and adds
      exactly those calls. */
  lemma AppendSheetEvents(es: seq<Event>, calls: seq<SheetCall>)
    requires Inner(es)
    ensures Inner(es + SheetEvents(calls))
    ensures SheetCallsOf(es + SheetEvents(calls)) == SheetCallsOf(es) + calls
  {
    SheetCallsOfConcat(es, SheetEvents(calls));
    SheetCallsOfSheetEvents(calls);
  }

  /** Results are written only after both the review and the upload
      succeeded; a failure writes nothing there. */
  lemma SaveReviewWrites(w: World, job: Job, flow: Chat.FlowRun)
    ensures var t := SaveReview(w, job, flow);
      && SheetCallsOf(t.events) == (if t.outcome.Success? then ClosingWrites(w, job.rowIdx, t.outcome) else [])
      && Inner(t.events)
  {
    var t := SaveReview(w, job, flow);
    var reviewed := [ReviewRun(flow.steps)];
    assert SheetCallsOf(reviewed) == [];
    if flow.outcome.Success? {
      var graded := flow.outcome.value;
      var name := OutputFileName(job.clientName, job.clientId);
      var uploaded := reviewed + [UploadRequested(name, graded.text)];
      SheetCallsOfConcat(reviewed, [UploadRequested(name, graded.text)]);
      assert SheetCallsOf([UploadRequested(name, graded.text)]) == [];
      if w.upload(name, graded.text).Success? {
        assert t.events == uploaded + SheetEvents(ClosingWrites(w, job.rowIdx, t.outcome));
        AppendSheetEvents(uploaded, ClosingWrites(w, job.rowIdx, t.outcome));
      }
    }
  }

  /** The review of a job: none when no document was saved, else the
      grading flow over the saved files. */
  function Review(w: World, session: Option<Chat.Session>, pdfs: seq<string>, next: nat): (review: Option<Chat.FlowRun>)
    ensures review.None? <==> pdfs == []
    ensures review.Some? ==> review.value == Chat.ExecuteGradingFlow(session, w.docs, w.prompts, w.read, w.send, next, pdfs)
  {
    if pdfs == [] then None else Some(Chat.ExecuteGradingFlow(session, w.docs, w.prompts, w.read, w.send, next, pdfs))
  }

  /** A job's steps between its documents and its clean-up: without a
      review (no saved document), the fixed error and its status write;
      otherwise the review's outcome, the upload, and the error status when
      either failed. */
  function Middle(w: World, job: Job, review: Option<Chat.FlowRun>, next: nat): (t: Tail)
    ensures review.None? ==>
              && t.outcome == Failure(NoDocuments) && t.sends == next
              && forall k :: 0 <= k < |t.events| ==> t.events[k].SheetCallMade?
    ensures review.Some? ==>
              && |t.events| >= 1 && t.events[0] == ReviewRun(review.value.steps) && t.sends == review.value.sends
              && (review.value.outcome.Failure? ==> t.outcome == Failure(ReviewFailed(review.value.outcome.error)))
              && (review.value.outcome.Success? ==> t.outcome.Success? || t.outcome.error.UploadFailed?)
  {
    match review
    case None =>
      Tail(SheetEvents(ClosingWrites(w, job.rowIdx, Failure(NoDocuments))), next, Failure(NoDocuments))
    case Some(flow) =>
      var t := SaveReview(w, job, flow);
      if t.outcome.Success? then t
      else Tail(t.events + SheetEvents(ClosingWrites(w, job.rowIdx, t.outcome)), t.sends, t.outcome)
  }

  /** Whatever happens between documents and clean-up, the sheet hears
      exactly the closing writes for the outcome. */
  lemma MiddleWrites(w: World, job: Job, review: Option<Chat.FlowRun>, next: nat)
    ensures var t := Middle(w, job, review, next);
      SheetCallsOf(t.events) == ClosingWrites(w, job.rowIdx, t.outcome) && Inner(t.events)
  {
    var t := Middle(w, job, review, next);
    var closing := ClosingWrites(w, job.rowIdx, t.outcome);
    match review
    case None =>
      assert Inner(t.events);
      SheetCallsOfSheetEvents(closing);
    case Some(flow) =>
      var s := SaveReview(w, job, flow);
      SaveReviewWrites(w, job, flow);
      if s.outcome.Failure? {
        AppendSheetEvents(s.events, closing);
      }
  }

  /** The events of a job: the mark, the document fetches, the steps after
      them, the clean-up. */
  function Layout(mark: seq<SheetCall>, docs: seq<DocAttempt>, inner: seq<Event>, dir: string): seq<Event> {
    SheetEvents(mark) + DocumentEvents(docs) + inner + [TempDirRemoved(dir)]
  }

  lemma LayoutShape(mark: seq<SheetCall>, docs: seq<DocAttempt>, inner: seq<Event>, dir: string)
    requires |mark| == 1 && Inner(inner)
    ensures var es := Layout(mark, docs, inner, dir);
      && |es| == 2 + |docs| + |inner|
      && es[0] == SheetCallMade(mark[0])
      && (forall k :: 0 <= k < |docs| ==> es[1 + k] == DocumentFetched(docs[k]))
      && es[1 + |docs|..|es| - 1] == inner
      && es[|es| - 1] == TempDirRemoved(dir)
      && forall k :: 0 <= k < |es| - 1 ==> !es[k].TempDirRemoved?
  {
    var es := Layout(mark, docs, inner, dir);
    var head := SheetEvents(mark) + DocumentEvents(docs);
    assert es[1 + |docs|..|es| - 1] == inner;
    forall k | 0 <= k < |es| - 1
      ensures !es[k].TempDirRemoved?
    {
      if k >= |head| {
        assert es[k] == inner[k - |head|];
      }
    }
  }

  lemma LayoutCalls(mark: seq<SheetCall>, docs: seq<DocAttempt>, inner: seq<Event>, dir: string)
    ensures SheetCallsOf(Layout(mark, docs, inner, dir)) == mark + SheetCallsOf(inner)
  {
    var head := SheetEvents(mark) + DocumentEvents(docs);
    var cleanup := [TempDirRemoved(dir)];
    SheetCallsOfSheetEvents(mark);
    SheetCallsOfDocumentEvents(docs);
    SheetCallsOfConcat(SheetEvents(mark), DocumentEvents(docs));
    SheetCallsOfConcat(head, inner);
    assert SheetCallsOf(cleanup) == [];
    SheetCallsOfConcat(head + inner, cleanup);
  }

  /** A job's run: its events, the attempts and saved paths, the session's
      send counter before and after, and the saved review or the error. */
  datatype JobRun = JobRun(job: Job, events: seq<Event>, documents: seq<DocAttempt>, pdfs: seq<string>,
                           first: nat, sends: nat, outcome: Result<Saved, PipelineError>)

  /** The steps after the documents of `process_single_case`. */
  function JobMiddle(w: World, session: Option<Chat.Session>, job: Job, pdfs: seq<string>, next: nat): Tail {
    Middle(w, job, Review(w, session, pdfs, next), next)
  }

  /** `process_single_case` for `job`, sending from send number `next` on:
      the documents attempted are those of `Attempts`, the review sees the
      saved ones, and the outcome is that of the steps after them. */
  function ProcessSingleCase(w: World, session: Option<Chat.Session>, job: Job, next: nat): (r: JobRun)
    ensures r.job == job && r.first == next
    ensures r.documents == Attempts(w, w.tempDir(job.rowIdx), job.links) && r.pdfs == SavedPaths(r.documents)
    ensures r.outcome == JobMiddle(w, session, job, r.pdfs, next).outcome
    ensures r.sends == JobMiddle(w, session, job, r.pdfs, next).sends
    ensures SheetCallsOf(r.events) == MarkProcessingStart(job.rowIdx, w.startClock(job.rowIdx)) + ClosingWrites(w, job.rowIdx, r.outcome)
  {
    var row := job.rowIdx;
    var dir := w.tempDir(row);
    var docs := Attempts(w, dir, job.links);
    var pdfs := SavedPaths(docs);
    var m := JobMiddle(w, session, job, pdfs, next);
    MiddleWrites(w, job, Review(w, session, pdfs, next), next);
    LayoutCalls(MarkProcessingStart(row, w.startClock(row)), docs, m.events, dir);
    JobRun(job, Layout(MarkProcessingStart(row, w.startClock(row)), docs, m.events, dir),
           docs, pdfs, next, m.sends, m.outcome)
  }

  /** The order of a job's events: the mark first, then one fetch per
      attempted document in role order, then the steps after the documents,
      and the removal of the temporary directory last and only there. */
  lemma JobEvents(w: World, session: Option<Chat.Session>, job: Job, next: nat)
    ensures var r := ProcessSingleCase(w, session, job, next);
      var m := JobMiddle(w, session, job, r.pdfs, next);
      && |r.events| == 2 + |r.documents| + |m.events|
      && r.events[0] == SheetCallMade(MarkProcessingStart(job.rowIdx, w.startClock(job.rowIdx))[0])
      && (forall k :: 0 <= k < |r.documents| ==> r.events[1 + k] == DocumentFetched(r.documents[k]))
      && r.events[1 + |r.documents|..|r.events| - 1] == m.events
      && r.events[|r.events| - 1] == TempDirRemoved(w.tempDir(job.rowIdx))
      && forall k :: 0 <= k < |r.events| - 1 ==> !r.events[k].TempDirRemoved?
  {
    var r := ProcessSingleCase(w, session, job, next);
    MiddleWrites(w, job, Review(w, session, r.pdfs, next), next);
    LayoutShape(MarkProcessingStart(job.rowIdx, w.startClock(job.rowIdx)), r.documents,
                JobMiddle(w, session, job, r.pdfs, next).events, w.tempDir(job.rowIdx));
  }

  /** With no saved document the model is never asked and nothing is
      uploaded: the job fails with the fixed message, and the session's
      send counter does not move. */
  lemma NoDocumentsNoReview(w: World, session: Option<Chat.Session>, job: Job, next: nat)
    ensures var r := ProcessSingleCase(w, session, job, next);
      r.pdfs == [] ==>
        && r.outcome == Failure(NoDocuments) && r.sends == next
        && forall k :: 0 <= k < |r.events| ==> !r.events[k].ReviewRun? && !r.events[k].UploadRequested?
  {
    var r := ProcessSingleCase(w, session, job, next);
    if r.pdfs == [] {
      var m := JobMiddle(w, session, job, r.pdfs, next);
      NoReviewInLayout(MarkProcessingStart(job.rowIdx, w.startClock(job.rowIdx)), r.documents, m.events, w.tempDir(job.rowIdx));
    }
  }

  /** When the files hold what the downloads wrote, the first step of the
      review over the saved paths attaches exactly the downloaded PDFs, in
      attempt order, after the prompt. */
  lemma ReviewAttaches(w: World, session: Option<Chat.Session>, docs: seq<DocAttempt>, next: nat)
    requires Written(docs) && ReadsDownloads(w.read, docs) && SavedPaths(docs) != []
    ensures var flow := Review(w, session, SavedPaths(docs), next).value;
      var bytes := SavedBytes(docs);
      |flow.steps| > 0 ==>
        && |flow.steps[0].message| == 1 + |bytes|
        && forall m :: 0 <= m < |bytes| ==> flow.steps[0].message[1 + m] == Chat.PdfData(bytes[m])
  {
    ReadSavedPaths(w.read, docs);
    Chat.FlowMessages(session, w.docs, w.prompts, w.read, w.send, next, SavedPaths(docs));
  }

  /** The same for a job: once its files hold what its downloads wrote, its
      review's first step attaches those downloads. */
  lemma ReviewAttachesDownloads(w: World, session: Option<Chat.Session>, job: Job, next: nat)
    ensures var r := ProcessSingleCase(w, session, job, next);
      Written(r.documents) && ReadsDownloads(w.read, r.documents) && r.pdfs != [] ==>
        var flow := Review(w, session, r.pdfs, next).value;
        var bytes := SavedBytes(r.documents);
        |flow.steps| > 0 ==>
          && |flow.steps[0].message| == 1 + |bytes|
          && forall m :: 0 <= m < |bytes| ==> flow.steps[0].message[1 + m] == Chat.PdfData(bytes[m])
  {
    var r := ProcessSingleCase(w, session, job, next);
    if Written(r.documents) && ReadsDownloads(w.read, r.documents) && r.pdfs != [] {
      ReviewAttaches(w, session, r.documents, next);
    }
  }

  lemma NoReviewInLayout(mark: seq<SheetCall>, docs: seq<DocAttempt>, inner: seq<Event>, dir: string)
    requires forall k :: 0 <= k < |inner| ==> inner[k].SheetCallMade?
    ensures var es := Layout(mark, docs, inner, dir);
      forall k :: 0 <= k < |es| ==> !es[k].ReviewRun? && !es[k].UploadRequested?
  {
    var es := Layout(mark, docs, inner, dir);
    var head := SheetEvents(mark) + DocumentEvents(docs);
    forall k | 0 <= k < |es|
      ensures !es[k].ReviewRun? && !es[k].UploadRequested?
    {
      if |head| <= k < |head| + |inner| {
        assert es[k] == inner[k - |head|];
      }
    }
  }

  // ---------------------------------------------------------------------------
  // What a job leaves in its row
  // ---------------------------------------------------------------------------

  /** A status that ends a job: neither pending nor in progress. */
  predicate IsTerminalStatus(s: string) {
    s == STATUS_COMPLETED || s == STATUS_SAVE_FAILED || StartsWith(s, ERROR_PREFIX)
  }

  /** A terminal status is not picked up as pending, even after stripping,
      and is not the in-progress marker. */
  lemma TerminalNotPending(s: string)
    requires IsTerminalStatus(s)
    ensures Strip(s) != STATUS_PENDING && s != STATUS_PROCESSING
  {
    if s == STATUS_COMPLETED {
      StripTrimmed(STATUS_COMPLETED);
    } else if s == STATUS_SAVE_FAILED {
      StripTrimmed(STATUS_SAVE_FAILED);
    } else {
      StripSlice(s);
      assert !IsSpace(s[0]);
    }
  }

  lemma ClosingStatusTerminal(w: World, row: nat, outcome: Result<Saved, PipelineError>)
    ensures IsTerminalStatus(ClosingStatus(w, row, outcome))
  {
  }

  /** What a job's sheet calls leave in the sheet: its row's status is the
      closing status, a terminal one; no other row changes; after a stored
      result the row holds the link, the token counts and the end time, and,
      as written, the end time again in place of the start and a zero-length
      duration; otherwise the start time of the mark stays. */
  lemma JobSheetEffect(sheet: Sheet, w: World, session: Option<Chat.Session>, job: Job, next: nat)
    requires job.rowIdx >= 1
    ensures var r := ProcessSingleCase(w, session, job, next);
      var row := job.rowIdx;
      var after := ApplyAll(sheet, SheetCallsOf(r.events));
      && Get(after, row, COL_STATUS) == Str(ClosingStatus(w, row, r.outcome))
      && IsTerminalStatus(ClosingStatus(w, row, r.outcome))
      && (forall i, j :: i != row ==> Get(after, i, j) == Get(sheet, i, j))
      && (!(r.outcome.Success? && w.stored(row)) ==> Get(after, row, COL_START_TIME) == Stamp(w.startClock(row)))
      && (r.outcome.Success? && w.stored(row) ==>
            && Get(after, row, COL_GRADING_LINK) == LinkCell(r.outcome.value.link)
            && Get(after, row, COL_TOKENS_IN) == Int(r.outcome.value.graded.tokensIn)
            && Get(after, row, COL_TOKENS_OUT) == Int(r.outcome.value.graded.tokensOut)
            && Get(after, row, COL_END_TIME) == Stamp(w.endClock(row))
            && Get(after, row, COL_START_TIME) == Stamp(w.endClock(row))
            && Get(after, row, COL_DURATION) == Minutes(w.endClock(row), w.endClock(row)))
  {
    var r := ProcessSingleCase(w, session, job, next);
    var row := job.rowIdx;
    var mark := MarkProcessingStart(row, w.startClock(row));
    var closing := ClosingWrites(w, row, r.outcome);
    ApplyAllConcat(sheet, mark, closing);
    var marked := ApplyAll(sheet, mark);
    MarkProcessingStartEffect(sheet, row, w.startClock(row));
    ClosingWritesEffect(marked, w, row, r.outcome);
  }

  /** The closing writes on a sheet: the status, and after a stored result
      the result block of the record as written; otherwise the start time
      stays as marked. */
  lemma ClosingWritesEffect(sheet: Sheet, w: World, row: nat, outcome: Result<Saved, PipelineError>)
    requires row >= 1
    ensures var after := ApplyAll(sheet, ClosingWrites(w, row, outcome));
      && Get(after, row, COL_STATUS) == Str(ClosingStatus(w, row, outcome))
      && (forall i, j :: i != row ==> Get(after, i, j) == Get(sheet, i, j))
      && (!(outcome.Success? && w.stored(row)) ==>
            forall c :: COL_GRADING_LINK <= c <= COL_DURATION ==> Get(after, row, c) == Get(sheet, row, c))
      && (forall j :: j != COL_STATUS && !(COL_GRADING_LINK <= j <= COL_DURATION) ==> Get(after, row, j) == Get(sheet, row, j))
      && (outcome.Success? && w.stored(row) ==>
            forall c :: COL_GRADING_LINK <= c <= COL_DURATION ==>
              Get(after, row, c) == ResultValues(ResultDataAsWritten(outcome.value.link, outcome.value.graded), w.endClock(row))[c - COL_GRADING_LINK])
  {
    match outcome
    case Success(saved) =>
      WriteGradingResultsEffect(sheet, row, ResultDataAsWritten(saved.link, saved.graded), w.endClock(row), w.stored(row));
    case Failure(e) =>
      UpdateStatusEffect(sheet, row, ErrorStatus(ErrorMessage(w, e)));
  }

  // ---------------------------------------------------------------------------
  // The start time of the result write-back
  // ---------------------------------------------------------------------------

  /** The result fields as `process_single_case` writes them carry no start
      time, so the write-back stamps column P with the end time, overwriting
      the start the mark recorded, and measures the duration from the end
      time to itself. */
  lemma StartTimeLostAsWritten(sheet: Sheet, row: nat, start: string, end: string,
                               link: Option<string>, graded: Chat.Graded)
    requires row >= 1
    ensures var after := ApplyAll(sheet, MarkProcessingStart(row, start)
                                         + WriteGradingResults(row, ResultDataAsWritten(link, graded), end, true));
      && Get(after, row, COL_START_TIME) == Stamp(end)
      && Get(after, row, COL_DURATION) == Minutes(end, end)
      && (start != end ==> Get(after, row, COL_START_TIME) != Stamp(start))
  {
    var mark := MarkProcessingStart(row, start);
    ApplyAllConcat(sheet, mark, WriteGradingResults(row, ResultDataAsWritten(link, graded), end, true));
    WriteGradingResultsEffect(ApplyAll(sheet, mark), row, ResultDataAsWritten(link, graded), end, true);
  }

  /** With the start time of the mark passed along, column P keeps the start
      and the duration runs from the start to the end. */
  lemma StartTimeKept(sheet: Sheet, row: nat, start: string, end: string,
                      link: Option<string>, graded: Chat.Graded)
    requires row >= 1
    ensures var after := ApplyAll(sheet, MarkProcessingStart(row, start)
                                         + WriteGradingResults(row, ResultDataFor(link, graded, start), end, true));
      && Get(after, row, COL_START_TIME) == Stamp(start)
      && Get(after, row, COL_DURATION) == Minutes(start, end)
  {
    var mark := MarkProcessingStart(row, start);
    ApplyAllConcat(sheet, mark, WriteGradingResults(row, ResultDataFor(link, graded, start), end, true));
    WriteGradingResultsEffect(ApplyAll(sheet, mark), row, ResultDataFor(link, graded, start), end, true);
  }

  // ---------------------------------------------------------------------------
  // The job loop and the run
  // ---------------------------------------------------------------------------

  /** One job of the loop: `process_single_case` on the session, from a
      given send number. */
  function JobStep(w: World, session: Option<Chat.Session>): (Job, nat) -> JobRun {
    (job: Job, next: nat) => ProcessSingleCase(w, session, job, next)
  }

  /** Jobs run one after another by `step`, each from the send number the
      previous one stopped at. */
  function Thread(step: (Job, nat) -> JobRun, jobs: seq<Job>, next: nat): (runs: seq<JobRun>)
    ensures |runs| == |jobs|
    decreases |jobs|
  {
    if jobs == [] then []
    else
      var r := step(jobs[0], next);
      [r] + Thread(step, jobs[1..], r.sends)
  }

  /** The send number run `k` starts from: `next` for the first, else where
      run `k - 1` stopped. */
  function StartOf(runs: seq<JobRun>, k: nat, next: nat): nat
    requires k <= |runs|
  {
    if k == 0 then next else runs[k - 1].sends
  }

  /** Run `k` is `step` of job `k`, started where run `k - 1` stopped. */
  predicate ThreadedBy(step: (Job, nat) -> JobRun, jobs: seq<Job>, next: nat, runs: seq<JobRun>) {
    && |runs| == |jobs|
    && (forall k :: 0 <= k < |runs| ==> runs[k] == step(jobs[k], StartOf(runs, k, next)))
  }

  lemma {:induction false} ThreadThreaded(step: (Job, nat) -> JobRun, jobs: seq<Job>, next: nat)
    ensures ThreadedBy(step, jobs, next, Thread(step, jobs, next))
    decreases |jobs|
  {
    if jobs != [] {
      var runs := Thread(step, jobs, next);
      var r := step(jobs[0], next);
      var rest := Thread(step, jobs[1..], r.sends);
      ThreadThreaded(step, jobs[1..], r.sends);
      assert runs == [r] + rest;
      forall k | 1 < k < |runs|
        ensures runs[k] == step(jobs[k], StartOf(runs, k, next))
      {
        assert runs[k] == rest[k - 1] && runs[k - 1] == rest[k - 2] && jobs[k] == jobs[1..][k - 1];
        assert StartOf(rest, k - 1, r.sends) == StartOf(runs, k, next);
      }
    }
  }

  /** The loop of `run` over the pending jobs, in scan order; each job
      continues the session's send counter where the previous one left it. */
  function ProcessJobs(w: World, session: Option<Chat.Session>, jobs: seq<Job>, next: nat): (runs: seq<JobRun>)
    ensures ThreadedBy(JobStep(w, session), jobs, next, runs)
  {
    ThreadThreaded(JobStep(w, session), jobs, next);
    Thread(JobStep(w, session), jobs, next)
  }

  /** The sheet calls of a sequence of job runs, in order. */
  function RunSheetCalls(runs: seq<JobRun>): seq<SheetCall> {
    if runs == [] then [] else SheetCallsOf(runs[0].events) + RunSheetCalls(runs[1..])
  }

  /** `after` differs from `before` in row `row` only, and that row's status
      reads `status`. */
  ghost predicate ClosesRow(before: Sheet, after: Sheet, row: nat, status: string) {
    && Get(after, row, COL_STATUS) == Str(status)
    && forall i: nat, j: int :: i != row ==> Get(after, i, j) == Get(before, i, j)
  }

  /** From any sheet, the calls of run `k` close job `k`'s row with its
      closing status. */
  ghost predicate AllClose(w: World, jobs: seq<Job>, runs: seq<JobRun>)
    requires |runs| == |jobs|
  {
    forall k, sh: Sheet :: 0 <= k < |runs| ==>
      ClosesRow(sh, ApplyAll(sh, SheetCallsOf(runs[k].events)), jobs[k].rowIdx, ClosingStatus(w, jobs[k].rowIdx, runs[k].outcome))
  }

  /** Runs that each close their own job's row, on rows in ascending order,
      close all those rows and leave every other row alone. */
  lemma {:induction false} ClosesRows(sheet: Sheet, w: World, jobs: seq<Job>, runs: seq<JobRun>)
    requires JobsAscending(jobs) && |runs| == |jobs|
    requires AllClose(w, jobs, runs)
    ensures var after := ApplyAll(sheet, RunSheetCalls(runs));
      && (forall k :: 0 <= k < |jobs| ==>
            Get(after, jobs[k].rowIdx, COL_STATUS) == Str(ClosingStatus(w, jobs[k].rowIdx, runs[k].outcome)))
      && forall i: nat, j: int :: !HasJobFor(jobs, i) ==> Get(after, i, j) == Get(sheet, i, j)
    decreases |runs|
  {
    if runs != [] {
      var calls := SheetCallsOf(runs[0].events);
      var mid := ApplyAll(sheet, calls);
      var after := ApplyAll(sheet, RunSheetCalls(runs));
      assert ClosesRow(sheet, mid, jobs[0].rowIdx, ClosingStatus(w, jobs[0].rowIdx, runs[0].outcome));
      assert AllClose(w, jobs[1..], runs[1..]) by {
        forall k, sh: Sheet | 0 <= k < |runs[1..]|
          ensures ClosesRow(sh, ApplyAll(sh, SheetCallsOf(runs[1..][k].events)), jobs[1..][k].rowIdx,
                            ClosingStatus(w, jobs[1..][k].rowIdx, runs[1..][k].outcome))
        {
          assert runs[1..][k] == runs[k + 1] && jobs[1..][k] == jobs[k + 1];
        }
      }
      ClosesRows(mid, w, jobs[1..], runs[1..]);
      ApplyAllConcat(sheet, calls, RunSheetCalls(runs[1..]));
      assert !HasJobFor(jobs[1..], jobs[0].rowIdx);
      forall k | 0 < k < |jobs|
        ensures Get(after, jobs[k].rowIdx, COL_STATUS) == Str(ClosingStatus(w, jobs[k].rowIdx, runs[k].outcome))
      {
        assert jobs[1..][k - 1] == jobs[k] && runs[1..][k - 1] == runs[k];
      }
      assert forall i: nat, j: int :: !HasJobFor(jobs, i) ==> Get(after, i, j) == Get(sheet, i, j);
    }
  }

  /** A job's calls close its row, from any sheet. */
  lemma JobClosesRow(sheet: Sheet, w: World, session: Option<Chat.Session>, job: Job, next: nat)
    requires job.rowIdx >= 1
    ensures var r := ProcessSingleCase(w, session, job, next);
      ClosesRow(sheet, ApplyAll(sheet, SheetCallsOf(r.events)), job.rowIdx, ClosingStatus(w, job.rowIdx, r.outcome))
  {
    JobSheetEffect(sheet, w, session, job, next);
  }

  lemma ThreadedRunsClose(w: World, session: Option<Chat.Session>, jobs: seq<Job>, next: nat, runs: seq<JobRun>)
    requires forall k :: 0 <= k < |jobs| ==> jobs[k].rowIdx >= 1
    requires ThreadedBy(JobStep(w, session), jobs, next, runs)
    ensures AllClose(w, jobs, runs)
  {
    assert forall k :: 0 <= k < |runs| ==> runs[k] == ProcessSingleCase(w, session, jobs[k], StartOf(runs, k, next));
    forall k, sh: Sheet | 0 <= k < |runs|
      ensures ClosesRow(sh, ApplyAll(sh, SheetCallsOf(runs[k].events)), jobs[k].rowIdx, ClosingStatus(w, jobs[k].rowIdx, runs[k].outcome))
    {
      JobClosesRow(sh, w, session, jobs[k], StartOf(runs, k, next));
    }
  }

  /** Over jobs on rows in ascending order, each job's row ends with that
      job's closing status, and rows without a job are left as they were. */
  lemma ProcessJobsEffect(sheet: Sheet, w: World, session: Option<Chat.Session>, jobs: seq<Job>, next: nat)
    requires forall k :: 0 <= k < |jobs| ==> jobs[k].rowIdx >= 1
    requires JobsAscending(jobs)
    ensures var runs := ProcessJobs(w, session, jobs, next);
      var after := ApplyAll(sheet, RunSheetCalls(runs));
      && (forall k :: 0 <= k < |jobs| ==>
            Get(after, jobs[k].rowIdx, COL_STATUS) == Str(ClosingStatus(w, jobs[k].rowIdx, runs[k].outcome)))
      && forall i: nat, j: int :: !HasJobFor(jobs, i) ==> Get(after, i, j) == Get(sheet, i, j)
  {
    var runs := ProcessJobs(w, session, jobs, next);
    ThreadedRunsClose(w, session, jobs, next, runs);
    ClosesRows(sheet, w, jobs, runs);
  }

  /** What `run` is evaluated against besides the per-job world: the
      reference directory and the cache backend, the model start, and the
      worksheet as read (`None` when reading it raised) with the text its
      cells display. */
  datatype Setup = Setup(
    referenceDir: string,
    listing: Cache.Directory,
    create: Cache.CacheRequest -> Result<string, string>,
    start: Chat.ModelSource -> Option<string>,
    sheet: Option<Sheet>,
    display: CellValue -> string)

  /** How `run` ended: stopped because the cache could not be built or the
      session not started, aborted because the pending rows could not be
      read, or finished with the scan and one run per pending job. */
  datatype RunResult =
    | CacheFailed(cache: Cache.CacheRun)
    | SessionFailed(cache: Cache.CacheRun, error: Chat.ChatError)
    | ScanFailed(cache: Cache.CacheRun, session: Chat.Session)
    | Finished(cache: Cache.CacheRun, session: Chat.Session, scan: Scan, runs: seq<JobRun>)

  /** `run`: the reference cache, the session over it, the scan for pending
      rows, and every pending job in turn on the fresh session. */
  function Run(w: World, s: Setup): (r: RunResult)
    ensures Cache.EnsureFundamentosCache(s.referenceDir, s.listing, s.create).outcome.Failure? ==>
              r == CacheFailed(Cache.EnsureFundamentosCache(s.referenceDir, s.listing, s.create))
    ensures !r.CacheFailed? ==> r.cache == Cache.EnsureFundamentosCache(s.referenceDir, s.listing, s.create)
                                && r.cache.outcome.Success?
    ensures (r.ScanFailed? || r.Finished?) ==> r.session.source == Chat.FromCache(r.cache.outcome.value)
    ensures r.SessionFailed? ==>
              Chat.InitializeSession(w.docs, w.prompts, Some(r.cache.outcome.value), s.start) == Failure(r.error)
    // Once the session is up, the run aborts exactly when the sheet could not be read.
    ensures (r.ScanFailed? || r.Finished?) ==> (r.ScanFailed? <==> s.sheet.None?)
    ensures r.Finished? ==>
              && s.sheet.Some? && r.scan == PendingRows(Shown(s.display, s.sheet.value))
              && r.runs == ProcessJobs(w, Some(r.session), r.scan.jobs, 0)
  {
    var cache := Cache.EnsureFundamentosCache(s.referenceDir, s.listing, s.create);
    match cache.outcome
    case Failure(_) => CacheFailed(cache)
    case Success(handle) =>
      match Chat.InitializeSession(w.docs, w.prompts, Some(handle), s.start)
      case Failure(e) => SessionFailed(cache, e)
      case Success(session) =>
        match s.sheet
        case None => ScanFailed(cache, session)
        case Some(sheet) =>
          var scan := PendingRows(Shown(s.display, sheet));
          Finished(cache, session, scan, ProcessJobs(w, Some(session), scan.jobs, 0))
  }

  /** The sheet calls of a finished run: the scan's status writes, then each
      job's calls in turn. */
  function RunCalls(r: RunResult): seq<SheetCall>
    requires r.Finished?
  {
    r.scan.writes + RunSheetCalls(r.runs)
  }

  /** After the job loop every job's row holds a terminal status, which a
      later scan does not pick up as pending. */
  lemma ProcessJobsSettle(sheet: Sheet, w: World, session: Option<Chat.Session>, jobs: seq<Job>, next: nat)
    requires forall k :: 0 <= k < |jobs| ==> jobs[k].rowIdx >= 1
    requires JobsAscending(jobs)
    ensures var after := ApplyAll(sheet, RunSheetCalls(ProcessJobs(w, session, jobs, next)));
      forall k :: 0 <= k < |jobs| ==>
        var status := Get(after, jobs[k].rowIdx, COL_STATUS);
        status.Str? && IsTerminalStatus(status.text) && Strip(status.text) != STATUS_PENDING
  {
    var runs := ProcessJobs(w, session, jobs, next);
    ProcessJobsEffect(sheet, w, session, jobs, next);
    forall k | 0 <= k < |jobs|
      ensures IsTerminalStatus(ClosingStatus(w, jobs[k].rowIdx, runs[k].outcome))
      ensures Strip(ClosingStatus(w, jobs[k].rowIdx, runs[k].outcome)) != STATUS_PENDING
    {
      ClosingStatusTerminal(w, jobs[k].rowIdx, runs[k].outcome);
      TerminalNotPending(ClosingStatus(w, jobs[k].rowIdx, runs[k].outcome));
    }
  }

  /** After a finished run every job's row holds a terminal status, which a
      later scan does not pick up as pending. */
  lemma RunSettlesJobs(w: World, s: Setup)
    ensures var r := Run(w, s);
      r.Finished? ==>
        var after := ApplyAll(s.sheet.value, RunCalls(r));
        forall k :: 0 <= k < |r.scan.jobs| ==>
          var status := Get(after, r.scan.jobs[k].rowIdx, COL_STATUS);
          status.Str? && IsTerminalStatus(status.text) && Strip(status.text) != STATUS_PENDING
  {
    var r := Run(w, s);
    if r.Finished? {
      ApplyAllConcat(s.sheet.value, r.scan.writes, RunSheetCalls(r.runs));
      ProcessJobsSettle(ApplyAll(s.sheet.value, r.scan.writes), w, Some(r.session), r.scan.jobs, 0);
    }
  }
}
