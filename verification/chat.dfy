/** The review conversation with the model (`ChatService`): session start,
    the fixed six-step review protocol, and the hand-written retry loop around
    each send. Prompt documents, local files and the model's replies are
    pre-decided outcomes; sleeps are recorded, not taken. */
module Chat {
  import opened Wrappers
  import opened Text
  import DriveTools
  import Normalizer

  // ---------------------------------------------------------------------------
  // Configuration
  // ---------------------------------------------------------------------------

  /** The locators of the documents the service reads: the system
      instruction and the six review prompts. */
  datatype PromptDocs = PromptDocs(systemInstructions: string, qualifying: string, gfm: string,
                                   jointResidence: string, gmcPermanentBar: string, abuse: string,
                                   auditoria: string)

  /** The locators as configured. */
  const CONFIGURED_DOCS: PromptDocs := PromptDocs(
    "https://docs.google.com/document/d/1QsCOdhuV0N-gbujvloZFBKmMKlPRpHc4LNRY8qCMb18/edit?usp=sharing",
    "https://docs.google.com/document/d/1hN5A0vZukBqMln85fAT6PkU9lKXY8qcAKyhl-d3mJUA/edit?usp=sharing",
    "https://docs.google.com/document/d/1aptWDOCU77CKOyphOkz1pqqSw-WLLUSfBFtSjnYk3SI/edit?usp=sharing",
    "https://docs.google.com/document/d/1ujizq9fY_M6m2TFHVSONVBM8zwqqbR_xk6dmR6mX544/edit?usp=sharing",
    "https://docs.google.com/document/d/1h7ladm7IK4A40B7CHAxaZ8QkVcFViQe9pSqeYwxusIE/edit?usp=sharing",
    "https://docs.google.com/document/d/1M8GpNZLy0Kmy5umA48nHNA_RjZtJb3wqpSJTmXCLgoA/edit?usp=sharing",
    "https://docs.google.com/document/d/1HHH7wq1XSbWdJgU9M3rvfinzBi7SjirWS77mBloOJhw/edit?usp=sharing")

  /** The model used when no cache is given. */
  const STANDARD_MODEL: string := "gemini-2.5-flash"

  /** The default attempt budget of the retry loop. */
  const RETRIES: nat := 3

  /** The pause after each completed review step, in seconds. */
  const STEP_PAUSE: nat := 1

  // ---------------------------------------------------------------------------
  // Documents fetched as text
  // ---------------------------------------------------------------------------

  /** Export of a Drive document as UTF-8 text, keyed by the id extracted
      from its locator (`None` when no id could be extracted). `None` as the
      result is any failure: export refused, or bytes that do not decode. */
  type TextExport = Option<string> -> Option<string>

  datatype ChatError =
    | NotInitialized                    // ValueError before any send
    | DocumentUnavailable(locator: string)
    | AttachmentUnreadable(path: string)
    | SendError(reason: string)
    | SessionFailed(reason: string)

  /** `_fetch_doc_text`: the text of the document a locator points to. */
  function FetchDocText(exportText: TextExport, locator: string): (r: Result<string, ChatError>)
    ensures r.Success? <==> exportText(DriveTools.IdFromUrl(locator)).Some?
    ensures r.Success? ==> r.value == exportText(DriveTools.IdFromUrl(locator)).value
    ensures r.Failure? ==> r.error == DocumentUnavailable(locator)
  {
    match exportText(DriveTools.IdFromUrl(locator))
    case Some(text) => Success(text)
    case None => Failure(DocumentUnavailable(locator))
  }

  // ---------------------------------------------------------------------------
  // Session start
  // ---------------------------------------------------------------------------

  /** Where the model comes from: a context cache, or the standard model with
      the fetched system instruction. */
  datatype ModelSource = FromCache(cache: string) | Standard(model: string, systemInstruction: string)

  datatype Session = Session(source: ModelSource)

  /** The model to start: the cache when one is given, else the standard model
      with the system instruction. */
  function SourceFor(cache: Option<string>, instruction: string): (source: ModelSource)
    ensures cache.Some? <==> source.FromCache?
    ensures cache.Some? ==> source.cache == cache.value
    ensures cache.None? ==> source.model == STANDARD_MODEL && source.systemInstruction == instruction
  {
    if cache.Some? then FromCache(cache.value) else Standard(STANDARD_MODEL, instruction)
  }

  /** `initialize_session`. The system instruction is fetched first in both
      branches (and its failure aborts the start even when a cache is given);
      `start` is the backend's answer to building the model and opening the
      chat (`None` on success, else the error). */
  function InitializeSession(docs: PromptDocs, exportText: TextExport, cache: Option<string>,
                             start: ModelSource -> Option<string>): (r: Result<Session, ChatError>)
    ensures exportText(DriveTools.IdFromUrl(docs.systemInstructions)).None? ==>
              r == Failure(DocumentUnavailable(docs.systemInstructions))
    ensures var instruction := exportText(DriveTools.IdFromUrl(docs.systemInstructions));
            instruction.Some? ==>
              && (r.Success? <==> start(SourceFor(cache, instruction.value)).None?)
              && (start(SourceFor(cache, instruction.value)).Some? ==>
                    r == Failure(SessionFailed(start(SourceFor(cache, instruction.value)).value)))
    ensures r.Success? ==> exportText(DriveTools.IdFromUrl(docs.systemInstructions)).Some? && start(r.value.source).None?
    ensures r.Success? && cache.Some? ==> r.value.source == FromCache(cache.value)
    ensures r.Success? && cache.None? ==>
              r.value.source == Standard(STANDARD_MODEL, exportText(DriveTools.IdFromUrl(docs.systemInstructions)).value)
  {
    var instruction :- FetchDocText(exportText, docs.systemInstructions);
    var source := SourceFor(cache, instruction);
    match start(source)
    case None => Success(Session(source))
    case Some(e) => Failure(SessionFailed(e))
  }

  // ---------------------------------------------------------------------------
  // Sending with retries
  // ---------------------------------------------------------------------------

  /** The model's reply: its text and the usage counts it reports. */
  datatype Reply = Reply(text: string, promptTokens: int, candidateTokens: int)

  datatype SendOutcome = Delivered(reply: Reply) | Refused(reason: string)

  /** The outcome of the `n`-th send of the session (counting from 0, across
      all steps and retries). */
  type Backend = nat -> SendOutcome

  /** One attempt and the pause taken after it, if any. */
  datatype Try = Try(outcome: SendOutcome, pause: Option<nat>)

  /** The attempts made, and the reply (`None` when the budget was zero) or
      the error of the last failed attempt. */
  datatype RetryRun = RetryRun(tries: seq<Try>, outcome: Result<Option<Reply>, ChatError>)

  function Pow2(n: nat): nat {
    if n == 0 then 1 else 2 * Pow2(n - 1)
  }

  /** Attempts `i..retries-1` of the loop, the first of them being send number
      `next`. */
  function RetryFrom(send: Backend, next: nat, i: nat, retries: nat): (r: RetryRun)
    ensures |r.tries| <= retries - i || (i >= retries && r.tries == [])
    ensures forall j :: 0 <= j < |r.tries| ==> r.tries[j].outcome == send(next + j)
    ensures forall j :: 0 <= j < |r.tries| ==>
              r.tries[j].pause == if j < |r.tries| - 1 then Some(Pow2(i + j)) else None
    ensures forall j :: 0 <= j < |r.tries| - 1 ==> r.tries[j].outcome.Refused?
    decreases retries - i
  {
    if i >= retries then RetryRun([], Success(None))
    else
      match send(next)
      case Delivered(reply) => RetryRun([Try(Delivered(reply), None)], Success(Some(reply)))
      case Refused(e) =>
        if i == retries - 1 then RetryRun([Try(Refused(e), None)], Failure(SendError(e)))
        else
          var rest := RetryFrom(send, next + 1, i + 1, retries);
          var r := RetryRun([Try(Refused(e), Some(Pow2(i)))] + rest.tries, rest.outcome);
          assert forall j :: 1 <= j < |r.tries| ==> r.tries[j] == rest.tries[j - 1];
          r
  }

  /** `_send_message_with_retry`: at most `retries` attempts; the first
      delivered reply is returned; after failed attempt `j` that is not the
      last one the loop sleeps `2^j` seconds; the last failure is raised.
      With a zero budget nothing is sent and nothing is returned. */
  function SendWithRetry(send: Backend, next: nat, retries: nat): (r: RetryRun)
    ensures |r.tries| <= retries
    ensures retries == 0 <==> r.tries == []
    ensures forall j :: 0 <= j < |r.tries| ==> r.tries[j].outcome == send(next + j)
    ensures forall j :: 0 <= j < |r.tries| - 1 ==> r.tries[j].outcome.Refused? && r.tries[j].pause == Some(Pow2(j))
    ensures r.tries != [] ==> r.tries[|r.tries| - 1].pause == None
    ensures r.outcome == Success(None) <==> retries == 0
    ensures r.outcome.Success? && r.outcome.value.Some? ==>
              r.tries[|r.tries| - 1].outcome == Delivered(r.outcome.value.value)
    ensures r.outcome.Failure? ==>
              r.outcome.error.SendError? && |r.tries| == retries
              && r.tries[retries - 1].outcome == Refused(r.outcome.error.reason)
  {
    RetryLemma(send, next, 0, retries);
    RetryFrom(send, next, 0, retries)
  }

  /** The outcome of the loop from attempt `i` on: a reply exactly when the
      attempts end with a delivery, the last refusal when the budget is used
      up. */
  lemma {:induction false} RetryLemma(send: Backend, next: nat, i: nat, retries: nat)
    ensures var r := RetryFrom(send, next, i, retries);
      && (i >= retries <==> r.tries == [])
      && (r.outcome == Success(None) <==> i >= retries)
      && (r.outcome.Success? && r.outcome.value.Some? ==>
            r.tries != [] && r.tries[|r.tries| - 1].outcome == Delivered(r.outcome.value.value))
      && (r.outcome.Failure? ==>
            i < retries && |r.tries| == retries - i && r.outcome.error.SendError?
            && r.tries[|r.tries| - 1].outcome == Refused(r.outcome.error.reason))
    decreases retries - i
  {
    if i < retries && send(next).Refused? && i != retries - 1 {
      RetryLemma(send, next + 1, i + 1, retries);
    }
  }

  /** Sends `next..next+d-1` are all refused. */
  predicate RefusedFrom(send: Backend, next: nat, d: nat) {
    forall n: nat :: next <= n < next + d ==> send(n).Refused?
  }

  /** The loop sends until the first delivery: when one of the first
      `retries` sends is delivered, the loop returns the reply of the first
      such send, after exactly that many attempts. */
  lemma RetryFindsFirstDelivery(send: Backend, next: nat, retries: nat, d: nat)
    requires d < retries && send(next + d).Delivered? && RefusedFrom(send, next, d)
    ensures SendWithRetry(send, next, retries).outcome == Success(Some(send(next + d).reply))
    ensures |SendWithRetry(send, next, retries).tries| == d + 1
  {
    RetryFindsFirstDeliveryFrom(send, next, 0, retries, d);
  }

  lemma {:induction false} RetryFindsFirstDeliveryFrom(send: Backend, next: nat, i: nat, retries: nat, d: nat)
    requires i + d < retries && send(next + d).Delivered? && RefusedFrom(send, next, d)
    ensures RetryFrom(send, next, i, retries).outcome == Success(Some(send(next + d).reply))
    ensures |RetryFrom(send, next, i, retries).tries| == d + 1
    decreases d
  {
    if d > 0 {
      assert send(next).Refused?;
      assert (next + 1) + (d - 1) == next + d;
      RetryFindsFirstDeliveryFrom(send, next + 1, i + 1, retries, d - 1);
    }
  }

  /** When every send in the budget is refused, the loop makes exactly
      `retries` attempts and raises the last refusal. */
  lemma {:induction false} RetryAllRefused(send: Backend, next: nat, i: nat, retries: nat)
    requires i < retries && RefusedFrom(send, next, retries - i)
    ensures |RetryFrom(send, next, i, retries).tries| == retries - i
    ensures RetryFrom(send, next, i, retries).outcome == Failure(SendError(send(next + retries - i - 1).reason))
    decreases retries - i
  {
    assert send(next).Refused?;
    if i != retries - 1 {
      RetryAllRefused(send, next + 1, i + 1, retries);
    }
  }

  /** With the default budget and every send refused: three attempts, sleeps
      of one and two seconds, and the third refusal is raised. */
  lemma DefaultRetryAllRefused(send: Backend, next: nat)
    requires RefusedFrom(send, next, RETRIES)
    ensures var r := SendWithRetry(send, next, RETRIES);
      && |r.tries| == 3
      && r.tries[0].pause == Some(1) && r.tries[1].pause == Some(2) && r.tries[2].pause == None
      && r.outcome == Failure(SendError(send(next + 2).reason))
  {
    RetryAllRefused(send, next, 0, RETRIES);
    assert Pow2(1) == 2;
  }

  // ---------------------------------------------------------------------------
  // The review protocol
  // ---------------------------------------------------------------------------

  /** One step of the review: its name, the locator of its prompt document,
      and whether the case documents are attached to it. */
  datatype ReviewStep = ReviewStep(name: string, locator: string, attachesFiles: bool)

  /** The six review steps, in the order they are sent; only the first
      attaches the case documents. */
  function FlowSteps(docs: PromptDocs): (steps: seq<ReviewStep>)
    ensures |steps| == 6
    ensures forall k :: 0 <= k < |steps| ==> (steps[k].attachesFiles <==> k == 0)
  {
    [ReviewStep("Qualifying Relationship", docs.qualifying, true),
     ReviewStep("Good Faith Character (GFC)", docs.gfm, false),
     ReviewStep("Joint Residence", docs.jointResidence, false),
     ReviewStep("GMC / Permanent Bar", docs.gmcPermanentBar, false),
     ReviewStep("Presence of Abuse", docs.abuse, false),
     ReviewStep("Auditoria Final", docs.auditoria, false)]
  }

  /** A part of a message: text, or the bytes of a PDF. */
  datatype Part = PromptText(text: string) | PdfData(data: Normalizer.Bytes)

  /** Reading a local file in full; `None` when the read fails. */
  type FileReader = string -> Option<Normalizer.Bytes>

  /** The attachments for `paths`, one PDF part per path in order; the first
      unreadable path aborts. */
  function Attachments(read: FileReader, paths: seq<string>): (r: Result<seq<Part>, ChatError>)
    ensures r.Success? <==> forall k :: 0 <= k < |paths| ==> read(paths[k]).Some?
    ensures r.Success? ==>
              |r.value| == |paths| && forall k :: 0 <= k < |paths| ==> r.value[k] == PdfData(read(paths[k]).value)
    ensures r.Failure? ==> exists k :: 0 <= k < |paths| && read(paths[k]).None? && r.error == AttachmentUnreadable(paths[k])
                                       && forall j :: 0 <= j < k ==> read(paths[j]).Some?
  {
    if paths == [] then Success([])
    else
      match read(paths[0])
      case None => Failure(AttachmentUnreadable(paths[0]))
      case Some(data) =>
        var rest :- Attachments(read, paths[1..]);
        assert forall k :: 1 <= k < |paths| ==> paths[k] == paths[1..][k - 1];
        Success([PdfData(data)] + rest)
  }

  /** The message for a step: the prompt, followed by the attachments when the
      step attaches files and there are files to attach. */
  function StepMessage(step: ReviewStep, prompt: string, read: FileReader, files: seq<string>): (r: Result<seq<Part>, ChatError>)
    ensures !(step.attachesFiles && files != []) ==> r == Success([PromptText(prompt)])
    ensures step.attachesFiles && files != [] ==>
              r == (match Attachments(read, files)
                    case Success(parts) => Success([PromptText(prompt)] + parts)
                    case Failure(e) => Failure(e))
  {
    if step.attachesFiles && files != [] then
      var parts :- Attachments(read, files);
      Success([PromptText(prompt)] + parts)
    else Success([PromptText(prompt)])
  }

  /** What one completed step did: the message sent, the number of the send
      its first attempt was, the attempts it took, and the pause taken after
      it (seconds). */
  datatype StepLog = StepLog(step: ReviewStep, message: seq<Part>, first: nat, tries: seq<Try>, pause: nat)

  /** The step ended with a delivered reply. */
  predicate Answered(log: StepLog) {
    log.tries != [] && log.tries[|log.tries| - 1].outcome.Delivered?
  }

  function FinalReply(log: StepLog): Reply
    requires Answered(log)
  {
    log.tries[|log.tries| - 1].outcome.reply
  }

  /** The step's message is the one built from its prompt document. */
  predicate SentAsBuilt(exportText: TextExport, read: FileReader, files: seq<string>, log: StepLog) {
    var prompt := exportText(DriveTools.IdFromUrl(log.step.locator));
    prompt.Some? && StepMessage(log.step, prompt.value, read, files) == Success(log.message)
  }

  /** The step's prompt document exports and its message can be built. */
  predicate Buildable(exportText: TextExport, read: FileReader, files: seq<string>, step: ReviewStep) {
    var prompt := exportText(DriveTools.IdFromUrl(step.locator));
    prompt.Some? && StepMessage(step, prompt.value, read, files).Success?
  }

  /** The final deliverable: the last step's text and its usage counts. */
  datatype Graded = Graded(text: string, tokensIn: int, tokensOut: int)

  /** The completed steps, the number of sends made so far in the session, and
      the result. */
  datatype FlowRun = FlowRun(steps: seq<StepLog>, sends: nat, outcome: Result<Graded, ChatError>)

  /** The number of the send that follows a log of steps begun at send
      `next`. */
  function After(logs: seq<StepLog>, next: nat): nat {
    if logs == [] then next else logs[|logs| - 1].first + |logs[|logs| - 1].tries|
  }

  datatype StepResult = StepDone(log: StepLog, sent: nat) | StepFailed(sent: nat, error: ChatError)

  /** One step, its first attempt being send number `next`: fetch its prompt,
      build its message, send it with retries, pause. The first failure is the
      step's error: an unexportable prompt, an unreadable attachment (nothing
      sent in either case), or the last refusal once the budget is spent. */
  function RunStep(exportText: TextExport, read: FileReader, send: Backend, files: seq<string>,
                   step: ReviewStep, next: nat): (r: StepResult)
    ensures exportText(DriveTools.IdFromUrl(step.locator)).None? ==>
              r == StepFailed(next, DocumentUnavailable(step.locator))
    ensures var prompt := exportText(DriveTools.IdFromUrl(step.locator));
            prompt.Some? && StepMessage(step, prompt.value, read, files).Failure? ==>
              r == StepFailed(next, StepMessage(step, prompt.value, read, files).error)
    ensures Buildable(exportText, read, files, step) && SendWithRetry(send, next, RETRIES).outcome.Failure? ==>
              r == StepFailed(next + RETRIES, SendWithRetry(send, next, RETRIES).outcome.error)
    ensures r.StepDone? <==> Buildable(exportText, read, files, step) && SendWithRetry(send, next, RETRIES).outcome.Success?
    ensures r.StepDone? ==>
              && r.log.step == step && r.log.first == next && Answered(r.log) && SentAsBuilt(exportText, read, files, r.log)
              && r.log.tries == SendWithRetry(send, next, RETRIES).tries
              && SendWithRetry(send, next, RETRIES).outcome == Success(Some(FinalReply(r.log)))
              && r.log.pause == STEP_PAUSE
              && r.sent == next + |r.log.tries|
  {
    match FetchDocText(exportText, step.locator)
    case Failure(e) => StepFailed(next, e)
    case Success(prompt) =>
      match StepMessage(step, prompt, read, files)
      case Failure(e) => StepFailed(next, e)
      case Success(message) =>
        var attempt := SendWithRetry(send, next, RETRIES);
        var sent := next + |attempt.tries|;
        match attempt.outcome
        case Failure(e) => StepFailed(sent, e)
        case Success(None) => StepFailed(next, SendError([]))
        case Success(Some(reply)) => StepDone(StepLog(step, message, next, attempt.tries, STEP_PAUSE), sent)
  }

  /** How one step is run from a given send number: `RunStep` with the
      session's documents, files and backend fixed. */
  type StepRunner = (ReviewStep, nat) -> StepResult

  /** A step the runner completes began at the send it was given, ends in a
      delivered reply, and leaves the send after its last attempt next. */
  ghost predicate Counts(run: StepRunner) {
    forall step, n: nat :: run(step, n).StepDone? ==>
      && run(step, n).log.first == n && Answered(run(step, n).log)
      && run(step, n).sent == n + |run(step, n).log.tries|
  }

  function Runner(exportText: TextExport, read: FileReader, send: Backend, files: seq<string>): (run: StepRunner)
    ensures forall step, n: nat :: run(step, n) == RunStep(exportText, read, send, files, step, n)
    ensures Counts(run)
  {
    (step, n: nat) => RunStep(exportText, read, send, files, step, n)
  }

  /** The steps of a run, threaded from send `next`: the first begins at
      `next`, each later one at the send after its predecessor's last
      attempt, and each is what `run` completes from there. */
  ghost predicate Threaded(steps: seq<ReviewStep>, run: StepRunner, k: nat, next: nat, logs: seq<StepLog>)
    requires k + |logs| <= |steps|
  {
    && (logs != [] ==> logs[0].first == next)
    && (forall i, j :: 0 <= i && j == i + 1 && j < |logs| ==> logs[j].first == logs[i].first + |logs[i].tries|)
    && (forall j :: 0 <= j < |logs| ==> run(steps[k + j], logs[j].first) == StepDone(logs[j], logs[j].first + |logs[j].tries|))
  }

  /** Steps `k..` of the protocol `steps`, starting at send number `next`;
      `last` is the reply of the previous step, if any. The steps run in
      order until the first that fails, whose error ends the run. */
  function RunSteps(steps: seq<ReviewStep>, run: StepRunner, k: nat, next: nat, last: Option<Reply>): (r: FlowRun)
    requires 0 < |steps| && k <= |steps|
    requires k > 0 ==> last.Some?
    requires Counts(run)
    ensures |r.steps| <= |steps| - k
    ensures forall j :: 0 <= j < |r.steps| ==> Answered(r.steps[j])
    ensures r.outcome.Success? ==> |r.steps| == |steps| - k && r.sends == After(r.steps, next)
    decreases |steps| - k
  {
    if k == |steps| then
      FlowRun([], next, Success(GradedOf(last.value)))
    else
      match run(steps[k], next)
      case StepFailed(sent, e) => FlowRun([], sent, Failure(e))
      case StepDone(log, sent) =>
        var rest := RunSteps(steps, run, k + 1, sent, Some(FinalReply(log)));
        var r := FlowRun([log] + rest.steps, rest.sends, rest.outcome);
        assert forall j :: 0 < j < |r.steps| ==> r.steps[j] == rest.steps[j - 1];
        assert After(r.steps, next) == After(rest.steps, sent);
        r
  }

  /** The steps run in order, each from the send after the previous one, until
      the first that fails; that step's failure is the run's error and its
      send count the run's. */
  lemma RunStepsTrace(steps: seq<ReviewStep>, run: StepRunner, k: nat, next: nat, last: Option<Reply>)
    requires 0 < |steps| && k <= |steps|
    requires k > 0 ==> last.Some?
    requires Counts(run)
    ensures var r := RunSteps(steps, run, k, next, last);
      && After(r.steps, next) >= next
      && Threaded(steps, run, k, next, r.steps)
      && (r.outcome.Failure? ==>
            && |r.steps| < |steps| - k
            && run(steps[k + |r.steps|], After(r.steps, next)) == StepFailed(r.sends, r.outcome.error))
  {
    RunStepsThreaded(steps, run, k, next, last);
    RunStepsStops(steps, run, k, next, last);
  }

  /** The logged steps are threaded from `next`. */
  lemma {:induction false} RunStepsThreaded(steps: seq<ReviewStep>, run: StepRunner, k: nat, next: nat, last: Option<Reply>)
    requires 0 < |steps| && k <= |steps|
    requires k > 0 ==> last.Some?
    requires Counts(run)
    ensures var r := RunSteps(steps, run, k, next, last);
      After(r.steps, next) >= next && Threaded(steps, run, k, next, r.steps)
    decreases |steps| - k
  {
    if k < |steps| {
      match run(steps[k], next)
      case StepFailed(sent, e) =>
        assert RunSteps(steps, run, k, next, last) == FlowRun([], sent, Failure(e));
      case StepDone(log, sent) =>
        var rest := RunSteps(steps, run, k + 1, sent, Some(FinalReply(log)));
        RunStepsThreaded(steps, run, k + 1, sent, Some(FinalReply(log)));
        var r := RunSteps(steps, run, k, next, last);
        assert r == FlowRun([log] + rest.steps, rest.sends, rest.outcome);
        ThreadedCons(steps, run, k, next, log, sent, rest.steps);
        assert After(r.steps, next) == After(rest.steps, sent);
    }
  }

  /** A failed run stops at the step after the logged ones, run from the send
      after them, and reports that step's failure. */
  lemma {:induction false} RunStepsStops(steps: seq<ReviewStep>, run: StepRunner, k: nat, next: nat, last: Option<Reply>)
    requires 0 < |steps| && k <= |steps|
    requires k > 0 ==> last.Some?
    requires Counts(run)
    ensures var r := RunSteps(steps, run, k, next, last);
      r.outcome.Failure? ==>
        && |r.steps| < |steps| - k
        && run(steps[k + |r.steps|], After(r.steps, next)) == StepFailed(r.sends, r.outcome.error)
    decreases |steps| - k
  {
    if k < |steps| {
      match run(steps[k], next)
      case StepFailed(sent, e) =>
        assert RunSteps(steps, run, k, next, last) == FlowRun([], sent, Failure(e));
      case StepDone(log, sent) =>
        var rest := RunSteps(steps, run, k + 1, sent, Some(FinalReply(log)));
        RunStepsStops(steps, run, k + 1, sent, Some(FinalReply(log)));
        var r := RunSteps(steps, run, k, next, last);
        assert r == FlowRun([log] + rest.steps, rest.sends, rest.outcome);
        assert After(r.steps, next) == After(rest.steps, sent);
        assert rest.outcome.Failure? ==> k + |r.steps| == (k + 1) + |rest.steps|;
    }
  }

  /** A step completed from `next` followed by steps threaded from the send
      after it are threaded from `next`. */
  lemma ThreadedCons(steps: seq<ReviewStep>, run: StepRunner, k: nat, next: nat, log: StepLog, sent: nat, rest: seq<StepLog>)
    requires k + 1 + |rest| <= |steps|
    requires run(steps[k], next) == StepDone(log, sent) && log.first == next && sent == next + |log.tries|
    requires Threaded(steps, run, k + 1, sent, rest)
    ensures Threaded(steps, run, k, next, [log] + rest)
  {
    var logs := [log] + rest;
    forall i, j | 0 <= i && j == i + 1 && j < |logs|
      ensures logs[j].first == logs[i].first + |logs[i].tries|
    {
      assert logs[j] == rest[i];
      if i > 0 {
        assert logs[i] == rest[i - 1];
      }
    }
    forall j | 0 < j < |logs|
      ensures run(steps[k + j], logs[j].first) == StepDone(logs[j], logs[j].first + |logs[j].tries|)
    {
      assert logs[j] == rest[j - 1];
      assert k + j == (k + 1) + (j - 1);
    }
  }

  /** The usage report of a reply, as the flow returns it. */
  function GradedOf(reply: Reply): Graded {
    Graded(reply.text, reply.promptTokens, reply.candidateTokens)
  }

  /** The result of the steps is the reply to the last step sent. */
  lemma {:induction false} RunStepsResult(steps: seq<ReviewStep>, run: StepRunner, k: nat, next: nat, last: Option<Reply>)
    requires 0 < |steps| && k < |steps|
    requires k > 0 ==> last.Some?
    requires Counts(run)
    ensures var r := RunSteps(steps, run, k, next, last);
      r.outcome.Success? ==> r.steps != [] && r.outcome.value == GradedOf(FinalReply(r.steps[|r.steps| - 1]))
    decreases |steps| - k
  {
    var r := RunSteps(steps, run, k, next, last);
    match run(steps[k], next)
    case StepFailed(_, _) =>
    case StepDone(log, sent) =>
      var rest := RunSteps(steps, run, k + 1, sent, Some(FinalReply(log)));
      assert r.steps == [log] + rest.steps;
      if k + 1 < |steps| {
        RunStepsResult(steps, run, k + 1, sent, Some(FinalReply(log)));
      }
  }

  /** `execute_grading_flow` on the session `session` (absent when it was not
      initialised), sending from send number `next` on. On success all six
      steps were sent in order, each with the message built from its prompt
      and ending in a delivered reply, and the result is the text and usage
      counts of the last step's reply. */
  function ExecuteGradingFlow(session: Option<Session>, docs: PromptDocs, exportText: TextExport, read: FileReader,
                              send: Backend, next: nat, files: seq<string>): (r: FlowRun)
    ensures session.None? ==> r == FlowRun([], next, Failure(NotInitialized))
    ensures |r.steps| <= |FlowSteps(docs)|
    ensures forall j :: 0 <= j < |r.steps| ==>
              r.steps[j].step == FlowSteps(docs)[j] && Answered(r.steps[j]) && SentAsBuilt(exportText, read, files, r.steps[j])
    ensures r.outcome.Success? ==>
              && |r.steps| == 6 && r.sends == After(r.steps, next)
              && r.outcome.value == GradedOf(FinalReply(r.steps[5]))
  {
    if session.None? then FlowRun([], next, Failure(NotInitialized))
    else
      RunStepsResult(FlowSteps(docs), Runner(exportText, read, send, files), 0, next, None);
      FlowCompleted(docs, exportText, read, send, next, files);
      RunSteps(FlowSteps(docs), Runner(exportText, read, send, files), 0, next, None)
  }

  /** Each step the protocol completes is the step it was run for, ends in a
      delivered reply, and sent the message built from its prompt. */
  lemma FlowCompleted(docs: PromptDocs, exportText: TextExport, read: FileReader, send: Backend, next: nat, files: seq<string>)
    ensures var r := RunSteps(FlowSteps(docs), Runner(exportText, read, send, files), 0, next, None);
      forall j :: 0 <= j < |r.steps| ==>
        r.steps[j].step == FlowSteps(docs)[j] && SentAsBuilt(exportText, read, files, r.steps[j])
  {
    var run := Runner(exportText, read, send, files);
    var r := RunSteps(FlowSteps(docs), run, 0, next, None);
    RunStepsTrace(FlowSteps(docs), run, 0, next, None);
    forall j | 0 <= j < |r.steps|
      ensures r.steps[j].step == FlowSteps(docs)[j] && SentAsBuilt(exportText, read, files, r.steps[j])
    {
      assert run(FlowSteps(docs)[j], r.steps[j].first) == RunStep(exportText, read, send, files, FlowSteps(docs)[j], r.steps[j].first);
    }
  }

  /** The six steps run in order from send `next`, each from the send after
      the previous step's last attempt, and each is what `RunStep` completes
      from the send it began at. */
  lemma FlowThreaded(session: Option<Session>, docs: PromptDocs, exportText: TextExport, read: FileReader,
                     send: Backend, next: nat, files: seq<string>)
    ensures var r := ExecuteGradingFlow(session, docs, exportText, read, send, next, files);
      && After(r.steps, next) >= next
      && Threaded(FlowSteps(docs), Runner(exportText, read, send, files), 0, next, r.steps)
  {
    if session.Some? {
      RunStepsTrace(FlowSteps(docs), Runner(exportText, read, send, files), 0, next, None);
    }
  }

  /** With a session, a failed flow stopped at the first step that failed:
      the flow's error and send count are that step's, from the send after
      the last completed step. */
  lemma FlowFailure(session: Option<Session>, docs: PromptDocs, exportText: TextExport, read: FileReader,
                    send: Backend, next: nat, files: seq<string>)
    ensures var r := ExecuteGradingFlow(session, docs, exportText, read, send, next, files);
      session.Some? && r.outcome.Failure? ==>
        && |r.steps| < 6
        && RunStep(exportText, read, send, files, FlowSteps(docs)[|r.steps|], After(r.steps, next))
           == StepFailed(r.sends, r.outcome.error)
  {
    if session.Some? {
      var steps := FlowSteps(docs);
      var run := Runner(exportText, read, send, files);
      var r := RunSteps(steps, run, 0, next, None);
      RunStepsTrace(steps, run, 0, next, None);
      if r.outcome.Failure? {
        assert run(steps[0 + |r.steps|], After(r.steps, next)) == StepFailed(r.sends, r.outcome.error);
      }
    }
  }

  /** From send `next` on, no `RETRIES` consecutive sends are all refused. */
  ghost predicate DeliversWithinBudget(send: Backend, next: nat) {
    forall n: nat :: next <= n ==> !RefusedFrom(send, n, RETRIES)
  }

  /** A step whose prompt exports and whose files are readable completes
      unless every send of its budget is refused. */
  lemma StepSucceeds(exportText: TextExport, read: FileReader, send: Backend, files: seq<string>,
                     step: ReviewStep, next: nat)
    requires exportText(DriveTools.IdFromUrl(step.locator)).Some?
    requires forall m :: 0 <= m < |files| ==> read(files[m]).Some?
    requires !RefusedFrom(send, next, RETRIES)
    ensures RunStep(exportText, read, send, files, step, next).StepDone?
  {
    var prompt := exportText(DriveTools.IdFromUrl(step.locator)).value;
    assert StepMessage(step, prompt, read, files).Success?;
    var attempt := SendWithRetry(send, next, RETRIES);
    if attempt.outcome.Failure? {
      forall n: nat | next <= n < next + RETRIES
        ensures send(n).Refused?
      {
        assert attempt.tries[n - next].outcome == send(next + (n - next));
      }
    }
  }

  /** The converse of the flow's failure cases: with a session, every prompt
      document exportable, every case file readable and no budget's worth of
      refusals in a row, the flow succeeds. */
  lemma FlowSucceeds(session: Option<Session>, docs: PromptDocs, exportText: TextExport, read: FileReader,
                     send: Backend, next: nat, files: seq<string>)
    requires session.Some?
    requires forall j :: 0 <= j < |FlowSteps(docs)| ==> exportText(DriveTools.IdFromUrl(FlowSteps(docs)[j].locator)).Some?
    requires forall m :: 0 <= m < |files| ==> read(files[m]).Some?
    requires DeliversWithinBudget(send, next)
    ensures ExecuteGradingFlow(session, docs, exportText, read, send, next, files).outcome.Success?
  {
    var r := ExecuteGradingFlow(session, docs, exportText, read, send, next, files);
    FlowThreaded(session, docs, exportText, read, send, next, files);
    FlowFailure(session, docs, exportText, read, send, next, files);
    if r.outcome.Failure? {
      var s := After(r.steps, next);
      assert !RefusedFrom(send, s, RETRIES);
      StepSucceeds(exportText, read, send, files, FlowSteps(docs)[|r.steps|], s);
    }
  }

  /** The messages of the flow: each starts with its step's prompt text; only
      the first step carries the case files, one PDF part per file in order,
      and only when there are files; every other message is the prompt
      alone. */
  lemma FlowMessages(session: Option<Session>, docs: PromptDocs, exportText: TextExport, read: FileReader,
                     send: Backend, next: nat, files: seq<string>)
    ensures var r := ExecuteGradingFlow(session, docs, exportText, read, send, next, files);
      forall j :: 0 <= j < |r.steps| ==>
        && exportText(DriveTools.IdFromUrl(FlowSteps(docs)[j].locator)).Some?
        && |r.steps[j].message| >= 1
        && r.steps[j].message[0] == PromptText(exportText(DriveTools.IdFromUrl(FlowSteps(docs)[j].locator)).value)
        && (j > 0 || files == [] ==> |r.steps[j].message| == 1)
        && (j == 0 && files != [] ==>
              |r.steps[j].message| == 1 + |files|
              && forall m :: 0 <= m < |files| ==> r.steps[j].message[1 + m] == PdfData(read(files[m]).value))
  {
    var r := ExecuteGradingFlow(session, docs, exportText, read, send, next, files);
    forall j | 0 <= j < |r.steps|
      ensures exportText(DriveTools.IdFromUrl(FlowSteps(docs)[j].locator)).Some?
      ensures |r.steps[j].message| >= 1
      ensures r.steps[j].message[0] == PromptText(exportText(DriveTools.IdFromUrl(FlowSteps(docs)[j].locator)).value)
      ensures j > 0 || files == [] ==> |r.steps[j].message| == 1
      ensures j == 0 && files != [] ==>
                |r.steps[j].message| == 1 + |files|
                && forall m :: 0 <= m < |files| ==> r.steps[j].message[1 + m] == PdfData(read(files[m]).value)
    {
      var log := r.steps[j];
      assert SentAsBuilt(exportText, read, files, log);
      var prompt := exportText(DriveTools.IdFromUrl(log.step.locator)).value;
      if j == 0 && files != [] {
        var parts := Attachments(read, files);
        assert parts.Success?;
        assert log.message == [PromptText(prompt)] + parts.value;
      }
    }
  }
}
