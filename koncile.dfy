/** src/lib/koncile.ts: the upload, poll and merge client of Koncile.ai, with the fallback to
    auto-classification, and the `extractInvoiceData` facade that retries the whole workflow and
    never throws. */
module Koncile {
  import opened Wrappers
  import opened JsObject
  import opened Text
  import opened Seqs
  import opened Fields
  import opened Transport
  import opened Template
  import opened Backoff
  import opened Envelope

  /** `KONCILE_CONFIG.MAX_POLL_ATTEMPTS` and `KONCILE_CONFIG.POLL_INTERVAL`. */
  const MaxPollAttempts: nat := 30
  const PollInterval: nat := 2000

  /** `KoncileAPIClient`: only `apiUrl` takes part in the modelled behaviour; the key goes into
      headers, which are not modelled. */
  datatype Client = Client(apiUrl: string)

  // ---------------------------------------------------------------- uploadFile

  function UploadBase(c: Client): string {
    c.apiUrl + "/v1/upload_file/"
  }

  /** The upload URL: the trailing-slash endpoint, with `?template_id=` appended exactly when a
      template id is given. */
  function UploadUrl(c: Client, templateId: string): (url: string)
    ensures StartsWith(url, UploadBase(c))
    ensures url == UploadBase(c) <==> templateId == ""
    ensures templateId != "" ==> EndsWith(url, "?template_id=" + templateId)
  {
    if templateId != "" then UploadBase(c) + "?template_id=" + templateId else UploadBase(c)
  }

  /** The characters `/[^\w\-_.]/` does not match. */
  predicate SafeChar(ch: char) {
    ('a' <= ch <= 'z') || ('A' <= ch <= 'Z') || ('0' <= ch <= '9') || ch == '_' || ch == '-' || ch == '.'
  }

  /** `fileName.replace(/[^\w\-_.]/g, '_')`. */
  function SanitizeFileName(fileName: string): (r: string)
    ensures |r| == |fileName|
    ensures forall i :: 0 <= i < |r| ==> SafeChar(r[i])
    ensures forall i :: 0 <= i < |r| ==> r[i] == fileName[i] || (r[i] == '_' && !SafeChar(fileName[i]))
  {
    seq(|fileName|, i requires 0 <= i < |fileName| => if SafeChar(fileName[i]) then fileName[i] else '_')
  }

  /** Sanitising keeps safe characters and so changes nothing the second time. */
  lemma SanitizeIdempotent(fileName: string)
    ensures SanitizeFileName(SanitizeFileName(fileName)) == SanitizeFileName(fileName)
  {
  }

  const UploadTimeoutMessage: string :=
    "Upload timeout - the file is taking too long to process. Please try with a smaller file or check your internet connection."

  /** The catch block of `uploadFile` for axios errors. */
  function UploadError(e: AxiosError): (err: Error)
    ensures e.code == "ECONNABORTED" || e.code == "ETIMEDOUT" ==> err.message == UploadTimeoutMessage
    ensures e.code != "ECONNABORTED" && e.code != "ETIMEDOUT" ==>
      err.message == "Upload failed: " + StatusText(e) + " - " + DetailText(e)
  {
    if e.code == "ECONNABORTED" || e.code == "ETIMEDOUT" then Error(UploadTimeoutMessage)
    else Error("Upload failed: " + StatusText(e) + " - " + DetailText(e))
  }

  /** The status part of a non-timeout upload error is the HTTP status, or "Network Error" when
      there was no response; the detail prefers the response body. */
  lemma UploadErrorText(e: AxiosError)
    requires e.code != "ECONNABORTED" && e.code != "ETIMEDOUT"
    ensures StartsWith(UploadError(e).message, "Upload failed: ")
    ensures e.status == 0 ==> StartsWith(UploadError(e).message, "Upload failed: Network Error - ")
    ensures e.data != "" ==> EndsWith(UploadError(e).message, " - " + e.data)
    ensures e.data == "" ==> EndsWith(UploadError(e).message, " - " + e.message)
  {
    MessageParts("Upload failed: ", StatusText(e), " - ", DetailText(e));
    assert "Upload failed: " + "Network Error" + " - " == "Upload failed: Network Error - ";
  }

  /** `uploadFile`: one POST with the built URL and the sanitised name; task ids, or the mapped
      error; other thrown errors pass through unchanged. */
  function UploadFile(s: Script, c: Client, w: World, fileName: string, templateId: string): (Result<seq<string>>, World)
  {
    var (reply, w1) := CallUpload(s, w, UploadUrl(c, templateId), SanitizeFileName(fileName));
    match reply
    case TaskIds(ids) => (Ok(ids), w1)
    case UploadAxiosError(e) => (Err(UploadError(e)), w1)
    case UploadThrown(m) => (Err(Error(m)), w1)
  }

  // ------------------------------------------------------------- pollTaskStatus

  function FetchUrl(c: Client, taskId: string): string {
    c.apiUrl + "/v1/fetch_tasks_results/?task_id=" + taskId
  }

  function TimeoutMessage(taskId: string): string {
    "Task " + taskId + " did not complete within timeout period"
  }

  /** How one poll attempt ends: the task is done, it is still pending (`DUPLICATE`,
      `IN PROGRESS`), or the `try` block threw. */
  datatype PollStep = Finished(task: TaskResult) | Pending | Raised(error: Error)

  /** The body of the `try` block for one fetch reply. */
  function Classify(reply: FetchReply): (step: PollStep)
    ensures step.Finished? <==> reply.Json? && reply.task.status == Done
    ensures step.Finished? ==> step.task == reply.task
    ensures step.Pending? <==> reply.Json? && (reply.task.status == Duplicate || reply.task.status == InProgress)
  {
    match reply
    case FetchThrown(m) => Raised(Error(m))
    case NotOk(status) => Raised(Error("Task status check failed: " + NatToString(status)))
    case Json(t) =>
      match t.status
      case Done => Finished(t)
      case Failed => Raised(Error("Task failed: " + (if t.statusMessage != "" then t.statusMessage else "Unknown error")))
      case Duplicate => Pending
      case InProgress => Pending
  }

  /** The `for` loop of `pollTaskStatus` from iteration `attempt` on. */
  function PollFrom(s: Script, c: Client, taskId: string, w: World, attempt: nat): (Result<TaskResult>, World)
    requires 1 <= attempt <= MaxPollAttempts + 1
    decreases MaxPollAttempts + 1 - attempt
  {
    if attempt > MaxPollAttempts then (Err(Error(TimeoutMessage(taskId))), w)
    else
      var (reply, w1) := CallFetch(s, w, FetchUrl(c, taskId));
      match Classify(reply)
      case Finished(t) => (Ok(t), w1)
      case Pending =>
        PollFrom(s, c, taskId, if attempt < MaxPollAttempts then Sleep(w1, PollInterval) else w1, attempt + 1)
      case Raised(e) =>
        if attempt == MaxPollAttempts then (Err(e), w1)
        else PollFrom(s, c, taskId, Sleep(w1, PollInterval), attempt + 1)
  }

  function Poll(s: Script, c: Client, taskId: string, w: World): (Result<TaskResult>, World) {
    PollFrom(s, c, taskId, w, 1)
  }

  /** How a run of the poll loop that has `budget` attempts left ends, where `n` is the number of
      fetches it made:
      - `n` is between 1 and `budget`, every fetch asks for `taskId`, and exactly `n - 1` waits
        of 2000 ms separate them; nothing else changes;
      - no fetch before the last one saw `DONE`;
      - the result is the last fetched task exactly when it is `DONE`;
      - an error is thrown only after the last attempt: the last attempt's own error, or the
        timeout error when that attempt was still pending. */
  predicate PollEnds(s: Script, c: Client, taskId: string, w: World, budget: nat, r: Result<TaskResult>, w': World) {
    var n := w'.fetches - w.fetches;
    && 1 <= n <= budget
    && w' == w.(fetches := w.fetches + n,
                requests := w.requests + Repeat(FetchRequest(FetchUrl(c, taskId)), n),
                sleeps := w.sleeps + Repeat(PollInterval, n - 1))
    && (forall j :: w.fetches <= j < w'.fetches - 1 ==> !Classify(s.fetch(j)).Finished?)
    && (r.Ok? <==> Classify(s.fetch(w'.fetches - 1)).Finished?)
    && (r.Ok? ==> r.value == Classify(s.fetch(w'.fetches - 1)).task)
    && (r.Err? ==> n == budget
                   && r.error == match Classify(s.fetch(w'.fetches - 1))
                                 case Raised(e) => e
                                 case _ => Error(TimeoutMessage(taskId)))
  }

  /** Polling from iteration `attempt` ends as `PollEnds` describes, with `31 - attempt`
      attempts left. */
  lemma {:induction false} PollFromOutcome(s: Script, c: Client, taskId: string, w: World, attempt: nat)
    requires 1 <= attempt <= MaxPollAttempts
    ensures var (r, w') := PollFrom(s, c, taskId, w, attempt);
      PollEnds(s, c, taskId, w, MaxPollAttempts + 1 - attempt, r, w')
    decreases MaxPollAttempts - attempt
  {
    var url := FetchUrl(c, taskId);
    var (reply, w1) := CallFetch(s, w, url);
    var step := Classify(reply);
    if !step.Finished? && attempt < MaxPollAttempts {
      var w2 := Sleep(w1, PollInterval);
      assert PollFrom(s, c, taskId, w, attempt) == PollFrom(s, c, taskId, w2, attempt + 1);
      PollFromOutcome(s, c, taskId, w2, attempt + 1);
      var (r, w') := PollFrom(s, c, taskId, w2, attempt + 1);
      PollEndsCons(s, c, taskId, w, MaxPollAttempts + 1 - attempt, r, w');
    } else {
      assert Repeat(FetchRequest(url), 1) == [FetchRequest(url)];
    }
  }

  /** A fetch that did not see `DONE`, a wait, then a run with one attempt fewer. */
  lemma PollEndsCons(s: Script, c: Client, taskId: string, w: World, budget: nat, r: Result<TaskResult>, w': World)
    requires budget >= 2
    requires !Classify(s.fetch(w.fetches)).Finished?
    requires PollEnds(s, c, taskId, Sleep(CallFetch(s, w, FetchUrl(c, taskId)).1, PollInterval), budget - 1, r, w')
    ensures PollEnds(s, c, taskId, w, budget, r, w')
  {
    var url := FetchUrl(c, taskId);
    var w2 := Sleep(CallFetch(s, w, url).1, PollInterval);
    var m := w'.fetches - w2.fetches;
    RepeatCons(FetchRequest(url), m);
    RepeatCons(PollInterval, m - 1);
    assert w.requests + Repeat(FetchRequest(url), m + 1) == w2.requests + Repeat(FetchRequest(url), m);
    assert w.sleeps + Repeat(PollInterval, m) == w2.sleeps + Repeat(PollInterval, m - 1);
  }

  /** `pollTaskStatus`: at most 30 fetches, all for `taskId`, one 2000 ms wait between two
      consecutive fetches, the first `DONE` task returned, `FAILED` and failed fetches retried like
      pending ones, and an error only once all 30 attempts are spent. */
  lemma PollOutcome(s: Script, c: Client, taskId: string, w: World)
    ensures var (r, w') := Poll(s, c, taskId, w);
      PollEnds(s, c, taskId, w, MaxPollAttempts, r, w')
  {
    PollFromOutcome(s, c, taskId, w, 1);
  }

  /** Thirty pending replies in a row (`DUPLICATE` or `IN PROGRESS`) end in the timeout error. */
  lemma PollAllPending(s: Script, c: Client, taskId: string, w: World)
    requires forall j :: w.fetches <= j < w.fetches + MaxPollAttempts ==> Classify(s.fetch(j)).Pending?
    ensures Poll(s, c, taskId, w).0 == Err(Error(TimeoutMessage(taskId)))
  {
    PollFromOutcome(s, c, taskId, w, 1);
  }

  /** `pollTaskStatus` as the source writes it: a counted `for` loop whose `try` returns on `DONE`
      and whose `catch` rethrows only on the last attempt. */
  method PollTaskStatus(s: Script, c: Client, taskId: string, w0: World) returns (r: Result<TaskResult>, w: World)
    ensures (r, w) == Poll(s, c, taskId, w0)
  {
    w := w0;
    var attempt := 1;
    while attempt <= MaxPollAttempts
      invariant 1 <= attempt <= MaxPollAttempts + 1
      invariant PollFrom(s, c, taskId, w, attempt) == Poll(s, c, taskId, w0)
      decreases MaxPollAttempts + 1 - attempt
    {
      var (reply, w1) := CallFetch(s, w, FetchUrl(c, taskId));
      var step := Classify(reply);
      if step.Finished? {
        return Ok(step.task), w1;
      } else if step.Pending? {
        if attempt < MaxPollAttempts {
          w1 := Sleep(w1, PollInterval);
        }
      } else {
        if attempt == MaxPollAttempts {
          return Err(step.error), w1;
        }
        w1 := Sleep(w1, PollInterval);
      }
      assert PollFrom(s, c, taskId, w, attempt) == PollFrom(s, c, taskId, w1, attempt + 1);
      w := w1;
      attempt := attempt + 1;
    }
    r := Err(Error(TimeoutMessage(taskId)));
  }

  // ------------------------------------------------------------ field merging

  /** `{ value: field.value, confidence_score: field.confidence_score }`. */
  function ToRaw(f: ServiceField): (v: RawValue)
    ensures v.RawObject? && v.value == f.value && v.confidenceScore == f.confidenceScore
  {
    RawObject(f.value, None, None, f.confidenceScore, None, None)
  }

  /** The writes the `Line_fields` loop makes: the first element of each non-empty list. */
  function FirstLines(lines: seq<(string, seq<ServiceField>)>): (r: seq<(string, RawValue)>)
    ensures r == [] <==> forall i :: 0 <= i < |lines| ==> |lines[i].1| == 0
    decreases |lines|
  {
    if lines == [] then [] else
      var (key, fields) := lines[|lines| - 1];
      var front := FirstLines(lines[..|lines| - 1]);
      if |fields| > 0 then front + [(key, ToRaw(fields[0]))] else front
  }

  /** In an object of lists, the last write to `key` among the line writes is the first element
      of `key`'s list, if that list exists and is non-empty. */
  lemma {:induction false} LastForFirstLines(lines: Obj<seq<ServiceField>>, key: string)
    ensures LastFor(FirstLines(lines), key) ==
      match Lookup(lines, key)
      case Some(fields) => if |fields| > 0 then Some(ToRaw(fields[0])) else None
      case None => None
    decreases |lines|
  {
    if lines != [] {
      var n := |lines| - 1;
      var front := Prefix(lines, n);
      var (k, fields) := lines[n];
      LastForFirstLines(front, key);
      forall j | 0 <= j < n ensures front[j].0 != k {
        assert lines[j].0 != lines[n].0;
      }
      PutFresh(front, k, fields);
      assert lines == front + [(k, fields)];
      LookupPut(front, k, fields, key);
      var r := FirstLines(lines);
      if |fields| > 0 {
        assert r == FirstLines(front) + [(k, ToRaw(fields[0]))];
        assert r[..|r| - 1] == FirstLines(front);
      } else {
        assert r == FirstLines(front);
      }
    }
  }

  /** The `General_fields` pass. */
  function GeneralPart(t: TaskResult): Obj<RawValue> {
    if t.generalFields.Some? then MapValues(t.generalFields.value, ToRaw) else []
  }

  function LinePart(t: TaskResult): seq<(string, RawValue)> {
    if t.lineFields.Some? then FirstLines(t.lineFields.value) else []
  }

  /** `extractedData` after both passes: the general fields written first, then the line writes. */
  function MergeFields(t: TaskResult): Obj<RawValue> {
    PutAll(GeneralPart(t), LinePart(t))
  }

  /** A key of the merged data holds the first element of its non-empty line list when there is
      one (later writes win), otherwise its general field, otherwise nothing. */
  lemma MergeLookup(t: TaskResult, key: string)
    ensures Lookup(MergeFields(t), key) ==
      if t.lineFields.Some? && Lookup(t.lineFields.value, key).Some? && |Lookup(t.lineFields.value, key).value| > 0
      then Some(ToRaw(Lookup(t.lineFields.value, key).value[0]))
      else if t.generalFields.Some? && Lookup(t.generalFields.value, key).Some?
      then Some(ToRaw(Lookup(t.generalFields.value, key).value))
      else None
  {
    LookupPutAll(GeneralPart(t), LinePart(t), key);
    if t.lineFields.Some? {
      LastForFirstLines(t.lineFields.value, key);
    }
    if t.generalFields.Some? {
      LookupMapValues(t.generalFields.value, ToRaw, key);
    }
  }

  /** The merged data is empty exactly when there are no general fields and every line list is
      empty. */
  lemma MergeEmpty(t: TaskResult)
    ensures |MergeFields(t)| == 0 <==>
      (t.generalFields.None? || |t.generalFields.value| == 0) &&
      (t.lineFields.None? || forall i :: 0 <= i < |t.lineFields.value| ==> |t.lineFields.value[i].1| == 0)
  {
  }

  /** The two `forEach` passes of `extractWithTemplate`, writing into `extractedData`. */
  method MergeTaskFields(t: TaskResult) returns (data: Obj<RawValue>)
    ensures data == MergeFields(t)
  {
    data := [];
    if t.generalFields.Some? {
      data := CopyGeneralFields(t.generalFields.value);
    }
    if t.lineFields.Some? {
      data := WriteFirstLines(data, t.lineFields.value);
    }
  }

  /** The `General_fields` pass: each field copied under its own key. */
  method CopyGeneralFields(general: Obj<ServiceField>) returns (data: Obj<RawValue>)
    ensures data == MapValues(general, ToRaw)
  {
    data := [];
    var i := 0;
    while i < |general|
      invariant 0 <= i <= |general|
      invariant data == MapValues(Prefix(general, i), ToRaw)
    {
      MapValuesSnoc(general, i, ToRaw);
      data := Put(data, general[i].0, ToRaw(general[i].1));
      i := i + 1;
    }
    assert Prefix(general, i) == general;
  }

  /** The `Line_fields` pass over `data`: the first element of each non-empty list written under
      its key, empty lists skipped. */
  method WriteFirstLines(data0: Obj<RawValue>, lines: Obj<seq<ServiceField>>) returns (data: Obj<RawValue>)
    ensures data == PutAll(data0, FirstLines(lines))
  {
    data := data0;
    var j := 0;
    while j < |lines|
      invariant 0 <= j <= |lines|
      invariant data == PutAll(data0, FirstLines(lines[..j]))
    {
      var (key, fields) := lines[j];
      assert lines[..j + 1][..j] == lines[..j];
      ghost var before := FirstLines(lines[..j]);
      if |fields| > 0 {
        data := Put(data, key, ToRaw(fields[0]));
        PutAllSnoc(data0, before, (key, ToRaw(fields[0])));
      }
      j := j + 1;
    }
    assert lines[..j] == lines;
  }

  // ------------------------------------------------- upload, poll and merge

  /** Which of the two workflows runs: they differ in the template id sent and in the wording of
      their two errors. */
  datatype Mode = WithTemplate | AutoClassification

  function NoTaskIdsMessage(mode: Mode): string {
    match mode
    case WithTemplate => "No task IDs returned from upload"
    case AutoClassification => "No task IDs returned from auto-classification upload"
  }

  function NoDataMessage(mode: Mode): string {
    match mode
    case WithTemplate => "No extracted data found in task result"
    case AutoClassification => "No extracted data found in auto-classification result"
  }

  /** Upload, then poll the first task id, then merge; an empty merge is an error. */
  function Pipeline(s: Script, c: Client, fileName: string, templateId: string, mode: Mode, w: World): (Result<Obj<RawValue>>, World)
  {
    var (u, w1) := UploadFile(s, c, w, fileName, templateId);
    if u.Err? then (Err(u.error), w1)
    else if |u.value| == 0 then (Err(Error(NoTaskIdsMessage(mode))), w1)
    else
      var (p, w2) := Poll(s, c, u.value[0], w1);
      if p.Err? then (Err(p.error), w2)
      else
        var data := MergeFields(p.value);
        if |data| > 0 then (Ok(data), w2) else (Err(Error(NoDataMessage(mode))), w2)
  }

  /** One workflow run makes exactly one upload, with the built URL and the sanitised name, then
      polls only the first task id it got back, at most 30 times; a result it returns is a
      non-empty merge of the `DONE` task. */
  lemma PipelineOutcome(s: Script, c: Client, fileName: string, templateId: string, mode: Mode, w: World)
    ensures var (r, w') := Pipeline(s, c, fileName, templateId, mode, w);
      var reply := s.upload(w.uploads);
      var n := w'.fetches - w.fetches;
      && w'.uploads == w.uploads + 1 && w'.extracts == w.extracts
      && 0 <= n <= MaxPollAttempts
      && (n > 0 ==> reply.TaskIds? && |reply.ids| > 0)
      && w'.requests == w.requests + [UploadRequest(UploadUrl(c, templateId), SanitizeFileName(fileName))]
                        + (if n > 0 then Repeat(FetchRequest(FetchUrl(c, reply.ids[0])), n) else [])
      && (r.Ok? ==> n > 0 && LastFetchDone(s, w') && r.value == MergeFields(s.fetch(w'.fetches - 1).task)
                    && |r.value| > 0)
      && (reply.TaskIds? && |reply.ids| == 0 ==> r == Err(Error(NoTaskIdsMessage(mode))))
      && (reply.UploadAxiosError? ==> r == Err(UploadError(reply.err)))
  {
    var (u, w1) := UploadFile(s, c, w, fileName, templateId);
    if u.Ok? && |u.value| > 0 {
      PollOutcome(s, c, u.value[0], w1);
      PipelineResult(s, c, fileName, templateId, mode, w);
    }
  }

  /** The value of a successful workflow run is the merge of the task its last fetch saw `DONE`. */
  lemma PipelineResult(s: Script, c: Client, fileName: string, templateId: string, mode: Mode, w: World)
    ensures var (r, w') := Pipeline(s, c, fileName, templateId, mode, w);
      r.Ok? ==> w'.fetches > w.fetches && LastFetchDone(s, w') && r.value == MergeFields(s.fetch(w'.fetches - 1).task)
  {
    var (u, w1) := UploadFile(s, c, w, fileName, templateId);
    if u.Ok? && |u.value| > 0 {
      var (p, w2) := Poll(s, c, u.value[0], w1);
      PollDone(s, c, u.value[0], w1);
      assert Pipeline(s, c, fileName, templateId, mode, w).1 == w2;
    }
  }

  /** A successful poll returns the task of its last fetch, which was `DONE`. */
  lemma PollDone(s: Script, c: Client, taskId: string, w: World)
    ensures var (r, w') := Poll(s, c, taskId, w);
      r.Ok? ==> w'.fetches > w.fetches && LastFetchDone(s, w') && r.value == s.fetch(w'.fetches - 1).task
  {
    PollOutcome(s, c, taskId, w);
    var (r, w') := Poll(s, c, taskId, w);
    if r.Ok? {
      var reply := s.fetch(w'.fetches - 1);
      assert Classify(reply).Finished?;
      assert reply.Json? && reply.task.status == Done && r.value == reply.task;
    }
  }

  /** The last status fetch made in world `w` returned a `DONE` task. */
  predicate LastFetchDone(s: Script, w: World) {
    w.fetches > 0 && s.fetch(w.fetches - 1).Json? && s.fetch(w.fetches - 1).task.status == Done
  }

  /** `extractWithTemplate`: the workflow with the template id; on an error whose message
      contains "404", and only when a template id was given, one auto-classification run from
      the world the failure left. */
  function ExtractWithTemplateSpec(s: Script, c: Client, fileName: string, templateId: string, w: World): (Result<Obj<RawValue>>, World)
  {
    var (r, w1) := Pipeline(s, c, fileName, templateId, WithTemplate, w);
    if r.Err? && templateId != "" && Contains(r.error.message, "404") then
      Pipeline(s, c, fileName, "", AutoClassification, w1)
    else (r, w1)
  }

  /** The fallback runs at most once: an attempt makes one upload, and a second one (without a
      template id) exactly when the first run failed with "404" and a template id was given. */
  lemma FallbackOnce(s: Script, c: Client, fileName: string, templateId: string, w: World)
    ensures var (r1, w1) := Pipeline(s, c, fileName, templateId, WithTemplate, w);
      var fallback := r1.Err? && templateId != "" && Contains(r1.error.message, "404");
      var (r, w') := ExtractWithTemplateSpec(s, c, fileName, templateId, w);
      && w'.uploads == w.uploads + (if fallback then 2 else 1)
      && w'.extracts == w.extracts
      && w.fetches <= w'.fetches <= w.fetches + 2 * MaxPollAttempts
      && (!fallback ==> r == r1)
      && (fallback ==> (r, w') == Pipeline(s, c, fileName, "", AutoClassification, w1))
      && (r.Ok? ==> |r.value| > 0 && LastFetchDone(s, w') && r.value == MergeFields(s.fetch(w'.fetches - 1).task))
  {
    PipelineOutcome(s, c, fileName, templateId, WithTemplate, w);
    var (r1, w1) := Pipeline(s, c, fileName, templateId, WithTemplate, w);
    PipelineOutcome(s, c, fileName, "", AutoClassification, w1);
  }

  /** The shared body of `extractWithTemplate`'s `try` and of `extractWithAutoClassification`. */
  method UploadPollMerge(s: Script, c: Client, fileName: string, templateId: string, mode: Mode, w0: World)
    returns (r: Result<Obj<RawValue>>, w: World)
    ensures (r, w) == Pipeline(s, c, fileName, templateId, mode, w0)
  {
    var (u, w1) := UploadFile(s, c, w0, fileName, templateId);
    if u.Err? {
      return Err(u.error), w1;
    }
    var taskIds := u.value;
    if |taskIds| == 0 {
      return Err(Error(NoTaskIdsMessage(mode))), w1;
    }
    var p, w2 := PollTaskStatus(s, c, taskIds[0], w1);
    if p.Err? {
      return Err(p.error), w2;
    }
    var data := MergeTaskFields(p.value);
    if |data| > 0 {
      return Ok(data), w2;
    }
    return Err(Error(NoDataMessage(mode))), w2;
  }

  /** `extractWithAutoClassification`: the workflow without a template id. */
  method ExtractWithAutoClassification(s: Script, c: Client, fileName: string, w0: World)
    returns (r: Result<Obj<RawValue>>, w: World)
    ensures (r, w) == Pipeline(s, c, fileName, "", AutoClassification, w0)
  {
    r, w := UploadPollMerge(s, c, fileName, "", AutoClassification, w0);
  }

  /** `extractWithTemplate`. */
  method ExtractWithTemplate(s: Script, c: Client, fileName: string, templateId: string, w0: World)
    returns (r: Result<Obj<RawValue>>, w: World)
    ensures (r, w) == ExtractWithTemplateSpec(s, c, fileName, templateId, w0)
  {
    r, w := UploadPollMerge(s, c, fileName, templateId, WithTemplate, w0);
    if r.Err? && templateId != "" && Contains(r.error.message, "404") {
      r, w := ExtractWithAutoClassification(s, c, fileName, w);
    }
  }

  // ------------------------------------------------------ extractInvoiceData

  /** `async () => client.extractWithTemplate(fileBuffer, fileName, templateId)` as the operation
      handed to `withRetry`. */
  function TemplateOp(s: Script, c: Client, fileName: string, templateId: string): World -> (Result<Obj<RawValue>>, World)
  {
    w => ExtractWithTemplateSpec(s, c, fileName, templateId, w)
  }

  /** `extractInvoiceData`: guards, the retried workflow, normalisation without a fallback
      confidence, and the envelope. Every error becomes a failure envelope. */
  function ExtractInvoiceDataSpec(s: Script, c: Client, fileBuffer: seq<bv8>, fileName: string, invoiceType: string, w: World)
    : (KoncileResponse, World)
  {
    match ValidateInputs(fileBuffer, fileName, invoiceType)
    case Err(e) => (Fail(e.message), w)
    case Ok(templateId) =>
      var run := Retry(TemplateOp(s, c, fileName, templateId), w, MaxRetries, RetryDelay);
      match run.result
      case Err(e) => (Fail(e.message), run.world)
      case Ok(extracted) => (Succeed(NormalizeAll(extracted, None)), run.world)
  }

  /** Invalid inputs fail before the service is called at all. */
  lemma InvalidInputsCallNothing(s: Script, c: Client, fileBuffer: seq<bv8>, fileName: string, invoiceType: string, w: World)
    requires |fileBuffer| == 0 || IsBlank(fileName) || invoiceType !in KeySet(TemplateMap)
    ensures var (resp, w') := ExtractInvoiceDataSpec(s, c, fileBuffer, fileName, invoiceType, w);
      && w' == w
      && resp == Fail(ValidateInputs(fileBuffer, fileName, invoiceType).error.message)
  {
  }

  /** Each attempt of the retried operation makes one or two uploads, at most 60 status fetches
      and no direct extraction, and a result it returns is non-empty. */
  lemma TemplateOpBounds(s: Script, c: Client, fileName: string, templateId: string)
    ensures forall v: World :: v.uploads <= TemplateOp(s, c, fileName, templateId)(v).1.uploads <= v.uploads + 2
    ensures forall v: World :: v.fetches <= TemplateOp(s, c, fileName, templateId)(v).1.fetches <= v.fetches + 2 * MaxPollAttempts
    ensures forall v: World :: TemplateOp(s, c, fileName, templateId)(v).1.extracts == v.extracts
    ensures forall v: World :: TemplateOp(s, c, fileName, templateId)(v).0.Ok? ==> |TemplateOp(s, c, fileName, templateId)(v).0.value| > 0
    ensures forall v: World :: TemplateOp(s, c, fileName, templateId)(v).0.Ok? ==>
      var v' := TemplateOp(s, c, fileName, templateId)(v).1;
      LastFetchDone(s, v') && TemplateOp(s, c, fileName, templateId)(v).0.value == MergeFields(s.fetch(v'.fetches - 1).task)
  {
    forall v: World
      ensures var (r, v') := ExtractWithTemplateSpec(s, c, fileName, templateId, v);
        v.uploads <= v'.uploads <= v.uploads + 2 && v.fetches <= v'.fetches <= v.fetches + 2 * MaxPollAttempts
        && v'.extracts == v.extracts && (r.Ok? ==> |r.value| > 0)
        && (r.Ok? ==> LastFetchDone(s, v') && r.value == MergeFields(s.fetch(v'.fetches - 1).task))
    {
      FallbackOnce(s, c, fileName, templateId, v);
    }
  }

  /** Three attempts of the workflow make at most 6 uploads and 180 status fetches. */
  lemma RetriedTemplateCalls(s: Script, c: Client, fileName: string, templateId: string, w: World)
    ensures var w' := Retry(TemplateOp(s, c, fileName, templateId), w, MaxRetries, RetryDelay).world;
      && w.uploads <= w'.uploads <= w.uploads + 6
      && w.fetches <= w'.fetches <= w.fetches + 6 * MaxPollAttempts
      && w'.extracts == w.extracts
  {
    var op := TemplateOp(s, c, fileName, templateId);
    var run := Retry(op, w, MaxRetries, RetryDelay);
    TemplateOpBounds(s, c, fileName, templateId);
    RetryShape(op, w, MaxRetries, RetryDelay);
    RetryCounter(op, w, MaxRetries, RetryDelay, (v: World) => v.uploads, 2);
    RetryCounter(op, w, MaxRetries, RetryDelay, (v: World) => v.fetches, 2 * MaxPollAttempts);
    RetryCounter(op, w, MaxRetries, RetryDelay, (v: World) => v.extracts, 0);
    assert run.calls <= 3;
  }

  /** The whole facade makes at most 3 attempts, hence at most 6 uploads and 180 status fetches,
      and never calls the direct extraction endpoint. */
  lemma ExtractInvoiceDataCalls(s: Script, c: Client, fileBuffer: seq<bv8>, fileName: string, invoiceType: string, w: World)
    ensures var w' := ExtractInvoiceDataSpec(s, c, fileBuffer, fileName, invoiceType, w).1;
      && w.uploads <= w'.uploads <= w.uploads + 6
      && w.fetches <= w'.fetches <= w.fetches + 6 * MaxPollAttempts
      && w'.extracts == w.extracts
  {
    var checked := ValidateInputs(fileBuffer, fileName, invoiceType);
    if checked.Ok? {
      RetriedTemplateCalls(s, c, fileName, checked.value, w);
    }
  }

  /** A successful extraction reports the normalised merge of the `DONE` task that the last
      status fetch returned, a non-empty object; it counts its keys and reports their mean
      confidence to two decimals. A failure reports only its message. */
  lemma ExtractInvoiceDataOutcome(s: Script, c: Client, fileBuffer: seq<bv8>, fileName: string, invoiceType: string, w: World)
    ensures var (resp, w') := ExtractInvoiceDataSpec(s, c, fileBuffer, fileName, invoiceType, w);
      && (resp.success ==>
            && ValidateInputs(fileBuffer, fileName, invoiceType).Ok?
            && LastFetchDone(s, w')
            && resp.data == Some(NormalizeAll(MergeFields(s.fetch(w'.fetches - 1).task), None))
            && |resp.data.value| > 0
            && resp.metadata == Some(Metadata(Numbers.Round2(AverageConfidence(resp.data.value)), |resp.data.value|)))
      && (!resp.success ==> resp.error.Some? && resp.data.None? && resp.metadata.None?)
  {
    var checked := ValidateInputs(fileBuffer, fileName, invoiceType);
    if checked.Ok? {
      var op := TemplateOp(s, c, fileName, checked.value);
      TemplateOpBounds(s, c, fileName, checked.value);
      RetryShape(op, w, MaxRetries, RetryDelay);
    }
  }

  /** `extractInvoiceData` as a sequence of calls: the retry loop over the workflow, then the
      normalising loop. */
  method ExtractInvoiceData(s: Script, c: Client, fileBuffer: seq<bv8>, fileName: string, invoiceType: string, w0: World)
    returns (resp: KoncileResponse, w: World)
    ensures (resp, w) == ExtractInvoiceDataSpec(s, c, fileBuffer, fileName, invoiceType, w0)
  {
    var checked := ValidateInputs(fileBuffer, fileName, invoiceType);
    if checked.Err? {
      return Fail(checked.error.message), w0;
    }
    var templateId := checked.value;
    var run := WithRetry(TemplateOp(s, c, fileName, templateId), w0, MaxRetries, RetryDelay);
    w := run.world;
    if run.result.Err? {
      return Fail(run.result.error.message), w;
    }
    var transformed, _ := TransformKoncileResponse(run.result.value, None);
    resp := Succeed(transformed);
  }
}
