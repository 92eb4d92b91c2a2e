/**
 * The download operations widget: a file-id field, a check-availability
 * action, an initiate-download action that records a locally built job at
 * the front of an in-memory job list, and the status colour of a job.
 */
module DownloadJobList {
  import opened Fetch
  import opened Decimal

  datatype JobStatus = Pending | Processing | Completed | Failed

  /** The status label a job carries: one of the four labels of the status union, distinct per status. */
  function StatusName(s: JobStatus): (name: string)
    ensures name in {"pending", "processing", "completed", "failed"}
    ensures name == "pending" <==> s == Pending
    ensures name == "processing" <==> s == Processing
    ensures name == "completed" <==> s == Completed
  {
    match s
    case Pending => "pending"
    case Processing => "processing"
    case Completed => "completed"
    case Failed => "failed"
  }

  datatype DownloadJob = DownloadJob(
    id: string,
    fileId: nat,
    status: JobStatus,
    createdAt: string,
    completedAt: Option<string>,
    downloadUrl: Option<string>,
    error: Option<string>)

  /** The file-id field, already parsed: empty, or a natural number. */
  datatype FileIdField = Empty | FileId(id: nat)

  /** The decoded `/v1/download/check` body. */
  datatype CheckBody = CheckBody(available: bool, size: nat, message: Option<string>)

  /** The decoded `/v1/download/initiate` body. */
  datatype InitiateBody = InitiateBody(jobId: Option<string>, message: Option<string>)

  /** The widget's state cells. */
  datatype DownloadView = DownloadView(jobs: seq<DownloadJob>, fileId: FileIdField, loading: bool, message: string)

  const ERROR_PREFIX := "❌ Error: "
  const REQUEST_FAILED := "Request failed"

  /** The state on mount: no jobs, the field holding 70000, idle, no message. */
  function Initial(): (v: DownloadView)
    ensures v.jobs == [] && v.fileId == FileId(70000) && !v.loading && v.message == ""
  {
    DownloadView([], FileId(70000), false, "")
  }

  /** `getStatusColor`: a total map from any status label to one of four colour classes. */
  function StatusColor(status: string): (c: string)
    ensures c in {"success", "error", "warning", "info"}
    ensures c == "success" <==> status == "completed"
    ensures c == "error" <==> status == "failed"
    ensures c == "warning" <==> status == "processing"
    ensures c == "info" <==> status !in {"completed", "failed", "processing"}
  {
    if status == "completed" then "success"
    else if status == "failed" then "error"
    else if status == "processing" then "warning"
    else "info"
  }

  /** Every job status has its own colour; a pending job is shown as info. */
  lemma StatusColors(s: JobStatus)
    ensures StatusColor(StatusName(s)) ==
      match s
      case Pending => "info"
      case Processing => "warning"
      case Completed => "success"
      case Failed => "error"
  {
  }

  /**
   * The text after "❌ Error: " when a call to the download API does not
   * succeed: the message of what `fetch` or `response.json()` threw, or,
   * for a status outside 200-299, the server's message or "Request failed".
   * `None` when the call succeeded.
   */
  function FailureDetail<T>(fetch: FetchResult, json: Parsed<T>, serverMessage: Option<string>): (d: Option<string>)
    ensures d.None? <==> fetch.Resolved? && json.Parsed? && Ok(fetch.status)
    ensures fetch.Rejected? ==> d == Some(ThrownMessage(fetch.thrown))
    ensures fetch.Resolved? && json.ParseFailed? ==> d == Some(ThrownMessage(json.thrown))
    ensures fetch.Resolved? && json.Parsed? && !Ok(fetch.status) ==>
      d == Some(if Truthy(serverMessage) then serverMessage.value else REQUEST_FAILED)
  {
    match fetch
    case Rejected(t) => Some(ThrownMessage(t))
    case Resolved(status) =>
      match json
      case ParseFailed(t) => Some(ThrownMessage(t))
      case Parsed(_) => if Ok(status) then None else Some(OrElse(serverMessage, REQUEST_FAILED))
  }

  /** The body's `message` field, when there is a body. */
  function CheckBodyMessage(json: Parsed<CheckBody>): Option<string> {
    if json.Parsed? then json.value.message else None
  }

  function InitiateBodyMessage(json: Parsed<InitiateBody>): Option<string> {
    if json.Parsed? then json.value.message else None
  }

  /**
   * The state after `checkFileAvailability`. An empty field changes
   * nothing. Otherwise the job list and the field are untouched, loading
   * ends off, and the message reports availability on success or starts
   * with "❌ Error: " on failure. `formatBytes` renders the reported size.
   */
  function AfterCheck(v: DownloadView, fetch: FetchResult, json: Parsed<CheckBody>, formatBytes: nat -> string): (w: DownloadView)
    ensures w.jobs == v.jobs && w.fileId == v.fileId
    ensures v.fileId.Empty? ==> w == v
    ensures v.fileId.FileId? ==> !w.loading
    ensures v.fileId.FileId? ==>
      var idText := NatToString(v.fileId.id);
      match FailureDetail(fetch, json, CheckBodyMessage(json))
      case Some(detail) => w.message == ERROR_PREFIX + detail
      case None =>
        w.message == if json.value.available
          then "✅ File " + idText + " is available! Size: " + formatBytes(json.value.size)
          else "❌ File " + idText + " is not available"
  {
    match v.fileId
    case Empty => v
    case FileId(id) =>
      var message :=
        match FailureDetail(fetch, json, CheckBodyMessage(json))
        case Some(detail) => ERROR_PREFIX + detail
        case None =>
          if json.value.available
          then "✅ File " + NatToString(id) + " is available! Size: " + formatBytes(json.value.size)
          else "❌ File " + NatToString(id) + " is not available";
      v.(loading := false, message := message)
  }

  /** `data.job_id || `job_${Date.now()}``: the server's id when truthy, else a clock-based fallback. */
  function JobId(serverId: Option<string>, now: nat): (id: string)
    ensures Truthy(serverId) ==> id == serverId.value
    ensures !Truthy(serverId) ==> id == "job_" + NatToString(now)
  {
    OrElse(serverId, "job_" + NatToString(now))
  }

  /** The job a successful initiation records: pending, nothing completed yet. */
  function NewJob(id: string, fileId: nat, createdAt: string): (j: DownloadJob)
    ensures j.id == id && j.fileId == fileId && j.status == Pending && j.createdAt == createdAt
    ensures j.completedAt.None? && j.downloadUrl.None? && j.error.None?
  {
    DownloadJob(id, fileId, Pending, createdAt, None, None, None)
  }

  /**
   * The state after `initiateDownload`, which completed at clock `now`
   * (`createdAt` is that instant as an ISO string). An empty field changes
   * nothing. On success exactly one new pending job for the field's id is
   * put at the front of the list, the older jobs follow unchanged and in
   * order, and the message names the new job; on failure the list is
   * unchanged and the message starts with "❌ Error: ". Loading ends off.
   */
  function AfterInitiate(v: DownloadView, fetch: FetchResult, json: Parsed<InitiateBody>, now: nat, createdAt: string): (w: DownloadView)
    ensures w.fileId == v.fileId
    ensures v.fileId.Empty? ==> w == v
    ensures v.fileId.FileId? ==> !w.loading
    ensures v.fileId.FileId? ==>
      match FailureDetail(fetch, json, InitiateBodyMessage(json))
      case Some(detail) => w.jobs == v.jobs && w.message == ERROR_PREFIX + detail
      case None =>
        var job := NewJob(JobId(json.value.jobId, now), v.fileId.id, createdAt);
        w.jobs == [job] + v.jobs &&
        w.message == "✅ Download initiated! Job ID: " + job.id
  {
    match v.fileId
    case Empty => v
    case FileId(id) =>
      match FailureDetail(fetch, json, InitiateBodyMessage(json))
      case Some(detail) => v.(loading := false, message := ERROR_PREFIX + detail)
      case None =>
        var job := NewJob(JobId(json.value.jobId, now), id, createdAt);
        v.(jobs := [job] + v.jobs, loading := false, message := "✅ Download initiated! Job ID: " + job.id)
  }

  /** The widget's state cells, updated in place by its two actions. */
  class DownloadJobs {
    var jobs: seq<DownloadJob>
    var fileId: FileIdField
    var loading: bool
    var message: string

    function View(): DownloadView
      reads this
    {
      DownloadView(jobs, fileId, loading, message)
    }

    constructor ()
      ensures View() == Initial()
    {
      jobs := [];
      fileId := FileId(70000);
      loading := false;
      message := "";
    }

    /** The field's `onChange`: only the field changes. */
    method SetFileId(f: FileIdField)
      modifies this
      ensures View() == old(View()).(fileId := f)
    {
      fileId := f;
    }

    /** `checkFileAvailability`: guard, set loading and clear the message, report, reset loading. */
    method CheckFileAvailability(fetch: FetchResult, json: Parsed<CheckBody>, formatBytes: nat -> string)
      modifies this
      ensures View() == AfterCheck(old(View()), fetch, json, formatBytes)
    {
      if fileId.Empty? {
        return;
      }
      loading := true;
      message := "";
      match FailureDetail(fetch, json, CheckBodyMessage(json)) {
        case Some(detail) =>
          message := ERROR_PREFIX + detail;
        case None =>
          var idText := NatToString(fileId.id);
          message := if json.value.available
            then "✅ File " + idText + " is available! Size: " + formatBytes(json.value.size)
            else "❌ File " + idText + " is not available";
      }
      loading := false;
    }

    /** `initiateDownload`: guard, set loading and clear the message, record the job or the error, reset loading. */
    method InitiateDownload(fetch: FetchResult, json: Parsed<InitiateBody>, now: nat, createdAt: string)
      modifies this
      ensures View() == AfterInitiate(old(View()), fetch, json, now, createdAt)
    {
      if fileId.Empty? {
        return;
      }
      loading := true;
      message := "";
      match FailureDetail(fetch, json, InitiateBodyMessage(json)) {
        case Some(detail) =>
          message := ERROR_PREFIX + detail;
        case None =>
          var job := NewJob(JobId(json.value.jobId, now), fileId.id, createdAt);
          jobs := [job] + jobs;
          message := "✅ Download initiated! Job ID: " + job.id;
      }
      loading := false;
    }
  }

  /** One user interaction, with the outcomes of its calls and the clock at its completion. */
  datatype Action =
    | Edit(field: FileIdField)
    | Check(fetch: FetchResult, checkJson: Parsed<CheckBody>, formatBytes: nat -> string)
    | Initiate(fetch: FetchResult, initiateJson: Parsed<InitiateBody>, now: nat, createdAt: string)

  /** The state after one interaction: `SetFileId`, `CheckFileAvailability` or `InitiateDownload`. */
  function Step(v: DownloadView, a: Action): DownloadView {
    match a
    case Edit(f) => v.(fileId := f)
    case Check(fetch, json, formatBytes) => AfterCheck(v, fetch, json, formatBytes)
    case Initiate(fetch, json, now, createdAt) => AfterInitiate(v, fetch, json, now, createdAt)
  }

  /** The state after the interactions of `acts`, in order. */
  function Run(v: DownloadView, acts: seq<Action>): DownloadView
    decreases |acts|
  {
    if acts == [] then v else Run(Step(v, acts[0]), acts[1..])
  }

  /** The field after the interactions of `acts`, starting from `f`: only edits change it. */
  function FieldAfter(f: FileIdField, acts: seq<Action>): FileIdField
    decreases |acts|
  {
    if acts == [] then f
    else FieldAfter(if acts[0].Edit? then acts[0].field else f, acts[1..])
  }

  /**
   * The jobs that the successful initiations of `acts` record, newest
   * first, starting with the field holding `f`: an initiation records a job
   * for the id the field holds at that moment, and nothing when it is empty.
   */
  function RecordedJobs(f: FileIdField, acts: seq<Action>): seq<DownloadJob>
    decreases |acts|
  {
    if acts == [] then []
    else
      var a := acts[0];
      var f' := if a.Edit? then a.field else f;
      var rest := RecordedJobs(f', acts[1..]);
      if a.Initiate? && f.FileId? && FailureDetail(a.fetch, a.initiateJson, InitiateBodyMessage(a.initiateJson)).None?
      then rest + [NewJob(JobId(a.initiateJson.value.jobId, a.now), f.id, a.createdAt)]
      else rest
  }

  /**
   * Over any interaction, the job list is the newly recorded jobs in
   * reverse order of completion, each for the id the field held when it
   * was initiated, followed by the jobs that were there before: the list
   * only grows at the front, by at most one job per interaction, and no
   * job is ever removed, reordered or changed.
   */
  lemma {:induction false} JobsAreReverseChronological(v: DownloadView, acts: seq<Action>)
    ensures Run(v, acts).jobs == RecordedJobs(v.fileId, acts) + v.jobs
    ensures Run(v, acts).fileId == FieldAfter(v.fileId, acts)
    ensures |RecordedJobs(v.fileId, acts)| <= |acts|
    decreases |acts|
  {
    if acts != [] {
      JobsAreReverseChronological(Step(v, acts[0]), acts[1..]);
    }
  }
}
