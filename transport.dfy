/** The Koncile.ai HTTP service seen from the client: each endpoint answers its n-th call with a
    scripted reply, and a `World` value records how many calls each endpoint received, the
    requests sent, and the delays waited with `setTimeout`. Effectful operations take a world and
    return the next one. */
module Transport {
  import opened Wrappers
  import opened JsObject
  import opened Fields
  import Text

  /** An axios error as the catch blocks read it: `error.code`, `error.response?.status`
      (0 when there is no response), `error.response?.data` ("" when absent or empty) and
      `error.message`. */
  datatype AxiosError = AxiosError(code: string, status: nat, data: string, message: string)

  /** `error.response?.status || 'Network Error'` and `error.response?.data || error.message`,
      the two parts of the message both clients build from an axios error. */
  function StatusText(e: AxiosError): string {
    if e.status == 0 then "Network Error" else Text.NatToString(e.status)
  }

  function DetailText(e: AxiosError): string {
    if e.data != "" then e.data else e.message
  }

  /** What `POST /v1/upload_file/` produces: the `task_ids` of the response, an axios error, or
      another thrown error (a missing `task_ids` makes reading the response throw a `TypeError`). */
  datatype UploadReply =
    | TaskIds(ids: seq<string>)
    | UploadAxiosError(err: AxiosError)
    | UploadThrown(message: string)

  /** `KoncileTaskResponse.status`. */
  datatype TaskStatus = Done | Duplicate | InProgress | Failed

  /** An entry of `General_fields` or of a `Line_fields` list. */
  datatype ServiceField = ServiceField(value: Option<string>, confidenceScore: Option<real>)

  /** The parsed body of `GET /v1/fetch_tasks_results/`; `statusMessage` "" stands for an absent
      `status_message`. */
  datatype TaskResult = TaskResult(
    status: TaskStatus,
    statusMessage: string,
    generalFields: Option<Obj<ServiceField>>,
    lineFields: Option<Obj<seq<ServiceField>>>)

  /** What one status fetch produces: a thrown error (network or JSON parse), a response that is
      not `ok`, or a parsed task. */
  datatype FetchReply =
    | FetchThrown(message: string)
    | NotOk(status: nat)
    | Json(task: TaskResult)

  /** What `POST /api/templates/{id}/extract/` produces. */
  datatype ExtractReply =
    | ExtractData(data: Obj<RawValue>)
    | ExtractAxiosError(err: AxiosError)
    | ExtractThrown(message: string)

  /** The reply of each endpoint to its n-th call. */
  datatype Script = Script(upload: nat -> UploadReply, fetch: nat -> FetchReply, extract: nat -> ExtractReply)

  /** A request as sent on the wire: its URL and, for uploads, the multipart file name. */
  datatype Request =
    | UploadRequest(url: string, fileName: string)
    | FetchRequest(url: string)
    | ExtractRequest(url: string, fileName: string)

  datatype World = World(uploads: nat, fetches: nat, extracts: nat, requests: seq<Request>, sleeps: seq<nat>)

  /** `await new Promise(resolve => setTimeout(resolve, ms))`. */
  function Sleep(w: World, ms: nat): World
  {
    w.(sleeps := w.sleeps + [ms])
  }

  /** Sends an upload; the reply is the script's answer to this call. */
  function CallUpload(s: Script, w: World, url: string, fileName: string): (UploadReply, World)
  {
    (s.upload(w.uploads), w.(uploads := w.uploads + 1, requests := w.requests + [UploadRequest(url, fileName)]))
  }

  function CallFetch(s: Script, w: World, url: string): (FetchReply, World)
  {
    (s.fetch(w.fetches), w.(fetches := w.fetches + 1, requests := w.requests + [FetchRequest(url)]))
  }

  function CallExtract(s: Script, w: World, url: string, fileName: string): (ExtractReply, World)
  {
    (s.extract(w.extracts), w.(extracts := w.extracts + 1, requests := w.requests + [ExtractRequest(url, fileName)]))
  }
}
