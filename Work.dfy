/**
 * The vocabulary the blur app shares with the job-scheduling library it calls
 * into (WorkManager), written as plain data: resource locators, the key/value
 * data passed between jobs, work requests and the chains built from them, the
 * calls the app makes into the library, and the results a worker returns.
 *
 * The library's runtime (how chains are scheduled, replaced, gated, retried
 * and cancelled) is not modelled: a chain, a policy and a unique name are only
 * recorded, never interpreted.
 */
module Work {
  import opened Wrappers

  // ---------------------------------------------------------------------------
  // The app's shared constants. They are declared in the app's Constants.kt,
  // which is not part of this model; the values below stand for them, and no
  // property depends on them beyond being non-empty.

  /** The data key under which one job hands an image locator to the next. */
  const KEY_IMAGE_URI: string := "KEY_IMAGE_URI"

  /** The unique name the blur chain is enqueued and cancelled under. */
  const IMAGE_MANIPULATION_WORK_NAME: string := "image_manipulation_work"

  /** The tag that marks the request whose status the UI observes. */
  const TAG_OUTPUT: string := "OUTPUT"

  // ---------------------------------------------------------------------------
  // Resource locators

  /** An opaque resource locator; it keeps the text it was parsed from. */
  datatype Uri = Uri(text: string) {
    function ToString(): string { text }
  }

  /** `Uri.parse`: wraps the text without interpreting it. */
  function Parse(s: string): Uri
  {
    Uri(s)
  }

  /** `isNullOrEmpty` / `TextUtils.isEmpty`: absent, or present with no characters. */
  predicate IsNullOrEmpty(s: Option<string>) {
    s.None? || s.value == ""
  }

  // ---------------------------------------------------------------------------
  // Job data

  /** The key/value data passed to and returned by a job (string values only). */
  type Data = map<string, string>

  /** `Data.getString`: the value under `key`, or null when there is none. */
  function GetString(d: Data, key: string): Option<string>
  {
    if key in d then Some(d[key]) else None
  }

  /** `workDataOf(key to value)`: data holding that single entry. */
  function WorkDataOf(key: string, value: string): Data
  {
    map[key := value]
  }

  // ---------------------------------------------------------------------------
  // Work requests

  /** The worker class a request runs. */
  datatype WorkerKind = Cleanup | Blur | Save

  /** `setBackoffCriteria`'s policy. */
  datatype BackoffPolicy = Linear | Exponential

  /** `Constraints`: the only gate the app sets is "requires charging". */
  datatype Constraints = Constraints(requiresCharging: bool)

  const NoConstraints: Constraints := Constraints(false)

  /**
   * A one-time work request. `input` is `None` when the builder's
   * `setInputData` was never called; `backoff` is `None` when the library's
   * default backoff is left in place.
   */
  datatype Request = Request(
    kind: WorkerKind,
    input: Option<Data>,
    constraints: Constraints,
    backoff: Option<BackoffPolicy>,
    tags: set<string>)

  /** `OneTimeWorkRequest.from(K)` / a fresh builder for `K`, built unchanged. */
  function OneTimeRequest(kind: WorkerKind): Request
  {
    Request(kind, None, NoConstraints, None, {})
  }

  /** `ExistingWorkPolicy`: what the library does with a running chain of the same name. */
  datatype ExistingWorkPolicy = Replace | Keep | Append

  /** A `WorkContinuation` begun as unique work: its name, policy and requests in order. */
  datatype Continuation = Continuation(
    name: string,
    policy: ExistingWorkPolicy,
    requests: seq<Request>)

  /** `beginUniqueWork(name, policy, first)`. */
  function BeginUniqueWork(name: string, policy: ExistingWorkPolicy, first: Request): Continuation
  {
    Continuation(name, policy, [first])
  }

  /** `continuation.then(next)`: the same chain with `next` run after all of it. */
  function Then(c: Continuation, next: Request): Continuation
  {
    c.(requests := c.requests + [next])
  }

  /** A call the app makes into the library. */
  datatype WorkCall =
    | Enqueue(chain: Continuation)
    | CancelUniqueWork(name: string)

  // ---------------------------------------------------------------------------
  // Worker results

  /** `ListenableWorker.Result`: success and failure carry output data, retry none. */
  datatype WorkResult =
    | Success(outputData: Data)
    | Failure(outputData: Data)
    | Retry
}
