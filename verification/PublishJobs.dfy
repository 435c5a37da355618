/** The publish job row and every write the service makes to one. */
module PublishJobs {
  import opened Options

  type JobId = string
  type Platform = string
  type Caption = Option<string>

  datatype Status = Scheduled | Queued | Processing | Published | Failed | Cancelled

  /** What a job publishes: `variantId` or `carouselPostId`, whichever is set. */
  datatype Target = OfVariant(id: string) | OfCarousel(id: string) | Untargeted

  /** `lastError`, by its kind. */
  datatype Failure =
    | NoTarget
    | DependencyGone
    | NeedsReconnect
    | NoQueue(platform: Platform)
    | RemovedOn(platform: Platform)
    | Rejected(message: string)

  datatype Row = Row(
    target: Target,
    account: string,
    platform: Platform,
    status: Status,
    scheduledAt: Option<int>,
    caption: Caption,
    attemptCount: nat,
    externalPostId: Option<string>,
    lastError: Option<Failure>)

  /** `PUBLISH_JOB_OPTIONS.attempts` */
  const ATTEMPTS: nat := 3

  // ---- Creation: the only writes that choose `scheduledAt`, and the only one that sets `Scheduled` ----

  /** The row `publishNow` creates; the request's caption travels in the queue entry only. */
  function Immediate(target: Target, account: string, platform: Platform): Row
  {
    Row(target, account, platform, Queued, None, None, 0, None, None)
  }

  function Future(target: Target, account: string, platform: Platform, at: int, caption: Caption): Row
  {
    Row(target, account, platform, Scheduled, Some(at), caption, 0, None, None)
  }

  // ---- The dispatcher ----

  predicate IsDue(row: Row, now: int)
  {
    row.status == Scheduled && row.scheduledAt.Some? && row.scheduledAt.value <= now
  }

  function Claimed(row: Row): Row { row.(status := Queued) }

  function Unqueueable(row: Row): Row { row.(status := Failed, lastError := Some(NoQueue(row.platform))) }

  // ---- Users, administrators and webhooks ----

  function Withdrawn(row: Row): Row { row.(status := Cancelled) }

  function Requeued(row: Row): Row { row.(status := Queued, lastError := None) }

  predicate Removable(row: Row, platform: Platform, postId: string)
  {
    row.status == Published && row.platform == platform && row.externalPostId == Some(postId)
  }

  function Removed(row: Row): Row { row.(status := Failed, lastError := Some(RemovedOn(row.platform))) }

  // ---- Workers ----

  function Begun(row: Row, attemptsMade: nat): Row { row.(status := Processing, attemptCount := attemptsMade + 1) }

  function Doomed(row: Row, why: Failure): Row { row.(status := Failed, lastError := Some(why)) }

  function PublishedAs(row: Row, postId: string): Row
  {
    row.(status := Published, externalPostId := Some(postId), lastError := None)
  }

  predicate IsFinal(attemptsMade: nat, maxAttempts: nat) { attemptsMade + 1 >= maxAttempts }

  function AttemptFailed(row: Row, message: string, final: bool): Row
  {
    row.(status := if final then Failed else Processing, lastError := Some(Rejected(message)))
  }

  /** An update a worker sends to the database: the fields it sets, whatever the row holds by then. */
  datatype Update =
    | Begin(attemptsMade: nat)
    | Doom(why: Failure)
    | Publish(postId: string)
    | Fail(message: string, final: bool)

  function Applied(row: Row, u: Update): Row
  {
    match u
    case Begin(made) => Begun(row, made)
    case Doom(why) => Doomed(row, why)
    case Publish(id) => PublishedAs(row, id)
    case Fail(message, final) => AttemptFailed(row, message, final)
  }

  function AllApplied(row: Row, us: seq<Update>): Row
  {
    if |us| == 0 then row else Applied(AllApplied(row, us[..|us| - 1]), us[|us| - 1])
  }
}
