/**
 * The persisted records of the service (G2.Infrastructure/Model) and the
 * response envelope every service operation returns. Navigation properties
 * are replaced by the foreign-key ids they follow; row versions are dropped.
 */
module Entities {
  import opened Common

  datatype Header = Header(key: string, value: string)
  datatype Get = Get(key: string, value: string)
  datatype Post = Post(value: Option<string>)
  datatype Technology = Technology(name: string, version: Option<string>)

  /** One crawled URL with everything captured for it. */
  datatype Site = Site(
    url: string,
    requestHeaders: seq<Header>,
    responseHeaders: seq<Header>,
    getParams: seq<Get>,
    postParams: seq<Post>)

  /** The crawl report the engine serializes into Job.Output. */
  datatype Report = Report(sites: seq<Site>, technology: seq<Technology>, ipAddresses: seq<string>)

  datatype Job = Job(
    id: int,
    url: string,
    output: Option<Report>,
    screenshot: Option<string>,
    status: string,
    userId: int,
    isDeleted: bool,
    createdAt: int,
    startedAt: Option<int>,
    completedAt: Option<int>)

  /**
   * The message put on the job queue: the nine fields the services copy from a
   * stored record (Id, Url, UserId, Output, Screenshot, Status, CreatedAt,
   * StartedAt, CompletedAt); IsDeleted takes its default, false.
   */
  function QueueCopy(r: Job): (m: Job)
    ensures !m.isDeleted
  {
    Job(r.id, r.url, r.output, r.screenshot, r.status, r.userId, false, r.createdAt, r.startedAt, r.completedAt)
  }

  /** The queued copy of a live record is the record itself. */
  lemma QueueCopyOfLive(r: Job)
    requires !r.isDeleted
    ensures QueueCopy(r) == r
  {
  }

  /** A header name that is not worth recording; `kind` is "request" or "response". */
  datatype KnownHeader = KnownHeader(id: int, name: string, kind: string, createdAt: int, isDeleted: bool)

  datatype Plan = Plan(
    id: int,
    name: string,
    description: string,
    quota: int,
    concurrency: int,
    price: real,
    discount: real,
    screenshot: bool,
    visualisation: bool,
    aiReport: bool,
    consoleApp: bool,
    isDeleted: bool,
    createdAt: int,
    updatedAt: int)

  datatype Role = Role(id: int, name: string)

  datatype User = User(
    id: int,
    fullname: string,
    email: string,
    passwordHash: Option<string>,
    salt: Option<string>,
    roleId: int,
    provider: Option<string>,
    referralCode: string,
    referralQuota: int,
    authToken: string,
    resetToken: Option<string>,
    resetTokenExpiration: Option<int>,
    refreshToken: Option<string>,
    refreshTokenExpiration: Option<int>,
    isVerified: bool,
    isDisabled: bool,
    planId: int,
    isDeleted: bool,
    planExpiration: Option<int>,
    createdAt: int,
    updatedAt: int)

  /** An account that may use the service: verified, enabled and not deleted. */
  predicate IsActive(u: User)
  {
    u.isVerified && !u.isDisabled && !u.isDeleted
  }

  /** The active account with the given id, as every service looks the caller up. */
  function ActiveAccount(users: seq<User>, id: int): (r: Option<nat>)
    ensures r.Some? ==> r.value < |users| && users[r.value].id == id && IsActive(users[r.value])
    ensures r.None? <==> forall k :: 0 <= k < |users| ==> users[k].id != id || !IsActive(users[k])
  {
    FirstIndex(users, (u: User) => u.id == id && IsActive(u))
  }

  /** User.Plan: the plan row an account points at, deleted or not. */
  function PlanOf(plans: seq<Plan>, planId: int): (r: Option<nat>)
    ensures r.Some? ==> r.value < |plans| && plans[r.value].id == planId
    ensures r.None? <==> forall k :: 0 <= k < |plans| ==> plans[k].id != planId
  {
    FirstIndex(plans, (p: Plan) => p.id == planId)
  }

  datatype PromoCode = PromoCode(
    id: int,
    code: string,
    discount: real,
    usageLimit: int,
    usageCount: int,
    isDeleted: bool,
    createdAt: int,
    expiredAt: Option<int>)

  datatype Transaction = Transaction(
    id: int,
    provider: string,
    reference: string,
    providerReference: string,
    isYearly: bool,
    userId: int,
    planId: int,
    amount: real,
    status: string,
    isDeleted: bool,
    createdAt: int,
    updatedAt: int)

  datatype Message = Message(
    id: int,
    userId: int,
    kind: string,
    title: string,
    body: string,
    jobId: Option<int>,
    transactionId: Option<int>,
    unread: bool,
    isDeleted: bool,
    createdAt: int,
    updatedAt: int)

  datatype AccountVerification = AccountVerification(
    id: int,
    userId: int,
    token: string,
    createdAt: int,
    usedAt: Option<int>,
    expiration: int)

  datatype Referral = Referral(id: int, referrerId: int, referredId: int, createdAt: int)

  /** ResponseStatus, in declaration order. */
  datatype Status =
    | success
    | failure
    | invalid_format
    | unauthorised
    | quota_exceeded
    | max_concurrent_jobs
    | invalid_promo_code
    | expired_promo_code
    | payment_otp_required
    | redirect_for_payment

  /** ResponseBuilder.Send without the body; operations return bodies separately. */
  datatype Response = Response(status: Status, message: string)

  const Failed: Response := Response(failure, "Failed")
  const Unauthorised: Response := Response(unauthorised, "Unauthorised")

  /** A response with its body, when the operation sends one. */
  datatype Reply<T> = Reply(response: Response, body: Option<T>)

  /** TotalSize and the page of Items a listing returns. */
  datatype Listing<T> = Listing(totalSize: int, items: seq<T>)

  // The primary keys the listings order by.
  function JobId(j: Job): int { j.id }
  function UserId(u: User): int { u.id }
  function PromoCodeId(p: PromoCode): int { p.id }
  function TransactionId(t: Transaction): int { t.id }
  function MessageId(m: (Message, User)): int { m.0.id }
}
