/**
 * Submission-side job rules (G2.Service/Jobs/JobService.cs): daily quota and
 * per-plan concurrency admission with the plan-expiry reset, cancellation,
 * the progress value, visibility and the paginated listings.
 *
 * Every operation that begins a store transaction and returns before
 * committing leaves the store as it was: the transaction is disposed and
 * rolled back, including a SaveChanges made inside it.
 */
module JobService {
  import opened Common
  import opened Text
  import opened Entities
  import opened Access
  import Paging
  import AddJobValidator
  import SSRFChecker
  import G2DbContext

  // ---------------------------------------------------------------------------
  // Admission of a new job

  /** The plan named "free", ignoring case. */
  function FreePlan(plans: seq<Plan>): (r: Option<nat>)
    ensures r.Some? ==> r.value < |plans| && EqualsIgnoreCase(plans[r.value].name, "free")
    ensures r.None? ==> forall k :: 0 <= k < |plans| ==> !EqualsIgnoreCase(plans[k].name, "free")
  {
    FirstIndex(plans, (p: Plan) => EqualsIgnoreCase(p.name, "free"))
  }

  /** A paid plan whose expiration lies before today. */
  predicate PlanExpired(account: User, today: int)
  {
    account.planExpiration.Some? && today > account.planExpiration.value
  }

  /**
   * The account as the quota check sees it: an expired plan is replaced by
   * the free plan and the expiration cleared. None when the free plan is
   * missing (the lookup result is dereferenced).
   */
  function ExpiryReset(account: User, plans: seq<Plan>, today: int): (r: Option<User>)
  {
    if !PlanExpired(account, today) then Some(account)
    else match FreePlan(plans)
      case None => None
      case Some(f) => Some(account.(planId := plans[f].id, planExpiration := None))
  }

  /** The reset changes nothing but the plan and its expiration, and leaves no expired plan behind. */
  lemma ExpiryResetEffect(account: User, plans: seq<Plan>, today: int)
    ensures var r := ExpiryReset(account, plans, today);
      r.Some? ==> (!PlanExpired(r.value, today)
        && r.value.(planId := account.planId, planExpiration := account.planExpiration) == account)
    ensures var r := ExpiryReset(account, plans, today);
      PlanExpired(account, today) ==>
        (r.Some? <==> FreePlan(plans).Some?)
        && (r.Some? ==> r.value.planExpiration.None? && r.value.planId == plans[FreePlan(plans).value].id)
    ensures !PlanExpired(account, today) ==> ExpiryReset(account, plans, today) == Some(account)
  {
  }

  /** With the seeded plans, an expired account falls back to plan 1. */
  lemma ExpiredFallsBackToSeededFree(account: User, createdAt: int, today: int)
    requires PlanExpired(account, today)
    ensures var r := ExpiryReset(account, G2DbContext.PlanSeeds(createdAt), today);
      r.Some? && r.value.planId == 1 && r.value.planExpiration.None?
  {
    var p := G2DbContext.PlanSeeds(createdAt);
    G2DbContext.PlanSeedFacts(createdAt);
    assert ToLower("Free") == "free";
    assert FirstIndex(p, (q: Plan) => EqualsIgnoreCase(q.name, "free")) == Some(0);
  }

  /** A job of this user created today and not deleted: the rows the quota counts. */
  predicate TodaysJob(j: Job, userId: int, today: int)
  {
    DateOf(j.createdAt) == today && j.userId == userId && !j.isDeleted
  }

  function DailyJobs(jobs: seq<Job>, userId: int, today: int): seq<Job>
  {
    Filter(jobs, (j: Job) => TodaysJob(j, userId, today))
  }

  /** Today's jobs that have not completed: the rows the concurrency limit counts. */
  function Running(daily: seq<Job>): (r: seq<Job>)
    ensures |r| <= |daily|
    ensures forall k :: 0 <= k < |r| ==> r[k] in daily && r[k].completedAt.None?
  {
    Filter(daily, (j: Job) => j.completedAt.None?)
  }

  const QuotaMessage: string := "Daily quota has been exceeded. Upgrade plan or try again tomorrow"

  /** The max_concurrent_jobs message, naming the limit that was applied. */
  function ConcurrencyMessage(plan: Plan): string
  {
    plan.name + " only supports " + IntToString(plan.concurrency) + " concurrent jobs"
  }

  /** The message as the source builds it: it prints the plan's daily quota as the concurrency limit. */
  function ConcurrencyMessageAsWritten(plan: Plan): string
  {
    plan.name + " only supports " + IntToString(plan.quota) + " concurrent jobs"
  }

  /**
   * For the seeded Starter plan (quota 10, concurrency 3) the message as
   * written prints "10" where the limit applied is 3.
   */
  lemma ConcurrencyMessageMisstatesLimit(createdAt: int)
    ensures var starter := G2DbContext.PlanSeeds(createdAt)[1];
      starter.name == "Starter" && starter.quota == 10 && starter.concurrency == 3
      && IntToString(starter.quota) == "10" && IntToString(starter.concurrency) == "3"
      && ConcurrencyMessageAsWritten(starter) != ConcurrencyMessage(starter)
  {
    var starter := G2DbContext.PlanSeeds(createdAt)[1];
    SmallNumerals();
    assert |ConcurrencyMessageAsWritten(starter)| == |ConcurrencyMessage(starter)| + 1;
  }

  lemma SmallNumerals()
    ensures IntToString(10) == "10" && IntToString(3) == "3"
  {
    assert NatToString(1) == "1";
    assert NatToString(0) == "0";
  }

  /** Quota first, then concurrency. */
  function Admission(daily: seq<Job>, plan: Plan, referralQuota: int): (r: Response)
  {
    if |daily| >= plan.quota + referralQuota then Response(quota_exceeded, QuotaMessage)
    else if |Running(daily)| >= plan.concurrency then Response(max_concurrent_jobs, ConcurrencyMessage(plan))
    else Response(success, "Success")
  }

  lemma AdmissionIff(daily: seq<Job>, plan: Plan, referralQuota: int)
    ensures Admission(daily, plan, referralQuota).status == success
      <==> |daily| < plan.quota + referralQuota && |Running(daily)| < plan.concurrency
    ensures Admission(daily, plan, referralQuota).status == quota_exceeded
      <==> |daily| >= plan.quota + referralQuota
    ensures Admission(daily, plan, referralQuota).status == max_concurrent_jobs
      <==> |daily| < plan.quota + referralQuota && |Running(daily)| >= plan.concurrency
  {
  }

  /** Where a submission ends before the insert: refused with a response, or admitted for account `index`. */
  datatype Submission = Refused(response: Response) | Accepted(index: nat, account: User)

  /** AddJob up to the insert. */
  function Submit(users: seq<User>, plans: seq<Plan>, jobs: seq<Job>, caller: Caller, errors: seq<string>, today: int): (s: Submission)
    ensures s.Accepted? ==> s.index < |users| && Identified(caller) && users[s.index].id == caller.id.value
  {
    if errors != [] then Refused(Response(invalid_format, "Data not formatted properly"))
    else if !Identified(caller) then Refused(Unauthorised)
    else match FirstIndex(users, (u: User) => u.id == caller.id.value)
      case None => Refused(Unauthorised)
      case Some(i) =>
        match ExpiryReset(users[i], plans, today)
        case None => Refused(Failed)
        case Some(account) =>
          match FirstIndex(plans, (p: Plan) => p.id == account.planId)
          case None => Refused(Failed)
          case Some(j) =>
            var verdict := Admission(DailyJobs(jobs, account.id, today), plans[j], account.referralQuota);
            if verdict.status == success then Accepted(i, account) else Refused(verdict)
  }

  /**
   * An admitted submission leaves today's count within Plan.Quota +
   * ReferralQuota once the new job (created today) is stored.
   */
  lemma AcceptedStaysWithinQuota(users: seq<User>, plans: seq<Plan>, jobs: seq<Job>, caller: Caller,
                                 errors: seq<string>, today: int, newJob: Job)
    requires Submit(users, plans, jobs, caller, errors, today).Accepted?
    requires newJob.userId == caller.id.value && DateOf(newJob.createdAt) == today
    ensures var a := Submit(users, plans, jobs, caller, errors, today).account;
      exists j :: 0 <= j < |plans| && plans[j].id == a.planId
        && |DailyJobs(jobs + [newJob], a.id, today)| <= plans[j].quota + a.referralQuota
  {
    var s := Submit(users, plans, jobs, caller, errors, today);
    var a := s.account;
    var j := FirstIndex(plans, (p: Plan) => p.id == a.planId).value;
    CountWhereSplit(jobs, [newJob], (x: Job) => TodaysJob(x, a.id, today));
    AdmissionIff(DailyJobs(jobs, a.id, today), plans[j], a.referralQuota);
  }

  /** A submission is checked against the plan in force after the expiry reset, never against an expired paid plan. */
  lemma QuotaUsesResetPlan(users: seq<User>, plans: seq<Plan>, jobs: seq<Job>, caller: Caller, errors: seq<string>, today: int)
    requires Submit(users, plans, jobs, caller, errors, today).Accepted?
    ensures var s := Submit(users, plans, jobs, caller, errors, today);
      !PlanExpired(s.account, today)
      && (PlanExpired(users[s.index], today) ==> s.account.planId == plans[FreePlan(plans).value].id)
  {
    var s := Submit(users, plans, jobs, caller, errors, today);
    ExpiryResetEffect(users[s.index], plans, today);
  }

  /** The record AddJob inserts: the submitted URL, Status "Waiting", not deleted, owned by the caller. */
  function NewJob(id: int, url: string, userId: int, now: int): (j: Job)
    ensures j.status == "Waiting" && !j.isDeleted && j.userId == userId && j.url == url && j.createdAt == now
    ensures j.output.None? && j.screenshot.None? && j.startedAt.None? && j.completedAt.None?
  {
    Job(id, url, None, None, "Waiting", userId, false, now, None, None)
  }

  // ---------------------------------------------------------------------------
  // Reads

  /** Visibility: not deleted, and the caller is an admin or owns the job. */
  predicate Visible(j: Job, caller: Caller)
    requires Identified(caller)
  {
    !j.isDeleted && (IsAdmin(caller) || j.userId == caller.id.value)
  }

  /** GetJobById. */
  function GetJobById(jobs: seq<Job>, caller: Caller, id: int): Reply<Job>
  {
    if !Identified(caller) then Reply(Unauthorised, None)
    else match FirstIndex(jobs, (j: Job) => j.id == id && Visible(j, caller))
      case None => Reply(Response(failure, "Job not found"), None)
      case Some(k) => Reply(Response(success, "Success"), Some(jobs[k]))
  }

  lemma JobByIdIff(jobs: seq<Job>, caller: Caller, id: int)
    requires Identified(caller)
    ensures GetJobById(jobs, caller, id).body.Some?
      <==> exists k :: 0 <= k < |jobs| && jobs[k].id == id && Visible(jobs[k], caller)
    ensures var r := GetJobById(jobs, caller, id);
      r.body.Some? ==> r.body.value.id == id && Visible(r.body.value, caller)
  {
  }

  /** The caller's own live job with this id: the lookup CancelJob and the progress endpoint use. */
  function OwnedJob(jobs: seq<Job>, userId: int, id: int): (r: Option<nat>)
    ensures r.Some? ==> r.value < |jobs| && jobs[r.value].id == id && jobs[r.value].userId == userId && !jobs[r.value].isDeleted
    ensures r.None? ==> forall k :: 0 <= k < |jobs| ==> !(jobs[k].id == id && jobs[k].userId == userId && !jobs[k].isDeleted)
  {
    FirstIndex(jobs, (j: Job) => j.id == id && j.userId == userId && !j.isDeleted)
  }

  /** A progress value: a literal percentage, or whatever the "job:status:{id}" cache entry holds. */
  datatype Progress = Percent(value: int) | Cached(entry: Option<string>)

  /** GetJobProgressPercentage. */
  function GetJobProgress(jobs: seq<Job>, cache: map<int, string>, caller: Caller, id: int): Reply<Progress>
  {
    if !Identified(caller) then Reply(Unauthorised, None)
    else match OwnedJob(jobs, caller.id.value, id)
      case None => Reply(Response(failure, "Job not found"), None)
      case Some(k) =>
        var progress :=
          if jobs[k].completedAt.Some? then Percent(100)
          else if jobs[k].status == "Waiting" || jobs[k].status == "Cancelled" then Percent(0)
          else Cached(if id in cache then Some(cache[id]) else None);
        Reply(Response(success, "Success"), Some(progress))
  }

  lemma ProgressCases(jobs: seq<Job>, cache: map<int, string>, caller: Caller, id: int, k: nat)
    requires Identified(caller) && OwnedJob(jobs, caller.id.value, id) == Some(k)
    ensures var p := GetJobProgress(jobs, cache, caller, id).body;
      p.Some?
      && (jobs[k].completedAt.Some? ==> p.value == Percent(100))
      && (jobs[k].completedAt.None? && (jobs[k].status == "Waiting" || jobs[k].status == "Cancelled") ==> p.value == Percent(0))
      && (p.value.Cached? <==> jobs[k].completedAt.None? && jobs[k].status != "Waiting" && jobs[k].status != "Cancelled")
  {
  }

  /** GetUserJobs: the caller's live jobs, newest first, one page of them. */
  function GetUserJobs(jobs: seq<Job>, caller: Caller, page: int, limit: int): Reply<Listing<Job>>
  {
    if !Identified(caller) then Reply(Unauthorised, None)
    else
      var w := Paging.Normalize(page, limit);
      var mine := Filter(jobs, (j: Job) => j.userId == caller.id.value && !j.isDeleted);
      Reply(Response(success, "Success"), Some(Listing(|mine|, Paging.Take(NewestFirst(mine, JobId), w))))
  }

  lemma UserJobsAreOwn(jobs: seq<Job>, caller: Caller, page: int, limit: int)
    requires Identified(caller)
    ensures var r := GetUserJobs(jobs, caller, page, limit).body;
      r.Some?
      && |r.value.items| <= Paging.Normalize(page, limit).limit
      && r.value.totalSize == CountWhere(jobs, (j: Job) => j.userId == caller.id.value && !j.isDeleted)
      && (forall k :: 0 <= k < |r.value.items| ==>
        r.value.items[k] in jobs && r.value.items[k].userId == caller.id.value && !r.value.items[k].isDeleted)
      && Descending(r.value.items, JobId)
  {
    var w := Paging.Normalize(page, limit);
    var mine := Filter(jobs, (j: Job) => j.userId == caller.id.value && !j.isDeleted);
    Paging.NewestPage(mine, JobId, w);
  }

  /** The owner's name or email contains the query, ignoring case; an absent or empty query matches every job. */
  predicate MatchesQuery(users: seq<User>, j: Job, query: Option<string>)
  {
    query.None? || query.value == []
    || match FirstIndex(users, (u: User) => u.id == j.userId)
       case None => false
       case Some(u) => ContainsIgnoreCase(users[u].fullname, query.value) || ContainsIgnoreCase(users[u].email, query.value)
  }

  /** GetJobs (admins): TotalSize counts every live job, whatever the query. */
  function GetJobs(jobs: seq<Job>, users: seq<User>, caller: Caller, page: int, limit: int, query: Option<string>): Reply<Listing<Job>>
  {
    if !IsAdmin(caller) then Reply(Unauthorised, None)
    else
      var w := Paging.Normalize(page, limit);
      var live := Filter(jobs, (j: Job) => !j.isDeleted);
      var hits := Filter(jobs, (j: Job) => !j.isDeleted && MatchesQuery(users, j, query));
      Reply(Response(success, "Success"), Some(Listing(|live|, Paging.Take(NewestFirst(hits, JobId), w))))
  }

  lemma JobsListingAdminOnly(jobs: seq<Job>, users: seq<User>, caller: Caller, page: int, limit: int, query: Option<string>)
    ensures GetJobs(jobs, users, caller, page, limit, query).body.Some? <==> IsAdmin(caller)
    ensures var r := GetJobs(jobs, users, caller, page, limit, query).body;
      r.Some? ==>
        r.value.totalSize == CountWhere(jobs, (j: Job) => !j.isDeleted)
        && |r.value.items| <= Paging.Normalize(page, limit).limit
        && (forall k :: 0 <= k < |r.value.items| ==>
          r.value.items[k] in jobs && !r.value.items[k].isDeleted && MatchesQuery(users, r.value.items[k], query))
        && Descending(r.value.items, JobId)
  {
    if IsAdmin(caller) {
      var w := Paging.Normalize(page, limit);
      var hits := Filter(jobs, (j: Job) => !j.isDeleted && MatchesQuery(users, j, query));
      Paging.NewestPage(hits, JobId, w);
    }
  }

  // ---------------------------------------------------------------------------
  // The service

  /** Row ids strictly increase: the table is kept in primary-key order. */
  predicate Ascending(jobs: seq<Job>)
  {
    forall i, j :: 0 <= i < j < |jobs| ==> jobs[i].id < jobs[j].id
  }

  /** A row keyed above every key in use keeps the table in key order. */
  lemma AppendKeepsAscending(jobs: seq<Job>, created: Job)
    requires Ascending(jobs) && created.id == NextId(jobs, (j: Job) => j.id)
    ensures Ascending(jobs + [created])
  {
  }

  class JobService {
    var jobs: seq<Job>
    var users: seq<User>
    var plans: seq<Plan>
    /** The "job:cancel" cache set. */
    var cancelSet: set<int>
    /** The job queue. */
    var queue: seq<Job>

    ghost predicate Valid()
      reads this
    {
      Ascending(jobs)
    }

    constructor(jobs: seq<Job>, users: seq<User>, plans: seq<Plan>, cancelSet: set<int>, queue: seq<Job>)
      requires Ascending(jobs)
      ensures Valid()
      ensures this.jobs == jobs && this.users == users && this.plans == plans
      ensures this.cancelSet == cancelSet && this.queue == queue
    {
      this.jobs := jobs;
      this.users := users;
      this.plans := plans;
      this.cancelSet := cancelSet;
      this.queue := queue;
    }

    /**
     * AddJob: validate, reset an expired plan, apply the quota and
     * concurrency limits, then store the job and enqueue its copy. A refusal
     * changes nothing, not even the plan reset.
     */
    method AddJob(caller: Caller, url: Option<string>, parsed: Option<SSRFChecker.Uri>,
                  resolved: Option<seq<SSRFChecker.AddressBytes>>, today: int, now: int)
      returns (r: Response, id: Option<int>)
      requires Valid()
      modifies this`jobs, this`users, this`queue
      ensures Valid()
      ensures match Submit(old(users), plans, old(jobs), caller, AddJobValidator.Validate(url, parsed, resolved), today)
        case Refused(resp) =>
          r == resp && id.None? && jobs == old(jobs) && users == old(users) && queue == old(queue)
        case Accepted(i, account) =>
          r == Response(success, "Success") && url.Some?
          && id == Some(NextId(old(jobs), (j: Job) => j.id))
          && users == old(users)[i := account]
          && jobs == old(jobs) + [NewJob(id.value, url.value, caller.id.value, now)]
          && queue == old(queue) + [NewJob(id.value, url.value, caller.id.value, now)]
    {
      var errors := AddJobValidator.Validate(url, parsed, resolved);
      ghost var verdict := Submit(users, plans, jobs, caller, errors, today);
      if errors != [] {
        assert verdict == Refused(Response(invalid_format, "Data not formatted properly"));
        return Response(invalid_format, "Data not formatted properly"), None;
      }
      if !Identified(caller) {
        assert verdict == Refused(Unauthorised);
        return Unauthorised, None;
      }
      var found := FirstIndex(users, (u: User) => u.id == caller.id.value);
      if found.None? {
        assert verdict == Refused(Unauthorised);
        return Unauthorised, None;
      }
      var i := found.value;
      var account := users[i];
      if PlanExpired(account, today) {
        var free := FreePlan(plans);
        if free.None? {
          assert verdict == Refused(Failed);
          return Failed, None;
        }
        account := account.(planId := plans[free.value].id, planExpiration := None);
      }
      assert ExpiryReset(users[i], plans, today) == Some(account);
      var planAt := FirstIndex(plans, (p: Plan) => p.id == account.planId);
      if planAt.None? {
        assert verdict == Refused(Failed);
        return Failed, None;
      }
      var plan := plans[planAt.value];
      var daily := DailyJobs(jobs, account.id, today);
      AdmissionIff(daily, plan, account.referralQuota);
      if |daily| >= plan.quota + account.referralQuota {
        assert verdict == Refused(Response(quota_exceeded, QuotaMessage));
        return Response(quota_exceeded, QuotaMessage), None;
      }
      if |Running(daily)| >= plan.concurrency {
        assert verdict == Refused(Response(max_concurrent_jobs, ConcurrencyMessage(plan)));
        return Response(max_concurrent_jobs, ConcurrencyMessage(plan)), None;
      }
      assert verdict == Accepted(i, account);
      AddJobValidator.AcceptedIff(url, parsed, resolved);
      var newId := Store(i, account, url.value, caller.id.value, now);
      r, id := Response(success, "Success"), Some(newId);
    }

    /** The insert: the reset account, the new job under the next key, and its copy on the queue. */
    method Store(i: nat, account: User, url: string, userId: int, now: int) returns (newId: int)
      requires Valid() && i < |users|
      modifies this`jobs, this`users, this`queue
      ensures Valid()
      ensures newId == NextId(old(jobs), (j: Job) => j.id)
      ensures users == old(users)[i := account]
      ensures jobs == old(jobs) + [NewJob(newId, url, userId, now)]
      ensures queue == old(queue) + [NewJob(newId, url, userId, now)]
    {
      newId := NextId(jobs, (j: Job) => j.id);
      var created := NewJob(newId, url, userId, now);
      AppendKeepsAscending(jobs, created);
      QueueCopyOfLive(created);
      users := users[i := account];
      jobs := jobs + [created];
      queue := queue + [QueueCopy(created)];
    }

    /** CancelJob: marks the caller's own live job "Cancelled" whatever its status and adds its id to the cancel set. */
    method CancelJob(caller: Caller, id: int) returns (r: Response)
      requires Valid()
      modifies this`jobs, this`cancelSet
      ensures Valid()
      ensures !Identified(caller) ==> r == Unauthorised && jobs == old(jobs) && cancelSet == old(cancelSet)
      ensures Identified(caller) ==>
        match OwnedJob(old(jobs), caller.id.value, id)
        case None => r == Failed && jobs == old(jobs) && cancelSet == old(cancelSet)
        case Some(k) =>
          r == Response(success, "Job cancelled")
          && cancelSet == old(cancelSet) + {id}
          && jobs == old(jobs)[k := old(jobs)[k].(status := "Cancelled")]
    {
      if !Identified(caller) {
        return Unauthorised;
      }
      var found := OwnedJob(jobs, caller.id.value, id);
      if found.None? {
        return Failed;
      }
      cancelSet := cancelSet + {id};
      var k := found.value;
      jobs := jobs[k := jobs[k].(status := "Cancelled")];
      r := Response(success, "Job cancelled");
    }
  }

  /** After a cancellation, the job's progress reads 0 until a run completes it. */
  lemma CancelledJobShowsNoProgress(jobs: seq<Job>, cache: map<int, string>, caller: Caller, id: int, k: nat)
    requires Identified(caller) && OwnedJob(jobs, caller.id.value, id) == Some(k)
    requires jobs[k].completedAt.None?
    ensures var after := jobs[k := jobs[k].(status := "Cancelled")];
      GetJobProgress(after, cache, caller, id).body == Some(Percent(0))
  {
    var after := jobs[k := jobs[k].(status := "Cancelled")];
    assert after[k].id == id && after[k].userId == caller.id.value && !after[k].isDeleted;
    assert forall j :: 0 <= j < k ==> after[j] == jobs[j];
  }
}
