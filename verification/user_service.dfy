/**
 * Account self-service and the admin user listing of
 * G2.Service/User/UserService.cs. `now` is the service clock,
 * DateTime.UtcNow.AddHours(1); `today` is DateTime.Today. Generated tokens and
 * password hashes are inputs.
 */
module UserService {
  import opened Common
  import opened Text
  import opened Entities
  import opened Access
  import Paging
  import JobService

  // ---------------------------------------------------------------------------
  // Profile edits

  /** UpdateUser's name check: a missing or empty name passes, any other only with letters and spaces. */
  predicate NameAcceptable(fullname: Option<string>)
  {
    fullname.None? || forall i :: 0 <= i < |fullname.value| ==> IsLetter(fullname.value[i]) || fullname.value[i] == ' '
  }

  lemma NameExamples()
    ensures NameAcceptable(Some("Ada Lovelace")) && NameAcceptable(Some("")) && NameAcceptable(None)
    ensures !NameAcceptable(Some("R2D2")) && !NameAcceptable(Some("Jean-Luc"))
  {
    assert !IsLetter("R2D2"[1]);
    assert !IsLetter("Jean-Luc"[4]);
  }

  /** String.IsNullOrEmpty(Provider): an account registered with a password, not through Google or GitHub. */
  predicate NoProvider(u: User)
  {
    u.provider.None? || u.provider.value == []
  }

  /**
   * UpdateUser's assignments: the name when one is sent, the email when one
   * is sent and the account has no provider, and UpdatedAt.
   */
  function Updated(u: User, fullname: Option<string>, email: Option<string>, now: int): (r: User)
    ensures r == u.(fullname := r.fullname, email := r.email, updatedAt := now)
    ensures r.fullname == (if fullname.Some? then fullname.value else u.fullname)
    ensures r.email == (if NoProvider(u) && email.Some? then email.value else u.email)
  {
    u.(fullname := if fullname.Some? then fullname.value else u.fullname,
       email := if NoProvider(u) && email.Some? then email.value else u.email,
       updatedAt := now)
  }

  /** A Google or GitHub account keeps its email, and an empty-handed update changes only UpdatedAt. */
  lemma UpdateLaws(u: User, fullname: Option<string>, email: Option<string>, now: int)
    ensures !NoProvider(u) ==> Updated(u, fullname, email, now).email == u.email
    ensures Updated(u, None, None, now) == u.(updatedAt := now)
    ensures Updated(Updated(u, fullname, email, now), fullname, email, now) == Updated(u, fullname, email, now)
  {
  }

  // ---------------------------------------------------------------------------
  // Profile

  /** The body GetMyProfile answers with. */
  datatype Profile = Profile(planId: int, planName: string, quota: int, quotaUsed: nat, planExpiration: Option<int>)

  /** The jobs the profile counts: the user's, created today, deleted ones included. */
  predicate CreatedToday(j: Job, userId: int, today: int)
  {
    j.userId == userId && DateOf(j.createdAt) == today
  }

  function GetMyProfile(users: seq<User>, plans: seq<Plan>, jobs: seq<Job>, caller: Caller, today: int): Reply<Profile>
  {
    if !Identified(caller) then Reply(Unauthorised, None)
    else match ActiveAccount(users, caller.id.value)
      case None => Reply(Failed, None)
      case Some(i) =>
        match PlanOf(plans, users[i].planId)
        case None => Reply(Failed, None)
        case Some(p) =>
          var used := CountWhere(jobs, (j: Job) => CreatedToday(j, caller.id.value, today));
          Reply(Response(success, "Success"),
                Some(Profile(plans[p].id, plans[p].name, plans[p].quota + users[i].referralQuota, used, users[i].planExpiration)))
  }

  /**
   * The profile's quota is the plan's plus the referral bonus, and its usage
   * is today's jobs of the caller; since it also counts deleted jobs, it is
   * never below the count the job-submission quota check uses.
   */
  lemma ProfileQuota(users: seq<User>, plans: seq<Plan>, jobs: seq<Job>, caller: Caller, today: int)
    requires GetMyProfile(users, plans, jobs, caller, today).body.Some?
    ensures var r := GetMyProfile(users, plans, jobs, caller, today).body.value;
      Identified(caller) && ActiveAccount(users, caller.id.value).Some?
      && var u := users[ActiveAccount(users, caller.id.value).value];
      PlanOf(plans, u.planId).Some?
      && r.quota == plans[PlanOf(plans, u.planId).value].quota + u.referralQuota
      && r.planId == u.planId
      && r.quotaUsed == CountWhere(jobs, (j: Job) => CreatedToday(j, caller.id.value, today))
      && r.quotaUsed >= |JobService.DailyJobs(jobs, caller.id.value, today)|
  {
    var id := caller.id.value;
    CountWhereMonotone(jobs, (j: Job) => JobService.TodaysJob(j, id, today), (j: Job) => CreatedToday(j, id, today));
  }

  // ---------------------------------------------------------------------------
  // Admin listing

  /** The provider filter (ignoring case) and the name-or-email search; absent or empty means no filter. */
  predicate Listed(u: User, provider: Option<string>, query: Option<string>)
  {
    !u.isDeleted
    && (provider.None? || provider.value == [] || (u.provider.Some? && EqualsIgnoreCase(u.provider.value, provider.value)))
    && (query.None? || query.value == []
        || ContainsIgnoreCase(u.fullname, query.value) || ContainsIgnoreCase(u.email, query.value))
  }

  /** GetUsers (admins): TotalSize counts every live account, whatever the filters. */
  function GetUsers(users: seq<User>, caller: Caller, page: int, limit: int, provider: Option<string>,
                    query: Option<string>): Reply<Listing<User>>
  {
    if !IsAdmin(caller) then Reply(Unauthorised, None)
    else
      var w := Paging.Normalize(page, limit);
      var live := Filter(users, (u: User) => !u.isDeleted);
      var hits := Filter(users, (u: User) => Listed(u, provider, query));
      Reply(Response(success, "Success"), Some(Listing(|live|, Paging.Take(NewestFirst(hits, UserId), w))))
  }

  lemma UsersListingAdminOnly(users: seq<User>, caller: Caller, page: int, limit: int, provider: Option<string>,
                              query: Option<string>)
    ensures GetUsers(users, caller, page, limit, provider, query).body.Some? <==> IsAdmin(caller)
    ensures var r := GetUsers(users, caller, page, limit, provider, query).body;
      r.Some? ==>
        r.value.totalSize == CountWhere(users, (u: User) => !u.isDeleted)
        && |r.value.items| <= Paging.Normalize(page, limit).limit
        && (forall k :: 0 <= k < |r.value.items| ==> r.value.items[k] in users && Listed(r.value.items[k], provider, query))
        && Descending(r.value.items, UserId)
  {
    if IsAdmin(caller) {
      var w := Paging.Normalize(page, limit);
      var hits := Filter(users, (u: User) => Listed(u, provider, query));
      Paging.NewestPage(hits, UserId, w);
    }
  }

  // ---------------------------------------------------------------------------
  // The service

  class UserService {
    var users: seq<User>

    constructor(us: seq<User>)
      ensures users == us
    {
      users := us;
    }

    method UpdateUser(caller: Caller, fullname: Option<string>, email: Option<string>, now: int) returns (r: Response)
      modifies this
      ensures !Identified(caller) ==> r == Unauthorised && users == old(users)
      ensures Identified(caller) && !NameAcceptable(fullname) ==>
        r == Response(invalid_format, "Name cannot contain numbers") && users == old(users)
      ensures Identified(caller) && NameAcceptable(fullname) ==> match ActiveAccount(old(users), caller.id.value)
        case None => r == Failed && users == old(users)
        case Some(i) => (r == Response(success, "Account updated")
          && users == old(users)[i := Updated(old(users)[i], fullname, email, now)])
    {
      if !Identified(caller) {
        return Unauthorised;
      }
      if !NameAcceptable(fullname) {
        return Response(invalid_format, "Name cannot contain numbers");
      }
      var found := ActiveAccount(users, caller.id.value);
      if found.None? {
        return Failed;
      }
      var i := found.value;
      var u := users[i];
      if fullname.Some? {
        u := u.(fullname := fullname.value);
      }
      if NoProvider(u) && email.Some? {
        u := u.(email := email.value);
      }
      u := u.(updatedAt := now);
      users := users[i := u];
      return Response(success, "Account updated");
    }

    /** ResetPassword: only a verified, enabled, live account without a provider gets the new hash and salt. */
    method ResetPassword(caller: Caller, valid: bool, hash: string, salt: string, now: int) returns (r: Response)
      modifies this
      ensures !valid ==> r.status == invalid_format && users == old(users)
      ensures valid && !Identified(caller) ==> r == Unauthorised && users == old(users)
      ensures valid && Identified(caller) ==>
        match FirstIndex(old(users), (u: User) => u.id == caller.id.value && IsActive(u) && NoProvider(u))
        case None => r == Failed && users == old(users)
        case Some(i) => (r == Response(success, "Success")
          && users == old(users)[i := old(users)[i].(passwordHash := Some(hash), salt := Some(salt), updatedAt := now)])
      ensures forall k :: 0 <= k < |users| && users[k] != old(users)[k] ==>
        IsActive(old(users)[k]) && NoProvider(old(users)[k])
    {
      if !valid {
        return Response(invalid_format, "Data not formatted properly");
      }
      if !Identified(caller) {
        return Unauthorised;
      }
      var found := FirstIndex(users, (u: User) => u.id == caller.id.value && IsActive(u) && NoProvider(u));
      if found.None? {
        return Failed;
      }
      var i := found.value;
      users := users[i := users[i].(passwordHash := Some(hash), salt := Some(salt), updatedAt := now)];
      return Response(success, "Success");
    }

    /** RegenerateAuthToken: the active caller's AuthToken becomes `token` (a fresh GUID). */
    method RegenerateAuthToken(caller: Caller, token: string, now: int) returns (r: Response, issued: Option<string>)
      modifies this
      ensures !Identified(caller) ==> r == Unauthorised && issued.None? && users == old(users)
      ensures Identified(caller) ==> match ActiveAccount(old(users), caller.id.value)
        case None => r == Failed && issued.None? && users == old(users)
        case Some(i) => (r == Response(success, "Success") && issued == Some(token)
          && users == old(users)[i := old(users)[i].(authToken := token, updatedAt := now)])
    {
      if !Identified(caller) {
        return Unauthorised, None;
      }
      var found := ActiveAccount(users, caller.id.value);
      if found.None? {
        return Failed, None;
      }
      var i := found.value;
      users := users[i := users[i].(authToken := token, updatedAt := now)];
      return Response(success, "Success"), Some(token);
    }

    /**
     * DeactivateAccount; `disable` defaults to true, and a null value throws.
     * The lookup skips disabled accounts, so no call ever re-enables one.
     */
    method DeactivateAccount(caller: Caller, disable: Option<bool>, now: int) returns (r: Response)
      modifies this
      ensures !Identified(caller) ==> r == Unauthorised && users == old(users)
      ensures Identified(caller) ==> match ActiveAccount(old(users), caller.id.value)
        case None => r == Failed && users == old(users)
        case Some(i) =>
          if disable.None? then r == Failed && users == old(users)
          else (r == Response(success, "Account updated")
            && users == old(users)[i := old(users)[i].(isDisabled := disable.value, updatedAt := now)])
      ensures forall k :: 0 <= k < |users| && old(users)[k].isDisabled ==> users[k].isDisabled
    {
      if !Identified(caller) {
        return Unauthorised;
      }
      var found := ActiveAccount(users, caller.id.value);
      if found.None? {
        return Failed;
      }
      if disable.None? {
        return Failed;
      }
      var i := found.value;
      users := users[i := users[i].(isDisabled := disable.value, updatedAt := now)];
      return Response(success, "Account updated");
    }
  }
}
