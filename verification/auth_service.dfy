/**
 * Account rules of G2.Service/Authentication/AuthService.cs: the login and
 * verification fail counters with their lockout, the login itself, account
 * verification, and registration with its referral bonus.
 *
 * Clock: `now` is the service clock, DateTime.UtcNow.AddHours(1), which is
 * also the value every record is stamped with; a bare DateTime.UtcNow is
 * `now - Hour`. Fail counters live in the cache under the keys below; every
 * value the service writes there is an integer, so the cache is a map to
 * integers and a key that was never written (or has expired) is absent.
 */
module AuthService {
  import opened Common
  import opened Text
  import opened Entities

  /** login:fail:{id}, login:lockout:{id}, verification:fail:{id}, verification:lockout:{id}. */
  datatype CacheKey =
    | LoginFail(userId: int)
    | LoginLockout(userId: int)
    | VerificationFail(userId: int)
    | VerificationLockout(userId: int)

  const MaxLoginAttempts: int := 5

  const InvalidCredentials: Response := Response(failure, "Invalid email or password")

  // ---------------------------------------------------------------------------
  // Fail counter and lockout

  /**
   * One failed attempt: the first sets the counter to 1, later ones
   * increment it, and the lockout key is set once the counter reaches
   * MaxLoginAttempts.
   */
  function RecordFailure(cache: map<CacheKey, int>, fail: CacheKey, lockout: CacheKey): (c: map<CacheKey, int>)
    requires fail != lockout
    ensures fail in c && c.Keys <= cache.Keys + {fail, lockout}
    ensures forall k :: k in cache && k != fail && k != lockout ==> k in c && c[k] == cache[k]
  {
    if fail !in cache then cache[fail := 1]
    else
      var count := cache[fail] + 1;
      if count >= MaxLoginAttempts then cache[fail := count][lockout := 1] else cache[fail := count]
  }

  /** `n` failed attempts in a row. */
  function Failures(cache: map<CacheKey, int>, fail: CacheKey, lockout: CacheKey, n: nat): map<CacheKey, int>
    requires fail != lockout
  {
    if n == 0 then cache else RecordFailure(Failures(cache, fail, lockout, n - 1), fail, lockout)
  }

  /**
   * From a clean cache, after `n` failures the counter reads `n`, and the
   * lockout key is set exactly from the fifth failure on.
   */
  lemma {:induction false} LockoutAfterFiveFailures(cache: map<CacheKey, int>, fail: CacheKey, lockout: CacheKey, n: nat)
    requires fail != lockout && fail !in cache && lockout !in cache
    ensures var c := Failures(cache, fail, lockout, n);
      (n >= 1 ==> fail in c && c[fail] == n) && (lockout in c <==> n >= MaxLoginAttempts)
  {
    if n > 0 {
      LockoutAfterFiveFailures(cache, fail, lockout, n - 1);
    }
  }

  // ---------------------------------------------------------------------------
  // Login

  /** Email equal ignoring case, enabled, not deleted and verified. */
  function ActiveUser(users: seq<User>, email: string): (r: Option<nat>)
    ensures r.Some? ==> (r.value < |users| && EqualsIgnoreCase(users[r.value].email, email)
      && !users[r.value].isDisabled && !users[r.value].isDeleted && users[r.value].isVerified)
    ensures r.None? ==> forall k :: 0 <= k < |users| ==>
      !(EqualsIgnoreCase(users[k].email, email) && !users[k].isDisabled && !users[k].isDeleted && users[k].isVerified)
  {
    FirstIndex(users, (u: User) => EqualsIgnoreCase(u.email, email) && !u.isDisabled && !u.isDeleted && u.isVerified)
  }

  /** The user's role row (Include "Role"). */
  function RoleOf(roles: seq<Role>, roleId: int): (r: Option<Role>)
    ensures r.Some? ==> r.value in roles && r.value.id == roleId
  {
    match FirstIndex(roles, (x: Role) => x.id == roleId)
    case None => None
    case Some(k) => Some(roles[k])
  }

  /** How a login attempt ends. */
  datatype LoginVerdict =
    | Invalid                  // the single "Invalid email or password" answer
    | CountFailure(userId: int) // wrong password: counted, then the same answer
    | Fault                    // an exception caught as "Failed": no salt or hash to check against, or no role row
    | Grant(index: nat)

  function LoginDecision(users: seq<User>, roles: seq<Role>, cache: map<CacheKey, int>,
                 email: string, passwordOk: bool, mobile: bool): LoginVerdict
  {
    match ActiveUser(users, email)
    case None => Invalid
    case Some(i) =>
      if LoginLockout(users[i].id) in cache then Invalid
      else if users[i].salt.None? || users[i].passwordHash.None? then Fault
      else if !passwordOk then CountFailure(users[i].id)
      else match RoleOf(roles, users[i].roleId)
        case None => Fault
        case Some(role) =>
          if mobile && !ContainsIgnoreCase(role.name, "admin") then Invalid
          else Grant(i)
  }

  /**
   * A login is granted only to an active account that is not locked out,
   * has a stored salt and hash, with the right password, and on mobile only
   * to a role containing "admin"; a locked account is refused whatever the
   * password.
   */
  lemma LoginGrantedIff(users: seq<User>, roles: seq<Role>, cache: map<CacheKey, int>,
                        email: string, passwordOk: bool, mobile: bool)
    ensures var v := LoginDecision(users, roles, cache, email, passwordOk, mobile);
      v.Grant? <==>
        ActiveUser(users, email).Some?
        && LoginLockout(users[ActiveUser(users, email).value].id) !in cache
        && users[ActiveUser(users, email).value].salt.Some?
        && users[ActiveUser(users, email).value].passwordHash.Some?
        && passwordOk
        && RoleOf(roles, users[ActiveUser(users, email).value].roleId).Some?
        && (mobile ==> ContainsIgnoreCase(RoleOf(roles, users[ActiveUser(users, email).value].roleId).value.name, "admin"))
    ensures var v := LoginDecision(users, roles, cache, email, passwordOk, mobile);
      v.Grant? ==> v.index == ActiveUser(users, email).value
  {
  }

  /**
   * An account with no stored salt or hash, as a GitHub sign-in creates,
   * makes the password check throw: the answer is "Failed" whatever the
   * password, and the attempt is neither counted nor granted.
   */
  lemma PasswordlessLoginFaults(users: seq<User>, roles: seq<Role>, cache: map<CacheKey, int>,
                                email: string, passwordOk: bool, mobile: bool)
    requires ActiveUser(users, email).Some?
    requires LoginLockout(users[ActiveUser(users, email).value].id) !in cache
    requires users[ActiveUser(users, email).value].salt.None? || users[ActiveUser(users, email).value].passwordHash.None?
    ensures LoginDecision(users, roles, cache, email, passwordOk, mobile) == Fault
  {
  }

  /** A locked account never reaches the password check, so failures stop counting. */
  lemma LockedLoginIsNotCounted(users: seq<User>, roles: seq<Role>, cache: map<CacheKey, int>,
                                email: string, passwordOk: bool, mobile: bool)
    requires ActiveUser(users, email).Some?
    requires LoginLockout(users[ActiveUser(users, email).value].id) in cache
    ensures LoginDecision(users, roles, cache, email, passwordOk, mobile) == Invalid
  {
  }

  const RefreshTokenLifetime: int := 7 * Day

  // ---------------------------------------------------------------------------
  // Registration

  /** What an existing account with the same email means for a registration. */
  datatype ExistingRule = NoneFound | Replace(index: nat) | Refuse

  /** An unverified account whose CreatedAt + 1h has passed is replaced; any other existing account refuses. */
  function Existing(users: seq<User>, email: string, now: int): (r: ExistingRule)
    ensures r.Replace? ==> r.index < |users| && !users[r.index].isVerified
  {
    match FirstIndex(users, (u: User) => EqualsIgnoreCase(u.email, email))
    case None => NoneFound
    case Some(k) =>
      if !users[k].isVerified && users[k].createdAt + Hour < now - Hour then Replace(k) else Refuse
  }

  lemma ExistingRuleCases(users: seq<User>, email: string, now: int)
    ensures Existing(users, email, now) == NoneFound
      <==> forall k :: 0 <= k < |users| ==> !EqualsIgnoreCase(users[k].email, email)
    ensures Existing(users, email, now).Refuse? ==> exists k :: (0 <= k < |users|
      && EqualsIgnoreCase(users[k].email, email) && (users[k].isVerified || users[k].createdAt + Hour >= now - Hour))
  {
  }

  /** The plan named "free" (ignoring case) with price 0. */
  function FreePlanFor(plans: seq<Plan>): Option<nat>
  {
    FirstIndex(plans, (p: Plan) => EqualsIgnoreCase(p.name, "free") && p.price == 0.0)
  }

  /** The role named "user", ignoring case. */
  function UserRole(roles: seq<Role>): Option<nat>
  {
    FirstIndex(roles, (r: Role) => EqualsIgnoreCase(r.name, "user"))
  }

  /** The secrets and codes a registration generates. */
  datatype Generated = Generated(passwordHash: string, salt: string, authToken: string, referralCode: string, verificationToken: string)

  /** The new account: disabled, unverified, on the free plan, with no referral quota. */
  function NewAccount(id: int, fullname: string, email: string, roleId: int, planId: int, g: Generated, now: int): (u: User)
    ensures u.isDisabled && !u.isVerified && !u.isDeleted && u.referralQuota == 0
    ensures u.planId == planId && u.roleId == roleId && u.planExpiration.None? && u.provider.None?
  {
    User(id, fullname, email, Some(g.passwordHash), Some(g.salt), roleId, None, g.referralCode, 0, g.authToken,
         None, None, None, None, false, true, planId, false, None, now, now)
  }

  /**
   * The referral bonus: a user whose ReferralCode equals the given code
   * (ignoring case) gains a Referral row naming the new account and one more
   * unit of ReferralQuota.
   */
  function ApplyReferral(users: seq<User>, referrals: seq<Referral>, code: Option<string>, newId: int, now: int)
    : (r: (seq<User>, seq<Referral>))
    ensures |r.0| == |users|
  {
    if code.None? || code.value == [] then (users, referrals)
    else match FirstIndex(users, (u: User) => EqualsIgnoreCase(u.referralCode, code.value))
      case None => (users, referrals)
      case Some(k) =>
        var referral := Referral(NextId(referrals, (x: Referral) => x.id), users[k].id, newId, now);
        (users[k := users[k].(referralQuota := users[k].referralQuota + 1, updatedAt := now)], referrals + [referral])
  }

  /** A matching code adds exactly one Referral row and raises exactly one user's ReferralQuota by exactly 1. */
  lemma ReferralAddsOne(users: seq<User>, referrals: seq<Referral>, code: Option<string>, newId: int, now: int)
    ensures var (us, rs) := ApplyReferral(users, referrals, code, newId, now);
      (rs == referrals && us == users)
      || exists k :: (0 <= k < |users| && code.Some? && EqualsIgnoreCase(users[k].referralCode, code.value)
        && us == users[k := users[k].(referralQuota := users[k].referralQuota + 1, updatedAt := now)]
        && |rs| == |referrals| + 1 && rs[..|referrals|] == referrals
        && rs[|referrals|].referrerId == users[k].id && rs[|referrals|].referredId == newId)
    ensures var (us, rs) := ApplyReferral(users, referrals, code, newId, now);
      forall k :: 0 <= k < |users| ==> users[k].referralQuota <= us[k].referralQuota <= users[k].referralQuota + 1
  {
    var (us, rs) := ApplyReferral(users, referrals, code, newId, now);
    if rs != referrals {
      var k := FirstIndex(users, (u: User) => EqualsIgnoreCase(u.referralCode, code.value)).value;
      assert rs[..|referrals|] == referrals;
    }
  }

  // ---------------------------------------------------------------------------
  // The service

  class AuthService {
    var users: seq<User>
    var roles: seq<Role>
    var plans: seq<Plan>
    var referrals: seq<Referral>
    var verifications: seq<AccountVerification>
    var cache: map<CacheKey, int>

    constructor(users: seq<User>, roles: seq<Role>, plans: seq<Plan>, referrals: seq<Referral>,
                verifications: seq<AccountVerification>, cache: map<CacheKey, int>)
      ensures this.users == users && this.roles == roles && this.plans == plans
      ensures this.referrals == referrals && this.verifications == verifications && this.cache == cache
    {
      this.users := users;
      this.roles := roles;
      this.plans := plans;
      this.referrals := referrals;
      this.verifications := verifications;
      this.cache := cache;
    }

    /**
     * Login. `valid` is the request validator's verdict and `passwordOk` the
     * password hash check, which throws when the account has no salt or
     * hash. Success stores a new refresh token valid for 7 days.
     */
    method Login(valid: bool, email: string, passwordOk: bool, mobile: bool, refreshToken: string, now: int)
      returns (r: Response)
      modifies this`users, this`cache
      ensures !valid ==> (r == Response(invalid_format, "Data not formatted properly")
        && users == old(users) && cache == old(cache))
      ensures valid ==> match LoginDecision(old(users), roles, old(cache), email, passwordOk, mobile)
        case Invalid => r == InvalidCredentials && users == old(users) && cache == old(cache)
        case CountFailure(id) => r == InvalidCredentials && users == old(users)
          && cache == RecordFailure(old(cache), LoginFail(id), LoginLockout(id))
        case Fault => r == Failed && users == old(users) && cache == old(cache)
        case Grant(i) => (r == Response(success, "Login successful") && cache == old(cache)
          && users == old(users)[i := old(users)[i].(refreshToken := Some(refreshToken),
                                                     refreshTokenExpiration := Some(now - Hour + RefreshTokenLifetime))])
    {
      if !valid {
        return Response(invalid_format, "Data not formatted properly");
      }
      var found := ActiveUser(users, email);
      if found.None? {
        return InvalidCredentials;
      }
      var i := found.value;
      var user := users[i];
      if LoginLockout(user.id) in cache {
        return InvalidCredentials;
      }
      if user.salt.None? || user.passwordHash.None? {
        return Failed;
      }
      if !passwordOk {
        var fail := LoginFail(user.id);
        if fail !in cache {
          cache := cache[fail := 1];
        } else {
          var count := cache[fail] + 1;
          cache := cache[fail := count];
          if count >= MaxLoginAttempts {
            cache := cache[LoginLockout(user.id) := 1];
          }
        }
        return InvalidCredentials;
      }
      var role := RoleOf(roles, user.roleId);
      if role.None? {
        return Failed;
      }
      if mobile && !ContainsIgnoreCase(role.value.name, "admin") {
        return InvalidCredentials;
      }
      users := users[i := user.(refreshToken := Some(refreshToken), refreshTokenExpiration := Some(now - Hour + RefreshTokenLifetime))];
      r := Response(success, "Login successful");
    }

    /**
     * VerifyAccount: the oldest unused, unexpired verification row of the
     * unverified account whose token matches ignoring case is marked used,
     * and the account becomes verified and enabled. The table is ordered by
     * descending Id and its last match taken, which is the lowest Id.
     */
    method VerifyAccount(email: string, token: string, now: int) returns (r: Response)
      modifies this`users, this`verifications, this`cache
      ensures match FirstIndex(old(users), (u: User) => EqualsIgnoreCase(u.email, email) && !u.isVerified)
        case None => r == Failed && unchanged(this)
        case Some(i) =>
          var id := old(users)[i].id;
          if VerificationLockout(id) in old(cache) then r == Failed && unchanged(this)
          else match PendingVerification(old(verifications), id, token, now)
            case None => r == Failed && users == old(users) && verifications == old(verifications)
              && cache == RecordFailure(old(cache), VerificationFail(id), VerificationLockout(id))
            case Some(k) => (r == Response(success, "Account verified") && cache == old(cache)
              && verifications == old(verifications)[k := old(verifications)[k].(usedAt := Some(now))]
              && users == old(users)[i := old(users)[i].(isVerified := true, isDisabled := false, updatedAt := now)])
    {
      var found := FirstIndex(users, (u: User) => EqualsIgnoreCase(u.email, email) && !u.isVerified);
      if found.None? {
        return Failed;
      }
      var i := found.value;
      var id := users[i].id;
      if VerificationLockout(id) in cache {
        return Failed;
      }
      var request := PendingVerification(verifications, id, token, now);
      if request.None? {
        var fail := VerificationFail(id);
        if fail !in cache {
          cache := cache[fail := 1];
        } else {
          var count := cache[fail] + 1;
          cache := cache[fail := count];
          if count >= MaxLoginAttempts {
            cache := cache[VerificationLockout(id) := 1];
          }
        }
        return Failed;
      }
      var k := request.value;
      verifications := verifications[k := verifications[k].(usedAt := Some(now))];
      users := users[i := users[i].(isVerified := true, isDisabled := false, updatedAt := now)];
      r := Response(success, "Account verified");
    }

    /**
     * Register: replace a stale unverified account or refuse an existing
     * one, then create the account on the free plan with the "user" role,
     * credit a referrer, and issue a verification code valid for one hour.
     */
    method Register(valid: bool, fullname: string, email: string, referralCode: Option<string>, g: Generated, now: int)
      returns (r: Response)
      modifies this`users, this`referrals, this`verifications
      ensures r.status == success <==>
        valid && !Existing(old(users), email, now).Refuse? && FreePlanFor(plans).Some? && UserRole(roles).Some?
      ensures r.status != success ==> users == old(users) && referrals == old(referrals) && verifications == old(verifications)
      ensures r.status == success ==>
        var replaced := match Existing(old(users), email, now)
          case Replace(k) => old(users)[k := old(users)[k].(isDeleted := true)]
          case _ => old(users);
        var newId := NextId(replaced, (u: User) => u.id);
        var account := NewAccount(newId, fullname, email, roles[UserRole(roles).value].id,
                                  plans[FreePlanFor(plans).value].id, g, now);
        var (us, rs) := ApplyReferral(replaced + [account], old(referrals), referralCode, newId, now);
        r == Response(success, "Registration successful")
        && users == us && referrals == rs
        && verifications == old(verifications)
           + [AccountVerification(NextId(old(verifications), (v: AccountVerification) => v.id), newId,
                                  g.verificationToken, now, None, now + Hour)]
    {
      if !valid {
        return Response(invalid_format, "Data not formatted properly");
      }
      var existing := Existing(users, email, now);
      if existing.Refuse? {
        return Failed;
      }
      var free := FreePlanFor(plans);
      var role := UserRole(roles);
      if free.None? || role.None? {
        return Failed;
      }
      var staged := users;
      if existing.Replace? {
        staged := staged[existing.index := staged[existing.index].(isDeleted := true)];
      }
      var newId := NextId(staged, (u: User) => u.id);
      var account := NewAccount(newId, fullname, email, roles[role.value].id, plans[free.value].id, g, now);
      var (us, rs) := ApplyReferral(staged + [account], referrals, referralCode, newId, now);
      var verification := AccountVerification(NextId(verifications, (v: AccountVerification) => v.id), newId,
                                              g.verificationToken, now, None, now + Hour);
      users, referrals := us, rs;
      verifications := verifications + [verification];
      r := Response(success, "Registration successful");
    }
  }

  /** The verification row VerifyAccount consumes: the user's, unused, unexpired, with a matching token. */
  function PendingVerification(rows: seq<AccountVerification>, userId: int, token: string, now: int): (r: Option<nat>)
    ensures r.Some? ==> (r.value < |rows| && rows[r.value].userId == userId && rows[r.value].usedAt.None?
      && EqualsIgnoreCase(rows[r.value].token, token) && now < rows[r.value].expiration + Hour)
    ensures r.None? ==> forall k :: 0 <= k < |rows| ==>
      !(rows[k].userId == userId && rows[k].usedAt.None? && EqualsIgnoreCase(rows[k].token, token) && now < rows[k].expiration + Hour)
  {
    FirstIndex(rows, (v: AccountVerification) => v.userId == userId && v.usedAt.None?
      && EqualsIgnoreCase(v.token, token) && now < v.expiration + Hour)
  }

  /** A code is accepted only before its expiry, and a used code never again. */
  lemma CodeSingleUse(rows: seq<AccountVerification>, userId: int, token: string, now: int, k: nat)
    requires PendingVerification(rows, userId, token, now) == Some(k)
    ensures now < rows[k].expiration + Hour
    ensures var after := rows[k := rows[k].(usedAt := Some(now))];
      PendingVerification(after, userId, token, now) != Some(k)
  {
  }
}
