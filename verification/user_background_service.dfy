/**
 * The nightly downgrade of expired plans, G2.Service/User/UserBackgroundService.cs.
 * `today` is DateTime.Today; plan 1 is the free plan.
 */
module UserBackgroundService {
  import opened Common
  import opened Entities

  const FreePlanId: int := 1

  /** The rows the bulk update matches: an expiration in the past, on a plan other than 1. */
  predicate Expired(u: User, today: int)
  {
    u.planExpiration.Some? && today > u.planExpiration.value && u.planId != FreePlanId
  }

  /** The table after the bulk update. */
  function Downgrade(users: seq<User>, today: int): (r: seq<User>)
    ensures |r| == |users|
  {
    seq(|users|, i requires 0 <= i < |users| =>
      if Expired(users[i], today) then users[i].(planId := FreePlanId, planExpiration := None) else users[i])
  }

  /**
   * Exactly the matching rows change, each only in PlanId (now 1) and
   * PlanExpiration (now cleared).
   */
  lemma DowngradeExactly(users: seq<User>, today: int, i: nat)
    requires i < |users|
    ensures var r := Downgrade(users, today);
      (r[i] != users[i] <==> Expired(users[i], today))
      && (Expired(users[i], today) ==> r[i] == users[i].(planId := FreePlanId, planExpiration := None))
  {
  }

  /** No row matches after a sweep, so a second sweep the same day changes nothing. */
  lemma {:induction false} DowngradeIdempotent(users: seq<User>, today: int)
    ensures Downgrade(Downgrade(users, today), today) == Downgrade(users, today)
  {
    var once := Downgrade(users, today);
    forall i | 0 <= i < |once|
      ensures !Expired(once[i], today)
    {
    }
  }

  /** Accounts already on plan 1 keep their expiration, even a past one. */
  lemma FreePlanKeepsExpiration(users: seq<User>, today: int, i: nat)
    requires i < |users| && users[i].planId == FreePlanId
    ensures Downgrade(users, today)[i] == users[i]
  {
  }

  class UserSweeper {
    var users: seq<User>

    constructor(us: seq<User>)
      ensures users == us
    {
      users := us;
    }

    /**
     * DowngradePlan: the one UPDATE statement, applied row by row. `fails`
     * stands for a database error, after which the transaction is rolled back.
     */
    method DowngradePlan(today: int, fails: bool) returns (committed: bool)
      modifies this
      ensures committed == !fails
      ensures users == if fails then old(users) else Downgrade(old(users), today)
    {
      if fails {
        return false;
      }
      var before := users;
      var i := 0;
      while i < |users|
        invariant 0 <= i <= |users| == |before|
        invariant users[..i] == Downgrade(before, today)[..i]
        invariant forall j :: i <= j < |users| ==> users[j] == before[j]
      {
        if Expired(users[i], today) {
          users := users[i := users[i].(planId := FreePlanId, planExpiration := None)];
        }
        assert users[..i + 1] == Downgrade(before, today)[..i + 1] by {
          assert users[..i + 1] == users[..i] + [users[i]];
          assert Downgrade(before, today)[..i + 1] == Downgrade(before, today)[..i] + [Downgrade(before, today)[i]];
        }
        i := i + 1;
      }
      assert users == users[..i];
      return true;
    }
  }
}
