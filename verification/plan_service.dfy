/**
 * Plan administration and listings, G2.Service/Plan/PlanService.cs.
 * `now` is the service clock; AddPlanDto's declarative validation is the
 * input `valid`. Prices are exact reals.
 */
module PlanService {
  import opened Common
  import opened Entities
  import opened Access

  /** AddPlanDto: the only fields a new plan is given; the rest keep their defaults. */
  datatype PlanDraft = PlanDraft(name: string, description: string, price: real, discount: real,
                                 visualisation: bool, screenshot: bool, aiReport: bool)

  /** UpdatePlanDto: each field replaces the plan's only when present. */
  datatype PlanPatch = PlanPatch(name: Option<string>, description: Option<string>, price: Option<real>,
                                 discount: Option<real>, screenshot: Option<bool>, visualisation: Option<bool>,
                                 aiReport: Option<bool>)

  /** A plan as the listings show it: its fields and the price less its discount. */
  datatype PlanCard = PlanCard(plan: Plan, discountedPrice: real)

  function Card(p: Plan): (r: PlanCard)
    ensures r.plan == p
    ensures p.discount == 0.0 ==> r.discountedPrice == p.price
    ensures 0.0 <= p.discount <= 100.0 && p.price >= 0.0 ==> 0.0 <= r.discountedPrice <= p.price
  {
    PlanCard(p, p.price - p.price * (p.discount / 100.0))
  }

  /**
   * The plan AddPlan is meant to store: the draft's fields, Quota and
   * Concurrency 0 and no console app (AddPlanDto carries none of them),
   * live, stamped `now`.
   */
  function Created(id: int, d: PlanDraft, now: int): (r: Plan)
    ensures r.id == id && !r.isDeleted && r.createdAt == now && r.updatedAt == now
    ensures r.name == d.name && r.description == d.description && r.price == d.price && r.discount == d.discount
    ensures r.screenshot == d.screenshot && r.visualisation == d.visualisation && r.aiReport == d.aiReport
    ensures r.quota == 0 && r.concurrency == 0 && !r.consoleApp
  {
    Plan(id, d.name, d.description, 0, 0, d.price, d.discount, d.screenshot, d.visualisation, d.aiReport,
         false, false, now, now)
  }

  /**
   * The intended AddPlan: the plan created under the next key is new to the
   * table, and GetPlan finds it by that key with its price card.
   */
  lemma CreatedPlanIsListed(plans: seq<Plan>, d: PlanDraft, now: int)
    ensures var id := NextId(plans, (q: Plan) => q.id);
      var p := Created(id, d, now);
      (forall k :: 0 <= k < |plans| ==> plans[k].id != id)
      && GetPlan(plans + [p], id) == Reply(Response(success, "Success"), Some(Card(p)))
  {
    var id := NextId(plans, (q: Plan) => q.id);
    var ps := plans + [Created(id, d, now)];
    assert forall k :: 0 <= k < |plans| ==> ps[k].id < id;
    assert ps[|plans|].id == id && !ps[|plans|].isDeleted;
    var found := FirstIndex(ps, (q: Plan) => q.id == id && !q.isDeleted);
    assert found.Some? && ps[found.value].id == id;
  }

  function Pick<T>(o: Option<T>, current: T): T
  {
    if o.Some? then o.value else current
  }

  /** UpdatePlan's `??` chain and UpdatedAt. */
  function Patched(p: Plan, d: PlanPatch, now: int): (r: Plan)
    ensures r.id == p.id && r.isDeleted == p.isDeleted && r.createdAt == p.createdAt && r.updatedAt == now
    ensures r.quota == p.quota && r.concurrency == p.concurrency && r.consoleApp == p.consoleApp
    ensures r.name == (if d.name.Some? then d.name.value else p.name)
    ensures r.description == (if d.description.Some? then d.description.value else p.description)
    ensures r.price == (if d.price.Some? then d.price.value else p.price)
    ensures r.discount == (if d.discount.Some? then d.discount.value else p.discount)
    ensures r.screenshot == (if d.screenshot.Some? then d.screenshot.value else p.screenshot)
    ensures r.visualisation == (if d.visualisation.Some? then d.visualisation.value else p.visualisation)
    ensures r.aiReport == (if d.aiReport.Some? then d.aiReport.value else p.aiReport)
  {
    p.(name := Pick(d.name, p.name), description := Pick(d.description, p.description),
       price := Pick(d.price, p.price), discount := Pick(d.discount, p.discount),
       screenshot := Pick(d.screenshot, p.screenshot), visualisation := Pick(d.visualisation, p.visualisation),
       aiReport := Pick(d.aiReport, p.aiReport), updatedAt := now)
  }

  /**
   * An empty patch changes only UpdatedAt, a patch applied twice is applied
   * once, and the limits a plan is created with (Quota 0, Concurrency 0) can
   * never be raised by an update.
   */
  lemma {:induction false} PatchLaws(p: Plan, d: PlanPatch, now: int, later: seq<PlanPatch>)
    ensures Patched(p, PlanPatch(None, None, None, None, None, None, None), now) == p.(updatedAt := now)
    ensures Patched(Patched(p, d, now), d, now) == Patched(p, d, now)
    ensures var q := Replay(p, later, now); q.quota == p.quota && q.concurrency == p.concurrency
    decreases |later|
  {
    if later != [] {
      PatchLaws(Patched(p, later[0], now), d, now, later[1..]);
    }
  }

  /** A series of updates applied one after the other. */
  function Replay(p: Plan, patches: seq<PlanPatch>, now: int): Plan
    decreases |patches|
  {
    if patches == [] then p else Replay(Patched(p, patches[0], now), patches[1..], now)
  }

  // ---------------------------------------------------------------------------
  // Reads

  /** GetAllPlans (anyone): the live plans, in key order. */
  function GetAllPlans(plans: seq<Plan>): (r: seq<PlanCard>)
  {
    seq(|Filter(plans, (p: Plan) => !p.isDeleted)|,
        i requires 0 <= i < |Filter(plans, (p: Plan) => !p.isDeleted)| => Card(Filter(plans, (p: Plan) => !p.isDeleted)[i]))
  }

  lemma AllPlansAreLive(plans: seq<Plan>)
    ensures var r := GetAllPlans(plans);
      |r| == CountWhere(plans, (p: Plan) => !p.isDeleted)
      && (forall k :: 0 <= k < |r| ==> r[k].plan in plans && !r[k].plan.isDeleted)
      && (forall p :: p in plans && !p.isDeleted ==> Card(p) in r)
  {
    var live := Filter(plans, (p: Plan) => !p.isDeleted);
    var r := GetAllPlans(plans);
    forall p | p in plans && !p.isDeleted
      ensures Card(p) in r
    {
      var k :| 0 <= k < |live| && live[k] == p;
      assert r[k] == Card(p);
    }
  }

  /** GetPlan (anyone): a live plan by id, or "Plan does not exist". */
  function GetPlan(plans: seq<Plan>, id: int): (r: Reply<PlanCard>)
    ensures r.body.Some? <==> exists k :: 0 <= k < |plans| && plans[k].id == id && !plans[k].isDeleted
    ensures r.body.Some? ==> r.body.value.plan in plans && r.body.value.plan.id == id && !r.body.value.plan.isDeleted
    ensures r.body.None? ==> r.response == Response(failure, "Plan does not exist")
  {
    match FirstIndex(plans, (p: Plan) => p.id == id && !p.isDeleted)
    case None => Reply(Response(failure, "Plan does not exist"), None)
    case Some(k) => Reply(Response(success, "Success"), Some(Card(plans[k])))
  }

  /** The number GetPlansAdmin reports for a plan: live users on it. */
  function UserCount(users: seq<User>, planId: int): nat
  {
    CountWhere(users, (u: User) => !u.isDeleted && u.planId == planId)
  }

  predicate DistinctNames(plans: seq<Plan>)
  {
    forall i, j :: 0 <= i < j < |plans| ==> plans[i].name != plans[j].name
  }

  /**
   * GetPlansAdmin's dictionary, filled plan by plan. Dictionary.Add throws on
   * a name already present, which ends the call with "Failed": the result is
   * None exactly when two live plans share a name.
   */
  method CountPlanUsers(live: seq<Plan>, users: seq<User>) returns (counts: Option<map<string, nat>>)
    ensures counts.Some? <==> DistinctNames(live)
    ensures counts.Some? ==> counts.value.Keys == set k | 0 <= k < |live| :: live[k].name
    ensures counts.Some? ==> forall k :: 0 <= k < |live| ==> counts.value[live[k].name] == UserCount(users, live[k].id)
  {
    var m: map<string, nat> := map[];
    var i := 0;
    while i < |live|
      invariant 0 <= i <= |live|
      invariant DistinctNames(live[..i])
      invariant m.Keys == set k | 0 <= k < i :: live[k].name
      invariant forall k :: 0 <= k < i ==> live[k].name in m && m[live[k].name] == UserCount(users, live[k].id)
    {
      var name := live[i].name;
      if name in m {
        var k :| 0 <= k < i && live[k].name == name;
        assert !DistinctNames(live) by {
          assert live[k].name == live[i].name;
        }
        return None;
      }
      m := m[name := UserCount(users, live[i].id)];
      i := i + 1;
      assert live[..i] == live[..i - 1] + [live[i - 1]];
    }
    assert live[..i] == live;
    return Some(m);
  }

  class PlanService {
    var plans: seq<Plan>
    var users: seq<User>

    constructor(ps: seq<Plan>, us: seq<User>)
      ensures plans == ps && users == us
    {
      plans := ps;
      users := us;
    }

    /**
     * AddPlan (super-admins), as written. The mapping of AddPlanDto to Plan
     * has no map registered in the AutoMapper profile, so it throws once the
     * transaction has begun; the catch block rolls back and answers "Failed".
     * No plan is ever stored.
     */
    method AddPlan(caller: Caller, valid: bool, d: PlanDraft, now: int) returns (r: Reply<PlanCard>)
      ensures !valid ==> r.response == Response(invalid_format, "Data not formatted properly") && r.body.None?
      ensures valid && !IsSuperAdmin(caller) ==> r == Reply(Unauthorised, None)
      ensures valid && IsSuperAdmin(caller) ==> r == Reply(Failed, None)
      ensures r.response.status != success
    {
      if !valid {
        return Reply(Response(invalid_format, "Data not formatted properly"), None);
      }
      if !IsSuperAdmin(caller) {
        return Reply(Unauthorised, None);
      }
      // BeginTransaction, then the unmapped Map<Plan>(addPlanDto) throws: RollbackTransaction.
      return Reply(Failed, None);
    }

    /** DeletePlan (super-admins): a soft delete by id, deleted plans included; its users stay on it. */
    method DeletePlan(caller: Caller, id: int, now: int) returns (r: Response)
      modifies this`plans
      ensures !IsSuperAdmin(caller) ==> r == Unauthorised && plans == old(plans)
      ensures IsSuperAdmin(caller) ==> match FirstIndex(old(plans), (p: Plan) => p.id == id)
        case None => r == Response(failure, "Plan does not exist") && plans == old(plans)
        case Some(k) => (r == Response(success, "Deleted successfully")
          && plans == old(plans)[k := old(plans)[k].(isDeleted := true, updatedAt := now)])
    {
      if !IsSuperAdmin(caller) {
        return Unauthorised;
      }
      var found := FirstIndex(plans, (p: Plan) => p.id == id);
      if found.None? {
        return Response(failure, "Plan does not exist");
      }
      var k := found.value;
      plans := plans[k := plans[k].(isDeleted := true, updatedAt := now)];
      return Response(success, "Deleted successfully");
    }

    /** UpdatePlan (super-admins): the partial update, on a plan found by id even if deleted. */
    method UpdatePlan(caller: Caller, id: int, d: PlanPatch, now: int) returns (r: Reply<Plan>)
      modifies this`plans
      ensures !IsSuperAdmin(caller) ==> r == Reply(Unauthorised, None) && plans == old(plans)
      ensures IsSuperAdmin(caller) ==> match FirstIndex(old(plans), (p: Plan) => p.id == id)
        case None => r == Reply(Response(failure, "Plan does not exist"), None) && plans == old(plans)
        case Some(k) => (r == Reply(Response(success, "Plan updated successfully"), Some(Patched(old(plans)[k], d, now)))
          && plans == old(plans)[k := Patched(old(plans)[k], d, now)])
    {
      if !IsSuperAdmin(caller) {
        return Reply(Unauthorised, None);
      }
      var found := FirstIndex(plans, (p: Plan) => p.id == id);
      if found.None? {
        return Reply(Response(failure, "Plan does not exist"), None);
      }
      var k := found.value;
      var p := plans[k];
      p := p.(name := Pick(d.name, p.name));
      p := p.(description := Pick(d.description, p.description));
      p := p.(price := Pick(d.price, p.price));
      p := p.(discount := Pick(d.discount, p.discount));
      p := p.(screenshot := Pick(d.screenshot, p.screenshot));
      p := p.(visualisation := Pick(d.visualisation, p.visualisation));
      p := p.(aiReport := Pick(d.aiReport, p.aiReport));
      p := p.(updatedAt := now);
      plans := plans[k := p];
      return Reply(Response(success, "Plan updated successfully"), Some(p));
    }

    /**
     * GetPlansAdmin (admins): each live plan's card with its live-user count,
     * or "Failed" when two live plans share a name.
     */
    method GetPlansAdmin(caller: Caller) returns (r: Reply<seq<(PlanCard, nat)>>)
      ensures !IsAdmin(caller) ==> r == Reply(Unauthorised, None)
      ensures IsAdmin(caller) ==>
        var live := Filter(plans, (p: Plan) => !p.isDeleted);
        (r.body.Some? <==> DistinctNames(live))
        && (r.body.None? ==> r.response == Failed)
        && (r.body.Some? ==> (|r.body.value| == |live|
            && forall k :: 0 <= k < |live| ==> r.body.value[k] == (Card(live[k]), UserCount(users, live[k].id))))
    {
      if !IsAdmin(caller) {
        return Reply(Unauthorised, None);
      }
      var live := Filter(plans, (p: Plan) => !p.isDeleted);
      var counts := CountPlanUsers(live, users);
      if counts.None? {
        return Reply(Failed, None);
      }
      var rows := seq(|live|, k requires 0 <= k < |live| => (Card(live[k]), counts.value[live[k].name]));
      return Reply(Response(success, "Success"), Some(rows));
    }
  }
}
