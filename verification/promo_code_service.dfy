/**
 * Promo-code administration and the public price check of
 * G2.Service/PromoCode/PromoCodeService.cs. The FluentValidation rules of the
 * request bodies are the input `valid`; `now` is the service clock and
 * `today` is DateTime.Today.
 */
module PromoCodeService {
  import opened Common
  import opened Text
  import opened Entities
  import opened Access
  import Paging
  import TransactionService

  /** The fields of AddPromoCodeDto. */
  datatype NewCode = NewCode(code: string, discount: real, usageLimit: int, expiredAt: Option<int>)

  /** The fields of UpdatePromoCodeDto; an absent field keeps the stored value. */
  datatype CodePatch = CodePatch(code: Option<string>, discount: Option<real>, usageLimit: Option<int>, expiredAt: Option<int>)

  // ---------------------------------------------------------------------------
  // Creation and partial update

  /** A new code: the request's fields, no uses yet, not deleted. */
  function Created(id: int, d: NewCode, now: int): (p: PromoCode)
    ensures p.id == id && p.usageCount == 0 && !p.isDeleted && p.createdAt == now
    ensures p.code == d.code && p.discount == d.discount && p.usageLimit == d.usageLimit && p.expiredAt == d.expiredAt
  {
    PromoCode(id, d.code, d.discount, d.usageLimit, 0, false, now, d.expiredAt)
  }

  /** UpdatePromoCode's field-by-field `??`: Code, Discount, UsageLimit and ExpiredAt only. */
  function Patched(p: PromoCode, d: CodePatch): (r: PromoCode)
    ensures r == p.(code := r.code, discount := r.discount, usageLimit := r.usageLimit, expiredAt := r.expiredAt)
    ensures r.code == (if d.code.Some? then d.code.value else p.code)
    ensures r.discount == (if d.discount.Some? then d.discount.value else p.discount)
    ensures r.usageLimit == (if d.usageLimit.Some? then d.usageLimit.value else p.usageLimit)
    ensures r.expiredAt == (if d.expiredAt.Some? then d.expiredAt else p.expiredAt)
  {
    p.(code := if d.code.Some? then d.code.value else p.code,
       discount := if d.discount.Some? then d.discount.value else p.discount,
       usageLimit := if d.usageLimit.Some? then d.usageLimit.value else p.usageLimit,
       expiredAt := if d.expiredAt.Some? then d.expiredAt else p.expiredAt)
  }

  /** An empty patch keeps the code, the same patch twice is the patch once, and an expiry can never be cleared. */
  lemma PatchLaws(p: PromoCode, d: CodePatch)
    ensures Patched(p, CodePatch(None, None, None, None)) == p
    ensures Patched(Patched(p, d), d) == Patched(p, d)
    ensures p.expiredAt.Some? ==> Patched(p, d).expiredAt.Some?
    ensures Patched(p, d).usageCount == p.usageCount && Patched(p, d).isDeleted == p.isDeleted
  {
  }

  // ---------------------------------------------------------------------------
  // Which row Update and Delete act on

  /** As written: the first live code, whatever `id` is. */
  function TargetAsWritten(codes: seq<PromoCode>, id: int): (r: Option<nat>)
    ensures r.Some? ==> r.value < |codes| && !codes[r.value].isDeleted
    ensures r.None? <==> forall k :: 0 <= k < |codes| ==> codes[k].isDeleted
  {
    FirstIndex(codes, (p: PromoCode) => !p.isDeleted)
  }

  /** The `id` argument plays no part in the lookup as written. */
  lemma TargetAsWrittenIgnoresId(codes: seq<PromoCode>, id1: int, id2: int)
    ensures TargetAsWritten(codes, id1) == TargetAsWritten(codes, id2)
  {
  }

  /** As evidently intended, and as GetPromoCode looks a code up: the live code with that id. */
  function Target(codes: seq<PromoCode>, id: int): (r: Option<nat>)
    ensures r.Some? ==> r.value < |codes| && codes[r.value].id == id && !codes[r.value].isDeleted
    ensures r.None? <==> forall k :: 0 <= k < |codes| ==> codes[k].id != id || codes[k].isDeleted
  {
    FirstIndex(codes, (p: PromoCode) => p.id == id && !p.isDeleted)
  }

  /**
   * Two live codes, 1 and 2: deleting (or updating) code 2 as written acts on
   * code 1, while the intended lookup finds code 2.
   */
  lemma DeleteHitsWrongCode(now: int)
    ensures var codes := [Created(1, NewCode("SPRING", 10.0, 5, None), now), Created(2, NewCode("AUTUMN", 20.0, 5, None), now)];
      TargetAsWritten(codes, 2) == Some(0) && codes[0].id == 1
      && Target(codes, 2) == Some(1) && codes[1].id == 2
  {
    var codes := [Created(1, NewCode("SPRING", 10.0, 5, None), now), Created(2, NewCode("AUTUMN", 20.0, 5, None), now)];
    assert codes[1..] == [codes[1]];
    assert FirstIndex(codes[1..], (p: PromoCode) => p.id == 2 && !p.isDeleted) == Some(0);
  }

  // ---------------------------------------------------------------------------
  // Price check

  /**
   * VerifyPromoCode's lookup: live, today strictly before ExpiredAt (a code
   * without an expiry never matches), uses left, and the code equal ignoring case.
   */
  predicate Verifiable(p: PromoCode, code: string, today: int)
  {
    !p.isDeleted && p.expiredAt.Some? && today < p.expiredAt.value && p.usageCount < p.usageLimit
    && EqualsIgnoreCase(p.code, code)
  }

  /** The body VerifyPromoCode answers with. */
  datatype Quote = Quote(planId: int, originalPrice: real, discountedPrice: real)

  function VerifyPromoCode(codes: seq<PromoCode>, plans: seq<Plan>, valid: bool, code: string, planId: int,
                           yearly: bool, today: int): Reply<Quote>
  {
    if !valid then Reply(Response(invalid_format, "Data not formatted properly"), None)
    else match FirstIndex(codes, (p: PromoCode) => Verifiable(p, code, today))
      case None => Reply(Failed, None)
      case Some(k) =>
        match TransactionService.LivePlan(plans, planId)
        case None => Reply(Failed, None)
        case Some(j) =>
          var original := TransactionService.Amount(plans[j], yearly, None);
          Reply(Response(success, "Success"),
                Some(Quote(plans[j].id, original, TransactionService.Amount(plans[j], yearly, Some(codes[k])))))
  }

  /**
   * The check succeeds exactly for a valid request naming a verifiable code
   * and a live plan; the quote is for that plan, and its discounted price is
   * the original less the code's percentage, the same price checkout charges.
   */
  lemma VerifyPromoCodeIff(codes: seq<PromoCode>, plans: seq<Plan>, valid: bool, code: string, planId: int,
                           yearly: bool, today: int)
    ensures var r := VerifyPromoCode(codes, plans, valid, code, planId, yearly, today);
      (r.body.Some? <==> valid && (exists k :: 0 <= k < |codes| && Verifiable(codes[k], code, today))
                          && TransactionService.LivePlan(plans, planId).Some?)
      && (r.body.Some? ==> (r.response.status == success && r.body.value.planId == planId
           && exists k :: (0 <= k < |codes| && Verifiable(codes[k], code, today)
                && r.body.value.discountedPrice
                   == r.body.value.originalPrice - r.body.value.originalPrice * (codes[k].discount / 100.0))))
  {
  }

  /** Every code the price check accepts is one checkout would redeem. */
  lemma VerifiableIsRedeemable(p: PromoCode, code: string, today: int)
    requires Verifiable(p, code, today)
    ensures TransactionService.Redeemable(p, today) && EqualsIgnoreCase(p.code, code)
  {
  }

  /**
   * The converse fails: on its expiry day, and when it has no expiry at all,
   * a code with uses left is redeemed by checkout but refused by the price check.
   */
  lemma RedeemableButNotVerifiable(p: PromoCode, today: int)
    requires !p.isDeleted && p.usageCount < p.usageLimit
    requires p.expiredAt == Some(today) || p.expiredAt.None?
    ensures TransactionService.Redeemable(p, today) && !Verifiable(p, p.code, today)
  {
  }

  // ---------------------------------------------------------------------------
  // Reads

  /** GetAllPromoCodes (admins): live codes, newest first, one page. */
  function GetAllPromoCodes(codes: seq<PromoCode>, caller: Caller, page: int, limit: int): Reply<seq<PromoCode>>
  {
    if !IsAdmin(caller) then Reply(Unauthorised, None)
    else
      var live := Filter(codes, (p: PromoCode) => !p.isDeleted);
      Reply(Response(success, "Success"), Some(Paging.Take(NewestFirst(live, PromoCodeId), Paging.Normalize(page, limit))))
  }

  lemma PromoCodeListing(codes: seq<PromoCode>, caller: Caller, page: int, limit: int)
    ensures var r := GetAllPromoCodes(codes, caller, page, limit).body;
      (r.Some? <==> IsAdmin(caller))
      && (r.Some? ==> (|r.value| <= Paging.Normalize(page, limit).limit
           && (forall k :: 0 <= k < |r.value| ==> r.value[k] in codes && !r.value[k].isDeleted)
           && Descending(r.value, PromoCodeId)))
  {
    if IsAdmin(caller) {
      var w := Paging.Normalize(page, limit);
      var live := Filter(codes, (p: PromoCode) => !p.isDeleted);
      Paging.NewestPage(live, PromoCodeId, w);
    }
  }

  /** GetPromoCode (admins): success even when no live code has the id, with an empty body. */
  function GetPromoCode(codes: seq<PromoCode>, caller: Caller, id: int): (r: Reply<PromoCode>)
    ensures r.response.status == success <==> IsAdmin(caller)
    ensures r.body.Some? <==> IsAdmin(caller) && exists k :: 0 <= k < |codes| && codes[k].id == id && !codes[k].isDeleted
    ensures r.body.Some? ==> r.body.value in codes && r.body.value.id == id && !r.body.value.isDeleted
  {
    if !IsAdmin(caller) then Reply(Unauthorised, None)
    else match Target(codes, id)
      case None => Reply(Response(success, "Success"), None)
      case Some(k) => Reply(Response(success, "Success"), Some(codes[k]))
  }

  // ---------------------------------------------------------------------------
  // The service

  class PromoCodeService {
    var promoCodes: seq<PromoCode>

    constructor(codes: seq<PromoCode>)
      ensures promoCodes == codes
    {
      promoCodes := codes;
    }

    method AddPromoCode(caller: Caller, valid: bool, d: NewCode, now: int) returns (r: Response, created: Option<PromoCode>)
      modifies this
      ensures !valid ==> r.status == invalid_format && created.None? && promoCodes == old(promoCodes)
      ensures valid && !IsSuperAdmin(caller) ==> r == Unauthorised && created.None? && promoCodes == old(promoCodes)
      ensures valid && IsSuperAdmin(caller) ==>
        var p := Created(NextId(old(promoCodes), (c: PromoCode) => c.id), d, now);
        r == Response(success, "Success") && created == Some(p) && promoCodes == old(promoCodes) + [p]
    {
      if !valid {
        return Response(invalid_format, "Data not formatted properly"), None;
      }
      if !IsSuperAdmin(caller) {
        return Unauthorised, None;
      }
      var p := Created(NextId(promoCodes, (c: PromoCode) => c.id), d, now);
      promoCodes := promoCodes + [p];
      return Response(success, "Success"), Some(p);
    }

    /** DeletePromoCode, with the intended lookup by id: a soft delete. */
    method DeletePromoCode(caller: Caller, id: int) returns (r: Response)
      modifies this
      ensures !IsSuperAdmin(caller) ==> r == Unauthorised && promoCodes == old(promoCodes)
      ensures IsSuperAdmin(caller) ==> match Target(old(promoCodes), id)
        case None => r == Response(failure, "Promo code doesn't exist.") && promoCodes == old(promoCodes)
        case Some(k) => r == Response(success, "Success") && promoCodes == old(promoCodes)[k := old(promoCodes)[k].(isDeleted := true)]
    {
      if !IsSuperAdmin(caller) {
        return Unauthorised;
      }
      var found := Target(promoCodes, id);
      if found.None? {
        return Response(failure, "Promo code doesn't exist.");
      }
      var k := found.value;
      promoCodes := promoCodes[k := promoCodes[k].(isDeleted := true)];
      return Response(success, "Success");
    }

    /** UpdatePromoCode, with the intended lookup by id. */
    method UpdatePromoCode(caller: Caller, id: int, d: CodePatch) returns (r: Response)
      modifies this
      ensures !IsSuperAdmin(caller) ==> r == Unauthorised && promoCodes == old(promoCodes)
      ensures IsSuperAdmin(caller) ==> match Target(old(promoCodes), id)
        case None => r == Response(failure, "Promo code doesn't exist") && promoCodes == old(promoCodes)
        case Some(k) => r == Response(success, "Success") && promoCodes == old(promoCodes)[k := Patched(old(promoCodes)[k], d)]
    {
      if !IsSuperAdmin(caller) {
        return Unauthorised;
      }
      var found := Target(promoCodes, id);
      if found.None? {
        return Response(failure, "Promo code doesn't exist");
      }
      var k := found.value;
      var p := promoCodes[k];
      if d.code.Some? {
        p := p.(code := d.code.value);
      }
      if d.discount.Some? {
        p := p.(discount := d.discount.value);
      }
      if d.usageLimit.Some? {
        p := p.(usageLimit := d.usageLimit.value);
      }
      if d.expiredAt.Some? {
        p := p.(expiredAt := d.expiredAt);
      }
      promoCodes := promoCodes[k := p];
      return Response(success, "Success");
    }
  }
}
