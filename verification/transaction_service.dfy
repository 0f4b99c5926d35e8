/**
 * Payments of G2.Service/Transaction/TransactionService.cs: checkout with an
 * optional promo code, the ErcasPay and flutterwave webhooks, the flutterwave
 * verification call made by the client, plan activation and the listings.
 *
 * Clock: `now` is DateTime.UtcNow.AddHours(1), the stamp rows receive;
 * `today` is DateTime.Today; `yearAhead` and `monthAhead` are
 * DateTime.UtcNow.AddYears(1) and DateTime.UtcNow.AddMonths(1), supplied
 * because calendar arithmetic is not modelled. What the payment providers
 * answer is an input as well.
 */
module TransactionService {
  import opened Common
  import opened Text
  import opened Entities
  import opened Access
  import Paging
  import AddTransactionValidator

  datatype Clock = Clock(now: int, today: int, yearAhead: int, monthAhead: int)

  /** The tables the service reads and writes. */
  datatype Ledger = Ledger(users: seq<User>, plans: seq<Plan>, promoCodes: seq<PromoCode>, transactions: seq<Transaction>)

  /** The answer of an operation and the tables once it has committed or rolled back. */
  datatype Outcome = Outcome(response: Response, after: Ledger)

  const Done: Response := Response(success, "Success")

  // ---------------------------------------------------------------------------
  // Promo codes

  /**
   * The redemption test: today is not after ExpiredAt (a code without an
   * expiry never is) and uses are left.
   */
  predicate Redeemable(p: PromoCode, today: int)
  {
    !(p.expiredAt.Some? && today > p.expiredAt.value) && p.usageCount < p.usageLimit
  }

  /** The first code equal to `code` ignoring case; deleted codes are not skipped. */
  function FindPromo(codes: seq<PromoCode>, code: string): Option<nat>
  {
    FirstIndex(codes, (p: PromoCode) => EqualsIgnoreCase(p.code, code))
  }

  datatype PromoVerdict = NoCode | Unknown | Expired | Redeem(index: nat)

  /** How checkout treats the promo code it is given; null and "" mean none. */
  function CheckPromo(codes: seq<PromoCode>, promo: Option<string>, today: int): (r: PromoVerdict)
    ensures r.NoCode? <==> promo.None? || promo.value == []
    ensures r.Unknown? <==> promo.Some? && promo.value != [] && forall k :: 0 <= k < |codes| ==> !EqualsIgnoreCase(codes[k].code, promo.value)
    ensures r.Expired? ==> (promo.Some? && FindPromo(codes, promo.value).Some?
      && !Redeemable(codes[FindPromo(codes, promo.value).value], today))
    ensures r.Redeem? ==> (promo.Some? && FindPromo(codes, promo.value) == Some(r.index)
      && r.index < |codes| && Redeemable(codes[r.index], today) && EqualsIgnoreCase(codes[r.index].code, promo.value))
  {
    if promo.None? || promo.value == [] then NoCode
    else match FindPromo(codes, promo.value)
      case None => Unknown
      case Some(k) => if Redeemable(codes[k], today) then Redeem(k) else Expired
  }

  // ---------------------------------------------------------------------------
  // Checkout

  function LivePlan(plans: seq<Plan>, id: int): Option<nat>
  {
    FirstIndex(plans, (p: Plan) => p.id == id && !p.isDeleted)
  }

  /**
   * Plan price less the plan discount, twelve times over for a yearly plan,
   * less the promo discount (percentages).
   */
  function Amount(plan: Plan, yearly: bool, promo: Option<PromoCode>): real
  {
    var base := plan.price - plan.price * (plan.discount / 100.0);
    var amount := if yearly then base * 12.0 else base;
    if promo.Some? then amount - amount * (promo.value.discount / 100.0) else amount
  }

  /** ErcasPay's answer to InitiateTransaction. */
  datatype ErcasCheckout = ErcasCheckout(requestSuccessful: bool, paymentReference: string, transactionReference: string)

  /** flutterwave's answer to MakePayment, and the fresh Tx_Ref sent with it. */
  datatype FlutterCheckout = FlutterCheckout(status: string, txRef: string)

  datatype Gateway = Gateway(ercas: ErcasCheckout, flutter: FlutterCheckout)

  /** The payment provider named `provider` accepted the checkout. */
  predicate ProviderAccepts(provider: string, gw: Gateway)
  {
    if EqualsIgnoreCase(provider, "ercaspay") then gw.ercas.requestSuccessful
    else EqualsIgnoreCase(provider, "flutterwave") && EqualsIgnoreCase(gw.flutter.status, "success")
  }

  /**
   * Provider dispatch after the promo code: an accepted checkout commits
   * `codes` and a new pending transaction; anything else rolls back.
   */
  function Charge(l: Ledger, codes: seq<PromoCode>, userId: int, plan: Plan, yearly: bool, provider: string,
                  amount: real, gw: Gateway, now: int): Outcome
  {
    var id := NextId(l.transactions, (t: Transaction) => t.id);
    if EqualsIgnoreCase(provider, "ercaspay") then
      if !gw.ercas.requestSuccessful then Outcome(Failed, l)
      else
        var t := Transaction(id, "ercaspay", gw.ercas.paymentReference, gw.ercas.transactionReference, yearly,
                             userId, plan.id, amount, "Pending", false, now, now);
        Outcome(Response(success, ""), l.(promoCodes := codes, transactions := l.transactions + [t]))
    else if EqualsIgnoreCase(provider, "flutterwave") then
      if !EqualsIgnoreCase(gw.flutter.status, "success") then Outcome(Failed, l)
      else
        var t := Transaction(id, "flutterwave", gw.flutter.txRef, "", yearly,
                             userId, plan.id, amount, "Pending", false, now, now);
        Outcome(Response(success, ""), l.(promoCodes := codes, transactions := l.transactions + [t]))
    else Outcome(Failed, l)
  }

  /**
   * An accepted charge commits the promo table it was given and appends one
   * pending, live transaction under the next key; nothing else changes.
   */
  lemma ChargeAppends(l: Ledger, codes: seq<PromoCode>, userId: int, plan: Plan, yearly: bool, provider: string,
                      amount: real, gw: Gateway, now: int)
    requires Charge(l, codes, userId, plan, yearly, provider, amount, gw, now).response.status == success
    ensures var a := Charge(l, codes, userId, plan, yearly, provider, amount, gw, now).after;
      a == l.(promoCodes := codes, transactions := a.transactions)
      && |a.transactions| == |l.transactions| + 1
      && a.transactions[..|l.transactions|] == l.transactions
      && var t := a.transactions[|l.transactions|];
      t.id == NextId(l.transactions, (t: Transaction) => t.id)
      && t.status == "Pending" && !t.isDeleted && t.userId == userId && t.planId == plan.id
      && t.isYearly == yearly && t.createdAt == now && t.updatedAt == now
      && EqualsIgnoreCase(t.provider, provider)
  {
    var a := Charge(l, codes, userId, plan, yearly, provider, amount, gw, now).after;
    assert a.transactions[..|l.transactions|] == l.transactions;
  }

  /** AddTransaction, as one decision over the tables. */
  function Checkout(l: Ledger, caller: Caller, planId: int, yearly: bool, provider: string,
                    promo: Option<string>, gw: Gateway, clock: Clock): Outcome
  {
    if AddTransactionValidator.Validate(l.plans, planId, Some(yearly), provider) != [] then
      Outcome(Response(invalid_format, "Data not formatted properly"), l)
    else if !Identified(caller) then Outcome(Unauthorised, l)
    else if ActiveAccount(l.users, caller.id.value).None? then Outcome(Failed, l)
    else match LivePlan(l.plans, planId)
      case None => Outcome(Failed, l)
      case Some(p) => Redemption(l, caller.id.value, l.plans[p], yearly, provider, promo, gw, clock)
  }

  /** Checkout once the account and the plan are known: the promo code, then the provider. */
  function Redemption(l: Ledger, userId: int, plan: Plan, yearly: bool, provider: string,
                      promo: Option<string>, gw: Gateway, clock: Clock): Outcome
  {
    match CheckPromo(l.promoCodes, promo, clock.today)
    case Unknown => Outcome(Response(invalid_promo_code, "Promo code doesn't exist"), l)
    case Expired => Outcome(Response(expired_promo_code, "Promo code has expired"), l)
    case NoCode =>
      Charge(l, l.promoCodes, userId, plan, yearly, provider, Amount(plan, yearly, None), gw, clock.now)
    case Redeem(k) =>
      var used := l.promoCodes[k := l.promoCodes[k].(usageCount := l.promoCodes[k].usageCount + 1)];
      Charge(l, used, userId, plan, yearly, provider, Amount(plan, yearly, Some(l.promoCodes[k])), gw, clock.now)
  }

  /** The gates of checkout: it succeeds exactly when all of them pass, and otherwise changes nothing. */
  lemma CheckoutSucceedsIff(l: Ledger, caller: Caller, planId: int, yearly: bool, provider: string,
                            promo: Option<string>, gw: Gateway, clock: Clock)
    ensures var o := Checkout(l, caller, planId, yearly, provider, promo, gw, clock);
      var v := CheckPromo(l.promoCodes, promo, clock.today);
      (o.response.status == success <==>
        AddTransactionValidator.Validate(l.plans, planId, Some(yearly), provider) == []
        && Identified(caller)
        && ActiveAccount(l.users, caller.id.value).Some?
        && LivePlan(l.plans, planId).Some?
        && (v.NoCode? || v.Redeem?)
        && ProviderAccepts(provider, gw))
      && (o.response.status != success ==> o.after == l)
  {
  }

  /**
   * An accepted checkout appends one pending, live transaction of the caller
   * for the chosen plan, with a fresh id, and uses the promo code once.
   */
  lemma CheckoutEffect(l: Ledger, caller: Caller, planId: int, yearly: bool, provider: string,
                       promo: Option<string>, gw: Gateway, clock: Clock)
    requires Checkout(l, caller, planId, yearly, provider, promo, gw, clock).response.status == success
    ensures var a := Checkout(l, caller, planId, yearly, provider, promo, gw, clock).after;
      var v := CheckPromo(l.promoCodes, promo, clock.today);
      a.users == l.users && a.plans == l.plans
      && |a.transactions| == |l.transactions| + 1
      && a.transactions[..|l.transactions|] == l.transactions
      && (v.NoCode? ==> a.promoCodes == l.promoCodes)
      && (v.Redeem? ==> a.promoCodes == l.promoCodes[v.index := l.promoCodes[v.index].(usageCount := l.promoCodes[v.index].usageCount + 1)])
  {
    CheckoutCharges(l, caller, planId, yearly, provider, promo, gw, clock);
  }

  /** Every transaction checkout creates is "Pending", not deleted, the caller's, and keyed above all others. */
  lemma NewTransactionIsPending(l: Ledger, caller: Caller, planId: int, yearly: bool, provider: string,
                                promo: Option<string>, gw: Gateway, clock: Clock)
    requires Checkout(l, caller, planId, yearly, provider, promo, gw, clock).response.status == success
    ensures var a := Checkout(l, caller, planId, yearly, provider, promo, gw, clock).after;
      |a.transactions| == |l.transactions| + 1
      && var t := a.transactions[|l.transactions|];
      t.status == "Pending" && !t.isDeleted
      && Identified(caller) && t.userId == caller.id.value
      && t.planId == planId && t.isYearly == yearly
      && t.createdAt == clock.now && t.updatedAt == clock.now
      && EqualsIgnoreCase(t.provider, provider)
      && (forall i :: 0 <= i < |l.transactions| ==> l.transactions[i].id < t.id)
  {
    CheckoutCharges(l, caller, planId, yearly, provider, promo, gw, clock);
  }

  /** An accepted checkout is an accepted charge of the live plan, with the promo code used once. */
  lemma CheckoutCharges(l: Ledger, caller: Caller, planId: int, yearly: bool, provider: string,
                        promo: Option<string>, gw: Gateway, clock: Clock)
    requires Checkout(l, caller, planId, yearly, provider, promo, gw, clock).response.status == success
    ensures Identified(caller) && LivePlan(l.plans, planId).Some?
    ensures var a := Checkout(l, caller, planId, yearly, provider, promo, gw, clock).after;
      var v := CheckPromo(l.promoCodes, promo, clock.today);
      a == l.(promoCodes := a.promoCodes, transactions := a.transactions)
      && |a.transactions| == |l.transactions| + 1
      && a.transactions[..|l.transactions|] == l.transactions
      && (v.NoCode? ==> a.promoCodes == l.promoCodes)
      && (v.Redeem? ==> a.promoCodes == l.promoCodes[v.index := l.promoCodes[v.index].(usageCount := l.promoCodes[v.index].usageCount + 1)])
      && var t := a.transactions[|l.transactions|];
      t.id == NextId(l.transactions, (t: Transaction) => t.id)
      && t.status == "Pending" && !t.isDeleted && t.userId == caller.id.value && t.planId == planId
      && t.isYearly == yearly && t.createdAt == clock.now && t.updatedAt == clock.now
      && EqualsIgnoreCase(t.provider, provider)
  {
    var p := LivePlan(l.plans, planId).value;
    assert Checkout(l, caller, planId, yearly, provider, promo, gw, clock)
        == Redemption(l, caller.id.value, l.plans[p], yearly, provider, promo, gw, clock);
    RedemptionCharges(l, caller.id.value, l.plans[p], yearly, provider, promo, gw, clock);
  }

  /** The promo step and the charge: the code is used once and one pending transaction is appended. */
  lemma RedemptionCharges(l: Ledger, userId: int, plan: Plan, yearly: bool, provider: string,
                          promo: Option<string>, gw: Gateway, clock: Clock)
    requires Redemption(l, userId, plan, yearly, provider, promo, gw, clock).response.status == success
    ensures var a := Redemption(l, userId, plan, yearly, provider, promo, gw, clock).after;
      var v := CheckPromo(l.promoCodes, promo, clock.today);
      a == l.(promoCodes := a.promoCodes, transactions := a.transactions)
      && |a.transactions| == |l.transactions| + 1
      && a.transactions[..|l.transactions|] == l.transactions
      && (v.NoCode? ==> a.promoCodes == l.promoCodes)
      && (v.Redeem? ==> a.promoCodes == l.promoCodes[v.index := l.promoCodes[v.index].(usageCount := l.promoCodes[v.index].usageCount + 1)])
      && var t := a.transactions[|l.transactions|];
      t.id == NextId(l.transactions, (t: Transaction) => t.id)
      && t.status == "Pending" && !t.isDeleted && t.userId == userId && t.planId == plan.id
      && t.isYearly == yearly && t.createdAt == clock.now && t.updatedAt == clock.now
      && EqualsIgnoreCase(t.provider, provider)
  {
    match CheckPromo(l.promoCodes, promo, clock.today)
    case NoCode =>
      ChargeAppends(l, l.promoCodes, userId, plan, yearly, provider, Amount(plan, yearly, None), gw, clock.now);
    case Redeem(k) =>
      var used := l.promoCodes[k := l.promoCodes[k].(usageCount := l.promoCodes[k].usageCount + 1)];
      ChargeAppends(l, used, userId, plan, yearly, provider, Amount(plan, yearly, Some(l.promoCodes[k])), gw, clock.now);
  }

  /** A provider other than the two enabled ones never yields a transaction. */
  lemma UnsupportedProviderCreatesNothing(l: Ledger, caller: Caller, planId: int, yearly: bool, provider: string,
                                          promo: Option<string>, gw: Gateway, clock: Clock)
    requires !AddTransactionValidator.IsProviderEnabled(provider)
    ensures var o := Checkout(l, caller, planId, yearly, provider, promo, gw, clock);
      o.response.status != success && o.after == l
  {
  }

  /**
   * Once the account and plan gates pass, a named code that does not exist
   * and one that has expired or is used up are refused, and nothing changes.
   */
  lemma PromoRefusal(l: Ledger, caller: Caller, planId: int, yearly: bool, provider: string,
                     code: string, gw: Gateway, clock: Clock)
    requires code != []
    requires AddTransactionValidator.Validate(l.plans, planId, Some(yearly), provider) == []
    requires Identified(caller) && ActiveAccount(l.users, caller.id.value).Some? && LivePlan(l.plans, planId).Some?
    ensures var o := Checkout(l, caller, planId, yearly, provider, Some(code), gw, clock);
      (o.response.status == invalid_promo_code <==> FindPromo(l.promoCodes, code).None?)
      && (o.response.status == expired_promo_code <==>
            FindPromo(l.promoCodes, code).Some? && !Redeemable(l.promoCodes[FindPromo(l.promoCodes, code).value], clock.today))
      && (o.response.status in {invalid_promo_code, expired_promo_code} ==> o.after == l)
  {
  }

  // ---------------------------------------------------------------------------
  // Plan activation

  /** transaction.User: the account the transaction belongs to. */
  function Owner(users: seq<User>, t: Transaction): Option<nat>
  {
    FirstIndex(users, (u: User) => u.id == t.userId)
  }

  /**
   * The owner moves to the transaction's plan, which expires a year or a
   * month from now. None: the owner row is missing, so the dereference throws
   * and the whole update is rolled back.
   */
  function Activate(users: seq<User>, t: Transaction, clock: Clock): (r: Option<seq<User>>)
    ensures r.Some? <==> Owner(users, t).Some?
    ensures r.Some? ==> (|r.value| == |users|
      && var u := Owner(users, t).value;
      r.value[u].id == t.userId && r.value[u].planId == t.planId
      && r.value[u].planExpiration == Some(if t.isYearly then clock.yearAhead else clock.monthAhead)
      && r.value[u] == users[u].(planId := r.value[u].planId, planExpiration := r.value[u].planExpiration)
      && forall i :: 0 <= i < |users| && i != u ==> r.value[i] == users[i])
  {
    match Owner(users, t)
    case None => None
    case Some(u) =>
      var expiration := if t.isYearly then clock.yearAhead else clock.monthAhead;
      Some(users[u := users[u].(planId := t.planId, planExpiration := Some(expiration))])
  }

  // ---------------------------------------------------------------------------
  // ErcasPay webhook

  /** The body of an ErcasPay notification. */
  datatype ErcasNotice = ErcasNotice(transactionReference: string, paymentReference: string, status: string)

  /** The signature is compared only in the live environment, and only when the header is sent. */
  predicate SignatureRejected(live: bool, signature: Option<string>, expected: string)
  {
    live && signature.Some? && signature.value != expected
  }

  /** A pending transaction carrying both references of the notice. */
  predicate PendingFor(t: Transaction, n: ErcasNotice)
  {
    t.providerReference == n.transactionReference && t.reference == n.paymentReference
    && EqualsIgnoreCase(t.status, "pending")
  }

  /**
   * UpdateErcaspayTransaction. A notice reporting success is checked with
   * ErcasPay (`verifiedStatus`), whose status is stored and which activates
   * the plan only when it is "successful"; any other notice stores its own
   * status.
   */
  function ErcaspayWebhook(l: Ledger, live: bool, signature: Option<string>, expected: string,
                           n: ErcasNotice, verifiedStatus: string, clock: Clock): Outcome
  {
    if SignatureRejected(live, signature, expected) then Outcome(Failed, l)
    else match FirstIndex(l.transactions, (t: Transaction) => PendingFor(t, n))
      case None => Outcome(Failed, l)
      case Some(k) =>
        var t := l.transactions[k];
        if !EqualsIgnoreCase(n.status, "successful") then
          Outcome(Done, l.(transactions := l.transactions[k := t.(status := n.status, updatedAt := clock.now)]))
        else if !EqualsIgnoreCase(verifiedStatus, "successful") then
          Outcome(Done, l.(transactions := l.transactions[k := t.(status := verifiedStatus, updatedAt := clock.now)]))
        else match Activate(l.users, t, clock)
          case None => Outcome(Failed, l)
          case Some(us) =>
            Outcome(Done, l.(users := us, transactions := l.transactions[k := t.(status := verifiedStatus, updatedAt := clock.now)]))
  }

  /**
   * The webhook touches at most one transaction, a pending one matching both
   * references, and moves an account to a new plan only on a verified success.
   */
  lemma ErcaspayTouchesOnlyPendingMatch(l: Ledger, live: bool, signature: Option<string>, expected: string,
                                        n: ErcasNotice, verifiedStatus: string, clock: Clock)
    ensures var o := ErcaspayWebhook(l, live, signature, expected, n, verifiedStatus, clock);
      o.after.plans == l.plans && o.after.promoCodes == l.promoCodes
      && |o.after.transactions| == |l.transactions|
      && (forall i :: 0 <= i < |l.transactions| && o.after.transactions[i] != l.transactions[i] ==> PendingFor(l.transactions[i], n))
      && (o.after.users != l.users ==> EqualsIgnoreCase(n.status, "successful") && EqualsIgnoreCase(verifiedStatus, "successful"))
      && (SignatureRejected(live, signature, expected) ==> o == Outcome(Failed, l))
  {
  }

  /** What a matched notice does, branch by branch. */
  lemma ErcaspayUpdate(l: Ledger, live: bool, signature: Option<string>, expected: string,
                       n: ErcasNotice, verifiedStatus: string, clock: Clock, k: nat)
    requires !SignatureRejected(live, signature, expected)
    requires FirstIndex(l.transactions, (t: Transaction) => PendingFor(t, n)) == Some(k)
    requires k < |l.transactions| && Owner(l.users, l.transactions[k]).Some?
    ensures var o := ErcaspayWebhook(l, live, signature, expected, n, verifiedStatus, clock);
      var switched := EqualsIgnoreCase(n.status, "successful") && EqualsIgnoreCase(verifiedStatus, "successful");
      o.response == Done
      && o.after.transactions[k].status == (if EqualsIgnoreCase(n.status, "successful") then verifiedStatus else n.status)
      && o.after.transactions[k].updatedAt == clock.now
      && (switched ==> o.after.users == Activate(l.users, l.transactions[k], clock).value)
      && (!switched ==> o.after.users == l.users)
  {
  }

  // ---------------------------------------------------------------------------
  // flutterwave webhook and verification

  /** The body of a flutterwave notification (event and data). */
  datatype FlutterNotice = FlutterNotice(event: string, id: int, status: string, amount: real, txRef: string, flwRef: string)

  /** flutterwave's answer to VerifyTransaction. */
  datatype FlutterVerification = FlutterVerification(status: string, dataStatus: string, flwRef: string)

  predicate VerifiedCharge(v: FlutterVerification)
  {
    EqualsIgnoreCase(v.status, "success") && EqualsIgnoreCase(v.dataStatus, "successful")
  }

  /** A live flutterwave transaction with the notice's amount and reference (ignoring case). */
  predicate ChargedBy(t: Transaction, n: FlutterNotice)
  {
    !t.isDeleted && EqualsIgnoreCase(t.provider, "flutterwave") && t.amount == n.amount
    && EqualsIgnoreCase(t.reference, n.txRef)
  }

  /**
   * UpdateFlutterwaveTransaction; `hash` is the "verif-hash" header, absent
   * when not sent. A completed, verified charge activates the plan; every
   * other notice for a matched transaction marks it "Failed".
   */
  function FlutterwaveWebhook(l: Ledger, hash: Option<string>, expected: string, n: FlutterNotice,
                              v: FlutterVerification, clock: Clock): Outcome
  {
    if hash.None? || hash.value != expected then Outcome(Failed, l)
    else match FirstIndex(l.transactions, (t: Transaction) => ChargedBy(t, n))
      case None => Outcome(Failed, l)
      case Some(k) =>
        var t := l.transactions[k];
        if EqualsIgnoreCase(n.event, "charge.completed") && EqualsIgnoreCase(n.status, "success") && VerifiedCharge(v) then
          match Activate(l.users, t, clock)
          case None => Outcome(Failed, l)
          case Some(us) =>
            var paid := t.(status := v.dataStatus, providerReference := v.flwRef, updatedAt := clock.now);
            Outcome(Done, l.(users := us, transactions := l.transactions[k := paid]))
        else
          var failed := t.(status := "Failed", providerReference := n.flwRef, updatedAt := clock.now);
          Outcome(Done, l.(transactions := l.transactions[k := failed]))
  }

  /** Without the header, or with a different hash, the notice is refused and nothing changes. */
  lemma FlutterwaveWithoutHashChangesNothing(l: Ledger, hash: Option<string>, expected: string, n: FlutterNotice,
                                             v: FlutterVerification, clock: Clock)
    requires hash.None? || hash.value != expected
    ensures FlutterwaveWebhook(l, hash, expected, n, v, clock) == Outcome(Failed, l)
  {
  }

  /** A matched notice that is not a verified completed charge marks its transaction "Failed" and nothing else. */
  lemma FlutterwaveMarksFailed(l: Ledger, expected: string, n: FlutterNotice, v: FlutterVerification, clock: Clock, k: nat)
    requires FirstIndex(l.transactions, (t: Transaction) => ChargedBy(t, n)) == Some(k)
    requires !(EqualsIgnoreCase(n.event, "charge.completed") && EqualsIgnoreCase(n.status, "success") && VerifiedCharge(v))
    ensures var o := FlutterwaveWebhook(l, Some(expected), expected, n, v, clock);
      o.response == Done && o.after.users == l.users
      && |o.after.transactions| == |l.transactions|
      && o.after.transactions[k].status == "Failed"
      && o.after.transactions[k].providerReference == n.flwRef
      && forall i :: 0 <= i < |l.transactions| && i != k ==> o.after.transactions[i] == l.transactions[i]
  {
  }

  /** The webhook changes an account only for a verified completed charge, and then by activation. */
  lemma FlutterwavePlanSwitch(l: Ledger, hash: Option<string>, expected: string, n: FlutterNotice,
                              v: FlutterVerification, clock: Clock)
    ensures var o := FlutterwaveWebhook(l, hash, expected, n, v, clock);
      o.after.users != l.users ==>
        hash == Some(expected) && VerifiedCharge(v)
        && EqualsIgnoreCase(n.event, "charge.completed") && EqualsIgnoreCase(n.status, "success")
        && exists k :: (0 <= k < |l.transactions| && ChargedBy(l.transactions[k], n)
             && Activate(l.users, l.transactions[k], clock).Some?
             && o.after.users == Activate(l.users, l.transactions[k], clock).value)
  {
  }

  /**
   * VerifyFlutterwave: the caller's live transaction with the reference is
   * marked paid and its plan activated when flutterwave confirms the charge;
   * otherwise nothing changes.
   */
  function VerifyPayment(l: Ledger, caller: Caller, reference: string, transactionId: int,
                         v: FlutterVerification, clock: Clock): Outcome
  {
    if !Identified(caller) then Outcome(Unauthorised, l)
    else match FirstIndex(l.transactions, (t: Transaction) =>
                 !t.isDeleted && EqualsIgnoreCase(t.reference, reference) && t.userId == caller.id.value)
      case None => Outcome(Failed, l)
      case Some(k) =>
        if !VerifiedCharge(v) then Outcome(Failed, l)
        else
          var t := l.transactions[k];
          match Activate(l.users, t, clock)
          case None => Outcome(Failed, l)
          case Some(us) =>
            var paid := t.(status := v.dataStatus, providerReference := IntToString(transactionId), updatedAt := clock.now);
            Outcome(Done, l.(users := us, transactions := l.transactions[k := paid]))
  }

  lemma VerifyPaymentActivates(l: Ledger, caller: Caller, reference: string, transactionId: int,
                               v: FlutterVerification, clock: Clock)
    ensures var o := VerifyPayment(l, caller, reference, transactionId, v, clock);
      (o.response.status == success ==> (VerifiedCharge(v) && Identified(caller)
        && exists k :: (0 <= k < |l.transactions| && l.transactions[k].userId == caller.id.value
             && !l.transactions[k].isDeleted && EqualsIgnoreCase(l.transactions[k].reference, reference)
             && Activate(l.users, l.transactions[k], clock).Some?
             && o.after.users == Activate(l.users, l.transactions[k], clock).value
             && o.after.transactions == l.transactions[k := o.after.transactions[k]]
             && o.after.transactions[k].status == v.dataStatus)))
      && (o.response.status != success ==> o.after == l)
  {
  }

  // ---------------------------------------------------------------------------
  // Reads

  /** GetTransactionById: admins see any transaction, others only their own; deleted rows are not hidden. */
  function GetTransactionById(ts: seq<Transaction>, caller: Caller, id: int): Reply<Transaction>
  {
    if !Identified(caller) then Reply(Unauthorised, None)
    else match FirstIndex(ts, (t: Transaction) => (IsAdmin(caller) || t.userId == caller.id.value) && t.id == id)
      case None => Reply(Response(failure, "Transaction does not exist"), None)
      case Some(k) => Reply(Response(success, "Success"), Some(ts[k]))
  }

  lemma TransactionByIdIff(ts: seq<Transaction>, caller: Caller, id: int)
    ensures var r := GetTransactionById(ts, caller, id).body;
      (r.Some? <==> (Identified(caller)
        && exists k :: 0 <= k < |ts| && ts[k].id == id && (IsAdmin(caller) || ts[k].userId == caller.id.value)))
      && (r.Some? ==> r.value in ts && r.value.id == id && (IsAdmin(caller) || r.value.userId == caller.id.value))
  {
  }

  /** GetUserTransactions: every transaction of the caller, deleted ones included, newest first, one page. */
  function GetUserTransactions(ts: seq<Transaction>, caller: Caller, page: int, limit: int): Reply<Listing<Transaction>>
  {
    if !Identified(caller) then Reply(Unauthorised, None)
    else
      var w := Paging.Normalize(page, limit);
      var mine := Filter(ts, (t: Transaction) => t.userId == caller.id.value);
      Reply(Response(success, "Success"), Some(Listing(|mine|, Paging.Take(NewestFirst(mine, TransactionId), w))))
  }

  lemma UserTransactionsAreOwn(ts: seq<Transaction>, caller: Caller, page: int, limit: int)
    requires Identified(caller)
    ensures var r := GetUserTransactions(ts, caller, page, limit).body;
      r.Some?
      && |r.value.items| <= Paging.Normalize(page, limit).limit
      && r.value.totalSize == CountWhere(ts, (t: Transaction) => t.userId == caller.id.value)
      && (forall k :: 0 <= k < |r.value.items| ==> r.value.items[k] in ts && r.value.items[k].userId == caller.id.value)
      && Descending(r.value.items, TransactionId)
  {
    var w := Paging.Normalize(page, limit);
    var mine := Filter(ts, (t: Transaction) => t.userId == caller.id.value);
    Paging.NewestPage(mine, TransactionId, w);
  }

  /**
   * The admin search: the owner's name or email contains the query, the
   * provider or either reference equals it, or the status contains it, all
   * ignoring case; an absent or empty query matches everything.
   */
  predicate MatchesQuery(users: seq<User>, t: Transaction, query: Option<string>)
  {
    query.None? || query.value == []
    || (match FirstIndex(users, (u: User) => u.id == t.userId)
        case None => false
        case Some(u) => ContainsIgnoreCase(users[u].fullname, query.value) || ContainsIgnoreCase(users[u].email, query.value))
    || EqualsIgnoreCase(t.provider, query.value)
    || EqualsIgnoreCase(t.reference, query.value)
    || EqualsIgnoreCase(t.providerReference, query.value)
    || ContainsIgnoreCase(t.status, query.value)
  }

  /** GetTransactions (admins): TotalSize counts every live transaction, whatever the query. */
  function GetTransactions(ts: seq<Transaction>, users: seq<User>, caller: Caller, page: int, limit: int,
                           query: Option<string>): Reply<Listing<Transaction>>
  {
    if !IsAdmin(caller) then Reply(Unauthorised, None)
    else
      var w := Paging.Normalize(page, limit);
      var live := Filter(ts, (t: Transaction) => !t.isDeleted);
      var hits := Filter(ts, (t: Transaction) => !t.isDeleted && MatchesQuery(users, t, query));
      Reply(Response(success, "Success"), Some(Listing(|live|, Paging.Take(NewestFirst(hits, TransactionId), w))))
  }

  lemma TransactionsListingAdminOnly(ts: seq<Transaction>, users: seq<User>, caller: Caller, page: int, limit: int,
                                     query: Option<string>)
    ensures GetTransactions(ts, users, caller, page, limit, query).body.Some? <==> IsAdmin(caller)
    ensures var r := GetTransactions(ts, users, caller, page, limit, query).body;
      r.Some? ==>
        r.value.totalSize == CountWhere(ts, (t: Transaction) => !t.isDeleted)
        && |r.value.items| <= Paging.Normalize(page, limit).limit
        && (forall k :: 0 <= k < |r.value.items| ==>
          r.value.items[k] in ts && !r.value.items[k].isDeleted && MatchesQuery(users, r.value.items[k], query))
        && Descending(r.value.items, TransactionId)
  {
    if IsAdmin(caller) {
      var w := Paging.Normalize(page, limit);
      var hits := Filter(ts, (t: Transaction) => !t.isDeleted && MatchesQuery(users, t, query));
      Paging.NewestPage(hits, TransactionId, w);
    }
  }

  // ---------------------------------------------------------------------------
  // The service

  class TransactionService {
    var users: seq<User>
    var plans: seq<Plan>
    var promoCodes: seq<PromoCode>
    var transactions: seq<Transaction>

    function State(): Ledger
      reads this
    {
      Ledger(users, plans, promoCodes, transactions)
    }

    constructor(l: Ledger)
      ensures State() == l
    {
      users := l.users;
      plans := l.plans;
      promoCodes := l.promoCodes;
      transactions := l.transactions;
    }

    /** AddTransaction; `id` is the new transaction's key, returned with a success. */
    method AddTransaction(caller: Caller, planId: int, yearly: bool, provider: string, promo: Option<string>,
                          gw: Gateway, clock: Clock) returns (r: Response, id: Option<int>)
      modifies this
      ensures var o := Checkout(old(State()), caller, planId, yearly, provider, promo, gw, clock);
        r == o.response && State() == o.after
      ensures id.Some? <==> r.status == success
      ensures id.Some? ==> |transactions| > 0 && id.value == transactions[|transactions| - 1].id
    {
      if AddTransactionValidator.Validate(plans, planId, Some(yearly), provider) != [] {
        return Response(invalid_format, "Data not formatted properly"), None;
      }
      if !Identified(caller) {
        return Unauthorised, None;
      }
      // BeginTransaction: from here on, an early return rolls back.
      var account := ActiveAccount(users, caller.id.value);
      if account.None? {
        return Failed, None;
      }
      var found := LivePlan(plans, planId);
      if found.None? {
        return Failed, None;
      }
      assert Checkout(State(), caller, planId, yearly, provider, promo, gw, clock)
          == Redemption(State(), caller.id.value, plans[found.value], yearly, provider, promo, gw, clock);
      r, id := Redeem(caller.id.value, plans[found.value], yearly, provider, promo, gw, clock);
    }

    /** The promo code is checked and used once, then the provider is called. */
    method Redeem(userId: int, plan: Plan, yearly: bool, provider: string, promo: Option<string>,
                  gw: Gateway, clock: Clock) returns (r: Response, id: Option<int>)
      modifies this
      ensures var o := Redemption(old(State()), userId, plan, yearly, provider, promo, gw, clock);
        r == o.response && State() == o.after
      ensures id.Some? <==> r.status == success
      ensures id.Some? ==> |transactions| > 0 && id.value == transactions[|transactions| - 1].id
    {
      var before := promoCodes;
      var redeemed: Option<PromoCode> := None;
      match CheckPromo(promoCodes, promo, clock.today) {
        case Unknown =>
          return Response(invalid_promo_code, "Promo code doesn't exist"), None;
        case Expired =>
          return Response(expired_promo_code, "Promo code has expired"), None;
        case NoCode =>
        case Redeem(k) =>
          redeemed := Some(promoCodes[k]);
          promoCodes := promoCodes[k := promoCodes[k].(usageCount := promoCodes[k].usageCount + 1)];
      }
      r, id := Dispatch(before, userId, plan, yearly, provider, Amount(plan, yearly, redeemed), gw, clock.now);
    }

    /**
     * Provider dispatch once the promo code is applied; `before` is the promo
     * table as it was when the database transaction began.
     */
    method Dispatch(before: seq<PromoCode>, userId: int, plan: Plan, yearly: bool, provider: string, amount: real,
                  gw: Gateway, now: int) returns (r: Response, id: Option<int>)
      modifies this
      ensures var o := Charge(old(State()).(promoCodes := before), old(promoCodes), userId, plan, yearly,
                              provider, amount, gw, now);
        r == o.response && State() == o.after
      ensures id.Some? <==> r.status == success
      ensures id.Some? ==> |transactions| > 0 && id.value == transactions[|transactions| - 1].id
    {
      var newId := NextId(transactions, (t: Transaction) => t.id);
      if EqualsIgnoreCase(provider, "ercaspay") {
        if !gw.ercas.requestSuccessful {
          promoCodes := before;
          return Failed, None;
        }
        transactions := transactions + [Transaction(newId, "ercaspay", gw.ercas.paymentReference, gw.ercas.transactionReference,
                                                    yearly, userId, plan.id, amount, "Pending", false, now, now)];
        return Response(success, ""), Some(newId);
      } else if EqualsIgnoreCase(provider, "flutterwave") {
        if !EqualsIgnoreCase(gw.flutter.status, "success") {
          promoCodes := before;
          return Failed, None;
        }
        transactions := transactions + [Transaction(newId, "flutterwave", gw.flutter.txRef, "",
                                                    yearly, userId, plan.id, amount, "Pending", false, now, now)];
        return Response(success, ""), Some(newId);
      }
      promoCodes := before;
      return Failed, None;
    }

    /** Moves the owner of `t` to its plan; false when the owner row is missing (nothing changes then). */
    method ActivatePlan(t: Transaction, clock: Clock) returns (ok: bool)
      modifies this`users
      ensures var a := Activate(old(users), t, clock);
        ok == a.Some? && (ok ==> users == a.value) && (!ok ==> users == old(users))
    {
      var owner := Owner(users, t);
      if owner.None? {
        return false;
      }
      var u := owner.value;
      users := users[u := users[u].(planId := t.planId)];
      users := users[u := users[u].(planExpiration := Some(if t.isYearly then clock.yearAhead else clock.monthAhead))];
      return true;
    }

    method UpdateErcaspayTransaction(live: bool, signature: Option<string>, expected: string, n: ErcasNotice,
                                     verifiedStatus: string, clock: Clock) returns (r: Response)
      modifies this
      ensures var o := ErcaspayWebhook(old(State()), live, signature, expected, n, verifiedStatus, clock);
        r == o.response && State() == o.after
    {
      if SignatureRejected(live, signature, expected) {
        return Failed;
      }
      var found := FirstIndex(transactions, (t: Transaction) => PendingFor(t, n));
      if found.None? {
        return Failed;
      }
      var k := found.value;
      var t := transactions[k];
      var status := n.status;
      if EqualsIgnoreCase(n.status, "successful") {
        if EqualsIgnoreCase(verifiedStatus, "successful") {
          var ok := ActivatePlan(t, clock);
          if !ok {
            return Failed;
          }
        }
        status := verifiedStatus;
      }
      transactions := transactions[k := t.(status := status, updatedAt := clock.now)];
      return Done;
    }

    method UpdateFlutterwaveTransaction(hash: Option<string>, expected: string, n: FlutterNotice,
                                        v: FlutterVerification, clock: Clock) returns (r: Response)
      modifies this
      ensures var o := FlutterwaveWebhook(old(State()), hash, expected, n, v, clock);
        r == o.response && State() == o.after
    {
      if hash.None? || hash.value != expected {
        return Failed;
      }
      var found := FirstIndex(transactions, (t: Transaction) => ChargedBy(t, n));
      if found.None? {
        return Failed;
      }
      var k := found.value;
      var t := transactions[k];
      if EqualsIgnoreCase(n.event, "charge.completed") && EqualsIgnoreCase(n.status, "success") && VerifiedCharge(v) {
        var ok := ActivatePlan(t, clock);
        if !ok {
          return Failed;
        }
        transactions := transactions[k := t.(status := v.dataStatus, providerReference := v.flwRef, updatedAt := clock.now)];
        return Done;
      }
      transactions := transactions[k := t.(status := "Failed", providerReference := n.flwRef, updatedAt := clock.now)];
      return Done;
    }

    method VerifyFlutterwave(caller: Caller, reference: string, transactionId: int, v: FlutterVerification,
                             clock: Clock) returns (r: Response)
      modifies this
      ensures var o := VerifyPayment(old(State()), caller, reference, transactionId, v, clock);
        r == o.response && State() == o.after
    {
      if !Identified(caller) {
        return Unauthorised;
      }
      var found := FirstIndex(transactions, (t: Transaction) =>
        !t.isDeleted && EqualsIgnoreCase(t.reference, reference) && t.userId == caller.id.value);
      if found.None? {
        return Failed;
      }
      if !VerifiedCharge(v) {
        return Failed;
      }
      var k := found.value;
      var t := transactions[k];
      var ok := ActivatePlan(t, clock);
      if !ok {
        return Failed;
      }
      transactions := transactions[k := t.(status := v.dataStatus, providerReference := IntToString(transactionId),
                                           updatedAt := clock.now)];
      return Done;
    }
  }
}
