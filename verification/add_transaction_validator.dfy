/** The rules on a new transaction request: plan, billing period and payment provider. */
module AddTransactionValidator {
  import opened Common
  import opened Text
  import opened Entities

  predicate IsProviderEnabled(provider: string)
  {
    EqualsIgnoreCase(provider, "flutterwave") || EqualsIgnoreCase(provider, "ercaspay")
  }

  /** numbers.All(char.IsDigit), on ASCII digits. */
  predicate OnlyDigits(numbers: string)
  {
    forall i :: 0 <= i < |numbers| ==> IsDigit(numbers[i])
  }

  predicate IsCvvValid(cvv: string)
  {
    OnlyDigits(cvv) && |cvv| == 3
  }

  /** PlanExists: some plan with that id is not deleted. */
  predicate PlanExists(plans: seq<Plan>, id: int)
  {
    FirstIndex(plans, (p: Plan) => p.id == id && !p.isDeleted).Some?
  }

  /** The messages of the three rule chains, in declaration order. */
  function Validate(plans: seq<Plan>, planId: int, yearly: Option<bool>, provider: string): seq<string>
  {
    (if PlanExists(plans, planId) then [] else ["Invalid plan"])
    + (if planId != 0 then [] else ["PlanId is required"])
    + (if yearly.Some? then [] else ["Yearly is required"])
    + (if IsProviderEnabled(provider) then [] else ["Provider is not supported"])
    + (if !IsBlank(provider) then [] else ["Provider is required"])
  }

  /** Exactly the two payment providers are enabled, in any letter case. */
  lemma ProviderEnabledIff(provider: string)
    ensures IsProviderEnabled(provider) <==> ToLower(provider) == "flutterwave" || ToLower(provider) == "ercaspay"
  {
    LowerNames();
  }

  lemma LowerNames()
    ensures ToLower("flutterwave") == "flutterwave" && ToLower("ercaspay") == "ercaspay"
  {
    ToLowerOfLower("flutterwave");
    ToLowerOfLower("ercaspay");
  }

  lemma MixedCaseProviders()
    ensures IsProviderEnabled("FlutterWave") && IsProviderEnabled("ERCASPAY") && !IsProviderEnabled("paystack")
  {
    LowerNames();
    assert ToLower("FlutterWave") == "flutterwave";
    assert ToLower("ERCASPAY") == "ercaspay";
    assert ToLower("paystack") == "paystack";
  }

  /** The empty string consists only of digits; one non-digit spoils a string. */
  lemma OnlyDigitsCases(s: string, k: nat)
    ensures OnlyDigits("")
    ensures k < |s| && !IsDigit(s[k]) ==> !OnlyDigits(s)
  {
  }

  /** A CVV is valid iff it is three digits. */
  lemma CvvValidIff(cvv: string)
    ensures IsCvvValid(cvv) <==> |cvv| == 3 && IsDigit(cvv[0]) && IsDigit(cvv[1]) && IsDigit(cvv[2])
  {
  }

  lemma CvvExamples()
    ensures IsCvvValid("123") && !IsCvvValid("12") && !IsCvvValid("1234") && !IsCvvValid("12a")
  {
    assert !IsDigit("12a"[2]);
  }

  /** An unsupported provider is reported as "Provider is not supported". */
  lemma UnsupportedProviderMessage(plans: seq<Plan>, planId: int, yearly: Option<bool>, provider: string)
    requires !IsProviderEnabled(provider)
    ensures "Provider is not supported" in Validate(plans, planId, yearly, provider)
  {
    var a := (if PlanExists(plans, planId) then [] else ["Invalid plan"])
      + (if planId != 0 then [] else ["PlanId is required"])
      + (if yearly.Some? then [] else ["Yearly is required"]);
    var b := if !IsBlank(provider) then [] else ["Provider is required"];
    assert Validate(plans, planId, yearly, provider) == a + ["Provider is not supported"] + b;
    assert (a + ["Provider is not supported"] + b)[|a|] == "Provider is not supported";
  }

  /**
   * "Provider is required" is reported exactly for a provider made only of
   * white space, as Char.IsWhiteSpace counts it: a lone no-break space is one.
   */
  lemma BlankProviderMessage(plans: seq<Plan>, planId: int, yearly: Option<bool>, provider: string)
    ensures "Provider is required" in Validate(plans, planId, yearly, provider) <==> IsBlank(provider)
    ensures IsBlank("\U{00A0}")
  {
    var a := (if PlanExists(plans, planId) then [] else ["Invalid plan"])
      + (if planId != 0 then [] else ["PlanId is required"])
      + (if yearly.Some? then [] else ["Yearly is required"])
      + (if IsProviderEnabled(provider) then [] else ["Provider is not supported"]);
    var b := if !IsBlank(provider) then [] else ["Provider is required"];
    assert Validate(plans, planId, yearly, provider) == a + b;
    assert "Provider is required" !in a;
    if IsBlank(provider) {
      assert (a + b)[|a|] == "Provider is required";
    }
  }
}
