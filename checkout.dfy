/**
 * The checkout component of components/order-process.tsx: card-brand
 * detection from the typed card number, and the three-step progression
 * shipping, payment, confirmation.
 */
module Checkout {
  import opened Wrappers

  /** `ACCEPTED_CARDS`, the brands shown under the card-number input. */
  const AcceptedCards: seq<string> := ["visa", "mastercard", "amex", "discover"]

  predicate StartsWith(s: string, prefix: string)
  {
    |prefix| <= |s| && s[..|prefix|] == prefix
  }

  /** `/^5[1-5]/` */
  predicate MatchesMastercard(s: string)
  {
    StartsWith(s, "5") && |s| >= 2 && '1' <= s[1] <= '5'
  }

  /** `/^3[47]/` */
  predicate MatchesAmex(s: string)
  {
    StartsWith(s, "3") && |s| >= 2 && (s[1] == '4' || s[1] == '7')
  }

  /** `/^6(?:011|5)/` */
  predicate MatchesDiscover(s: string)
  {
    StartsWith(s, "6") && (StartsWith(s[1..], "011") || StartsWith(s[1..], "5"))
  }

  /** `detectCardType`: the first prefix test that matches names the brand. */
  function DetectCardType(cardNumber: string): (brand: Option<string>)
    ensures brand.Some? ==> brand.value in AcceptedCards
  {
    if StartsWith(cardNumber, "4") then Some("visa")
    else if MatchesMastercard(cardNumber) then Some("mastercard")
    else if MatchesAmex(cardNumber) then Some("amex")
    else if MatchesDiscover(cardNumber) then Some("discover")
    else None
  }

  /** The brand read off the leading digits alone. */
  lemma DetectCardTypeByDigits(s: string)
    ensures DetectCardType(s) == Some("visa") <==> |s| >= 1 && s[0] == '4'
    ensures DetectCardType(s) == Some("mastercard") <==>
              |s| >= 2 && s[0] == '5' && s[1] in "12345"
    ensures DetectCardType(s) == Some("amex") <==>
              |s| >= 2 && s[0] == '3' && s[1] in "47"
    ensures DetectCardType(s) == Some("discover") <==>
              |s| >= 2 && s[0] == '6' && (s[1] == '5' || (|s| >= 4 && s[1..4] == "011"))
    ensures DetectCardType(s) == None <==>
              |s| == 0 || (s[0] !in "4536")
              || (s[0] == '5' && (|s| == 1 || s[1] !in "12345"))
              || (s[0] == '3' && (|s| == 1 || s[1] !in "47"))
              || (s[0] == '6' && (|s| == 1 || (s[1] != '5' && (|s| < 4 || s[1..4] != "011"))))
  {
  }

  /** Prefixes such as "50", "56", "31", "6012" and "64" name no brand; neither does "" or " 4". */
  lemma UnknownPrefixes()
    ensures DetectCardType("50") == None && DetectCardType("56") == None
    ensures DetectCardType("31") == None
    ensures DetectCardType("6012") == None && DetectCardType("64") == None
    ensures DetectCardType("") == None && DetectCardType(" 4") == None
  {
    DetectCardTypeByDigits("6012");
    assert "6012"[1..4][2] == '2';
    DetectCardTypeByDigits("64");
    assert "64"[0] == '6' && "64"[1] == '4';
    DetectCardTypeByDigits(" 4");
  }

  /** A prefix that already names a brand keeps it whatever is typed after it. */
  lemma BrandIsPrefixStable(s: string, more: string)
    requires DetectCardType(s).Some?
    ensures DetectCardType(s + more) == DetectCardType(s)
  {
  }

  // ---------------------------------------------------------------------------
  // Steps
  // ---------------------------------------------------------------------------

  /**
   * The step after submitting the form the current step renders: the
   * shipping form (step 1) leads to 2, the payment form (step 2) to 3, and
   * step 3 renders no form.
   */
  function StepAfterSubmit(step: int): (next: int)
    requires 1 <= step <= 3
    ensures step <= next <= 3
    ensures next == if step < 3 then step + 1 else 3
  {
    match step
    case 1 => 2
    case 2 => 3
    case _ => step
  }

  function StepAfterSubmits(step: int, n: nat): (final: int)
    requires 1 <= step <= 3
    decreases n
  {
    if n == 0 then step else StepAfterSubmits(StepAfterSubmit(step), n - 1)
  }

  /** From step 1, any number of submissions leaves the flow at 1 + n, capped at 3. */
  lemma {:induction false} StepsFromStart(step: int, n: nat)
    requires 1 <= step <= 3
    ensures StepAfterSubmits(step, n) == if step + n <= 3 then step + n else 3
    decreases n
  {
    if n > 0 {
      StepsFromStart(StepAfterSubmit(step), n - 1);
    }
  }

  /** The `step` and `cardType` state of the `OrderProcess` component. */
  class CheckoutFlow {
    var step: int
    var cardType: Option<string>

    ghost predicate Valid()
      reads this
    {
      1 <= step <= 3 && (cardType.Some? ==> cardType.value in AcceptedCards)
    }

    constructor ()
      ensures Valid() && step == 1 && cardType == None
    {
      step := 1;
      cardType := None;
    }

    /** `handleShippingSubmit`. */
    method HandleShippingSubmit()
      modifies this
      ensures step == 2 && cardType == old(cardType)
    {
      step := 2;
    }

    /** `handlePaymentSubmit` (the redirect timer is not modelled). */
    method HandlePaymentSubmit()
      modifies this
      ensures step == 3 && cardType == old(cardType)
    {
      step := 3;
    }

    /** Submitting whichever form the current step renders. */
    method SubmitForm()
      requires Valid()
      modifies this
      ensures Valid()
      ensures step == StepAfterSubmit(old(step)) && cardType == old(cardType)
      ensures old(step) <= step
    {
      if step == 1 {
        HandleShippingSubmit();
      } else if step == 2 {
        HandlePaymentSubmit();
      }
    }

    /** `handleCardNumberChange`. */
    method HandleCardNumberChange(cardNumber: string)
      requires Valid()
      modifies this
      ensures Valid()
      ensures cardType == DetectCardType(cardNumber) && step == old(step)
    {
      cardType := DetectCardType(cardNumber);
    }
  }
}
