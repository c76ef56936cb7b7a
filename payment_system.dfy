/** The token shop: the fixed price table, the preview of a grant, and the
    payment the form emits. */
module PaymentSystem {
  import opened Optional
  import opened Text
  import opened Records
  import Lists

  /** One entry of `paymentOptions`; `tokens` already includes `bonus`. */
  datatype Tier = Tier(amount: int, tokens: int, bonus: int)

  const PaymentOptions: seq<Tier> := [
    Tier(500, 50, 0), Tier(1000, 110, 10), Tier(2000, 240, 40), Tier(5000, 650, 150)
  ]

  /** `paymentOptions.find(opt => opt.amount === amount)`. */
  function TierFor(amount: int): (t: Option<Tier>)
    ensures t.Some? ==> t.value in PaymentOptions && t.value.amount == amount
    ensures t.None? <==> forall i :: 0 <= i < |PaymentOptions| ==> PaymentOptions[i].amount != amount
  {
    match Lists.FirstIndex(PaymentOptions, (o: Tier) => o.amount == amount)
    case Some(k) => Some(PaymentOptions[k])
    case None => None
  }

  /** The table: exactly four amounts are sold, at the listed token counts,
      and every tier's tokens are a tenth of its price plus its bonus. */
  lemma TierTable(amount: int)
    ensures TierFor(amount).Some? <==> amount in {500, 1000, 2000, 5000}
    ensures amount == 500 ==> TierFor(amount) == Some(Tier(500, 50, 0))
    ensures amount == 1000 ==> TierFor(amount) == Some(Tier(1000, 110, 10))
    ensures amount == 2000 ==> TierFor(amount) == Some(Tier(2000, 240, 40))
    ensures amount == 5000 ==> TierFor(amount) == Some(Tier(5000, 650, 150))
    ensures TierFor(amount).Some? ==> TierFor(amount).value.tokens == amount / 10 + TierFor(amount).value.bonus
  {
    var p := (o: Tier) => o.amount == amount;
    if amount == 500 {
      assert Lists.FirstIndex(PaymentOptions, p) == Some(0);
    } else if amount == 1000 {
      assert Lists.FirstIndex(PaymentOptions, p) == Some(1);
    } else if amount == 2000 {
      assert Lists.FirstIndex(PaymentOptions, p) == Some(2);
    } else if amount == 5000 {
      assert Lists.FirstIndex(PaymentOptions, p) == Some(3);
    }
  }

  /** `customAmount`: the amount is not one of the tiers. */
  predicate IsCustomAmount(amount: int) {
    TierFor(amount).None?
  }

  /** The Pay button is disabled below 100. */
  predicate PayDisabled(amount: int) {
    amount < 100
  }

  /** A request for a payment, as `onPayment` receives it. */
  datatype PaymentRequest = PaymentRequest(amount: int, tokens: int, payMethod: PayMethod, description: string)

  /** `` `Purchase of ${tokens} tokens` ``. */
  function PurchaseDescription(tokens: nat): string {
    "Purchase of " + DecimalString(tokens) + " tokens"
  }

  /** What `handlePayment` emits: nothing for a custom amount or a declined
      confirmation, else the tier's amount and tokens. */
  function PaymentFor(amount: int, payMethod: PayMethod, confirmed: bool): (r: Option<PaymentRequest>)
    ensures r.Some? <==> !IsCustomAmount(amount) && confirmed
    ensures r.Some? ==> r.value.amount == amount && r.value.tokens == TierFor(amount).value.tokens
    ensures r.Some? ==> r.value.payMethod == payMethod && r.value.description == PurchaseDescription(r.value.tokens)
  {
    match TierFor(amount)
    case None => None
    case Some(t) =>
      if !confirmed then None
      else
        TierTable(amount);
        Some(PaymentRequest(amount, t.tokens, payMethod, PurchaseDescription(t.tokens)))
  }

  /** Every payment that can be emitted is for one of the four tiers and
      buys a positive number of tokens at a positive price. */
  lemma EmittedPaymentIsTier(amount: int, payMethod: PayMethod, confirmed: bool)
    requires PaymentFor(amount, payMethod, confirmed).Some?
    ensures amount in {500, 1000, 2000, 5000}
    ensures PaymentFor(amount, payMethod, confirmed).value.tokens > 0 && amount > 0
  {
    TierTable(amount);
  }

  /** Amounts below the minimum are all custom amounts, so a disabled button
      hides nothing that could be paid. */
  lemma DisabledIsCustom(amount: int)
    requires PayDisabled(amount)
    ensures IsCustomAmount(amount)
  {
    TierTable(amount);
  }

  /** The preview as written: `floor(a / 10)` plus, from 1000 up,
      `floor(a / 50)`; shown only from 100 up. */
  function PreviewGrant(amount: int): (g: Option<int>)
    ensures g.Some? <==> amount >= 100
    ensures g.Some? ==> g.value >= amount / 10
  {
    if amount >= 100 then Some(amount / 10 + (if amount >= 1000 then amount / 50 else 0)) else None
  }

  /** The preview promises 120 tokens for 1000 and 600 for 5000, while the
      table (and the payment emitted) gives 110 and 650. */
  lemma PreviewDisagreesWithTable()
    ensures PreviewGrant(1000) == Some(120) && PaymentFor(1000, Upi, true).value.tokens == 110
    ensures PreviewGrant(5000) == Some(600) && PaymentFor(5000, Upi, true).value.tokens == 650
    ensures PreviewGrant(500) == Some(50) && PreviewGrant(2000) == Some(240)
  {
    TierTable(1000);
    TierTable(5000);
  }

  /** The preview the shop should show: the tier's tokens for a tier amount,
      the formula for any other amount from 100 up. */
  function QuotedGrant(amount: int): (g: Option<int>)
    ensures g.Some? <==> amount >= 100
    ensures TierFor(amount).Some? ==> g == Some(TierFor(amount).value.tokens)
    ensures IsCustomAmount(amount) ==> g == PreviewGrant(amount)
  {
    TierTable(amount);
    if TierFor(amount).Some? then Some(TierFor(amount).value.tokens) else PreviewGrant(amount)
  }

  /** Whenever a payment is emitted, the quote shown beforehand is exactly
      the number of tokens it buys. */
  lemma QuoteMatchesPayment(amount: int, payMethod: PayMethod)
    requires PaymentFor(amount, payMethod, true).Some?
    ensures QuotedGrant(amount) == Some(PaymentFor(amount, payMethod, true).value.tokens)
  {
  }

  /** The form state of the component. */
  class PaymentForm {
    var paymentAmount: int
    var paymentMethod: PayMethod

    constructor ()
      ensures paymentAmount == 500 && paymentMethod == Upi
    {
      paymentAmount := 500;
      paymentMethod := Upi;
    }

    /** The grant shown under the amount, as written: the preview formula
        for every amount of 100 or more, listed amounts included. */
    function Preview(): (g: Option<int>)
      reads this
      ensures g.Some? <==> paymentAmount >= 100
      ensures g.Some? ==> g.value >= paymentAmount / 10
    {
      PreviewGrant(paymentAmount)
    }

    /** Clicking a tier card or typing an amount. */
    method SetPaymentAmount(amount: int)
      modifies this
      ensures paymentAmount == amount && paymentMethod == old(paymentMethod)
    {
      paymentAmount := amount;
    }

    method SetPaymentMethod(m: PayMethod)
      modifies this
      ensures paymentMethod == m && paymentAmount == old(paymentAmount)
    {
      paymentMethod := m;
    }

    /** `handlePayment` with the answer to the confirmation dialog: emits
        `PaymentFor` of the current amount and resets the amount to 500 when
        something was emitted. */
    method HandlePayment(confirmed: bool) returns (emitted: Option<PaymentRequest>)
      modifies this
      ensures emitted == PaymentFor(old(paymentAmount), paymentMethod, confirmed)
      ensures paymentAmount == if emitted.Some? then 500 else old(paymentAmount)
      ensures paymentMethod == old(paymentMethod)
    {
      var selected := TierFor(paymentAmount);
      if selected.None? {
        return None;
      }
      if !confirmed {
        return None;
      }
      TierTable(paymentAmount);
      emitted := Some(PaymentRequest(paymentAmount, selected.value.tokens, paymentMethod,
                                     PurchaseDescription(selected.value.tokens)));
      paymentAmount := 500;
    }
  }
}
