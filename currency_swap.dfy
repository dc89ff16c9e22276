/**
 * The currency-swap form: the validation chain of `handleSwap`, the cross
 * rate it computes from the fetched price list, and the `handleSwitch`
 * exchange of the two token selections.
 *
 * `Convert` is the outcome of one swap as a function of the form's inputs;
 * `SwapForm` holds the component's state and its methods are proved to
 * leave that state as `Convert` says.
 */
module CurrencySwap {
  import opened Options

  /** One entry of the fetched price list. */
  datatype PriceData = PriceData(currency: string, price: real)

  /** What a successful swap displays. */
  datatype SwapResult = SwapResult(rate: real, output: real)

  /** Either the result of a swap or the message of the first check that failed. */
  datatype SwapOutcome = Swapped(result: SwapResult) | Rejected(message: string)

  const MissingSelection := "Please select both tokens."
  const IdenticalTokens := "Tokens must be different."
  const InvalidAmount := "Enter a valid amount greater than 0."
  const PriceUnavailable := "Price data unavailable for selected tokens."

  /** Every quoted price is positive, so that a cross rate is defined. */
  predicate PositivePrices(prices: seq<PriceData>) {
    forall i :: 0 <= i < |prices| ==> prices[i].price > 0.0
  }

  /** Index of the first entry quoting `currency`, as `Array.prototype.find` scans. */
  function FirstIndex(prices: seq<PriceData>, currency: string): (r: Option<nat>)
    ensures r.Some? ==> r.value < |prices| && prices[r.value].currency == currency
    ensures r.Some? ==> forall j :: 0 <= j < r.value ==> prices[j].currency != currency
    ensures r.None? <==> forall j :: 0 <= j < |prices| ==> prices[j].currency != currency
  {
    if prices == [] then None
    else if prices[0].currency == currency then Some(0)
    else match FirstIndex(prices[1..], currency)
      case None => None
      case Some(k) => Some(k + 1)
  }

  /** The entry `prices.find(p => p.currency === currency)` returns. */
  function Find(prices: seq<PriceData>, currency: string): Option<PriceData> {
    match FirstIndex(prices, currency)
    case None => None
    case Some(i) => Some(prices[i])
  }

  /** The negation of `!value || value <= 0` on a parsed amount (`None` is NaN). */
  predicate ValidAmount(amount: Option<real>) {
    amount.Some? && amount.value != 0.0 && !(amount.value <= 0.0)
  }

  /**
   * The outcome of `handleSwap`: the checks run in order and the first one
   * that fails decides the message; otherwise the rate is the target's price
   * over the source's price and the output is the amount times the rate.
   */
  function Convert(prices: seq<PriceData>, fromToken: string, toToken: string, amount: Option<real>): (r: SwapOutcome)
    requires PositivePrices(prices)
    ensures r == Rejected(MissingSelection) <==> fromToken == "" || toToken == ""
    ensures r == Rejected(IdenticalTokens) <==> fromToken != "" && toToken != "" && fromToken == toToken
    ensures r == Rejected(InvalidAmount) <==>
      fromToken != "" && toToken != "" && fromToken != toToken && !ValidAmount(amount)
    ensures r == Rejected(PriceUnavailable) <==>
      fromToken != "" && toToken != "" && fromToken != toToken && ValidAmount(amount) &&
      (Find(prices, fromToken).None? || Find(prices, toToken).None?)
    ensures r.Swapped? <==>
      fromToken != "" && toToken != "" && fromToken != toToken && ValidAmount(amount) &&
      Find(prices, fromToken).Some? && Find(prices, toToken).Some?
    ensures r.Swapped? ==>
      var from, to := Find(prices, fromToken).value, Find(prices, toToken).value;
      && from.currency == fromToken && to.currency == toToken
      && r.result.rate * from.price == to.price
      && r.result.output == amount.value * r.result.rate
      && r.result.rate > 0.0 && r.result.output > 0.0
  {
    if fromToken == "" || toToken == "" then Rejected(MissingSelection)
    else if fromToken == toToken then Rejected(IdenticalTokens)
    else if !ValidAmount(amount) then Rejected(InvalidAmount)
    else
      var from, to := Find(prices, fromToken), Find(prices, toToken);
      if from.None? || to.None? then Rejected(PriceUnavailable)
      else
        var rate := to.value.price / from.value.price;
        Swapped(SwapResult(rate, amount.value * rate))
  }

  /** Swapping the selections rejects a request for the same reason, and inverts a successful rate. */
  lemma ConvertReversed(prices: seq<PriceData>, a: string, b: string, amount: Option<real>)
    requires PositivePrices(prices)
    ensures Convert(prices, a, b, amount).Rejected? <==> Convert(prices, b, a, amount).Rejected?
    ensures Convert(prices, a, b, amount).Rejected? ==>
      Convert(prices, a, b, amount).message == Convert(prices, b, a, amount).message
    ensures Convert(prices, a, b, amount).Swapped? ==>
      Convert(prices, a, b, amount).result.rate * Convert(prices, b, a, amount).result.rate == 1.0
  {
    if Convert(prices, a, b, amount).Swapped? {
      var pa, pb := Find(prices, a).value.price, Find(prices, b).value.price;
      var r, s := Convert(prices, a, b, amount).result.rate, Convert(prices, b, a, amount).result.rate;
      assert r == pb / pa && s == pa / pb;
      Reciprocal(pa, pb);
    }
  }

  lemma Reciprocal(p: real, q: real)
    requires p > 0.0 && q > 0.0
    ensures (q / p) * (p / q) == 1.0
  {
    var a, b := q / p, p / q;
    assert a * p == q && b * q == p;
    assert a * b * (p * q) == (a * p) * (b * q);
    EqualProducts(a * p, q, b * q, p);
    assert (a * b - 1.0) * (p * q) == 0.0;
  }

  lemma EqualProducts(x: real, x': real, y: real, y': real)
    requires x == x' && y == y'
    ensures x * y == x' * y'
  {
  }

  /** Converting the output back, from the target to the source, returns the original amount at the reciprocal rate. */
  lemma SwapBack(prices: seq<PriceData>, a: string, b: string, x: real)
    requires PositivePrices(prices)
    requires Convert(prices, a, b, Some(x)).Swapped?
    ensures var r := Convert(prices, a, b, Some(x)).result;
      Convert(prices, b, a, Some(r.output)) == Swapped(SwapResult(1.0 / r.rate, x))
  {
    var r := Convert(prices, a, b, Some(x)).result;
    ConvertReversed(prices, a, b, Some(r.output));
    var back := Convert(prices, b, a, Some(r.output)).result;
    assert back.rate * r.rate == 1.0;
    assert back.rate == 1.0 / r.rate;
    calc {
      back.output;
      == r.output * back.rate;
      == x * r.rate * back.rate;
      == x * (r.rate * back.rate);
      == x;
    }
  }

  /** A price list with USDC at 1 and ETH at 2000: 100 USDC gives the code's rate 2000 and output 200000. */
  lemma ConvertExample()
    ensures Convert([PriceData("USDC", 1.0), PriceData("ETH", 2000.0)], "USDC", "ETH", Some(100.0))
         == Swapped(SwapResult(2000.0, 200000.0))
  {
    var prices := [PriceData("USDC", 1.0), PriceData("ETH", 2000.0)];
    assert FirstIndex(prices, "USDC") == Some(0);
    assert FirstIndex(prices[1..], "ETH") == Some(0);
  }

  /** The state of the swap form component. */
  class SwapForm {
    var prices: seq<PriceData>
    var fromToken: string
    var toToken: string
    var amount: Option<real>
    var result: Option<SwapResult>
    var error: string

    /** The initial state: nothing fetched, selected or entered yet. */
    constructor ()
      ensures prices == [] && fromToken == "" && toToken == "" && amount == None
      ensures result == None && error == ""
    {
      prices, fromToken, toToken, amount := [], "", "", None;
      result, error := None, "";
    }

    /** The fetched price list arrives. */
    method LoadPrices(data: seq<PriceData>)
      modifies this`prices
      ensures prices == data
    {
      prices := data;
    }

    /** A token is picked in the "From" select; "" is the placeholder option. */
    method SelectFrom(token: string)
      modifies this`fromToken
      ensures fromToken == token
    {
      fromToken := token;
    }

    /** A token is picked in the "To" select. */
    method SelectTo(token: string)
      modifies this`toToken
      ensures toToken == token
    {
      toToken := token;
    }

    /** The amount field changes; `parsed` is its `parseFloat`, `None` for NaN. */
    method EnterAmount(parsed: Option<real>)
      modifies this`amount
      ensures amount == parsed
    {
      amount := parsed;
    }

    /**
     * `handleSwap`: clears the error and the result, then either records the
     * first failing check's message or the computed result.
     */
    method Swap()
      requires PositivePrices(prices)
      modifies this`result, this`error
      ensures prices == old(prices) && fromToken == old(fromToken)
      ensures toToken == old(toToken) && amount == old(amount)
      ensures Convert(prices, fromToken, toToken, amount).Swapped? ==>
        result == Some(Convert(prices, fromToken, toToken, amount).result) && error == ""
      ensures Convert(prices, fromToken, toToken, amount).Rejected? ==>
        result == None && error == Convert(prices, fromToken, toToken, amount).message
      ensures (error != "" && result == None) || (error == "" && result.Some?)
    {
      error := "";
      result := None;

      if fromToken == "" || toToken == "" {
        error := MissingSelection;
        return;
      }
      if fromToken == toToken {
        error := IdenticalTokens;
        return;
      }

      var value := amount;
      if value.None? || value.value == 0.0 || value.value <= 0.0 {
        error := InvalidAmount;
        return;
      }

      var from := Find(prices, fromToken);
      var to := Find(prices, toToken);
      if from.None? || to.None? {
        error := PriceUnavailable;
        return;
      }

      var rate := to.value.price / from.value.price;
      var output := value.value * rate;
      result := Some(SwapResult(rate, output));
      assert Convert(prices, fromToken, toToken, amount) == Swapped(SwapResult(rate, output));
    }

    /** `handleSwitch`: exchanges the two selections and clears the result. */
    method Switch()
      modifies this`fromToken, this`toToken, this`result
      ensures fromToken == old(toToken) && toToken == old(fromToken) && result == None
      ensures prices == old(prices) && amount == old(amount) && error == old(error)
    {
      fromToken, toToken := toToken, fromToken;
      result := None;
    }
  }

  /** Pressing the switch button twice restores both selections and leaves no result. */
  method SwitchTwice(form: SwapForm)
    modifies form
    ensures form.fromToken == old(form.fromToken) && form.toToken == old(form.toToken)
    ensures form.result == None
    ensures form.prices == old(form.prices) && form.amount == old(form.amount) && form.error == old(form.error)
  {
    form.Switch();
    form.Switch();
  }
}
