/** Black '76 prices for European options on forwards and futures
    (jaxfin/price_engine/black/black_model.py, `black_price`): the defaulting
    of dividend rates, the forward transform, the call/put selection by
    put-call parity and the final discounting.

    The array expressions of `black_price` (`jnp.exp`, `*`, `-` and
    `jnp.where`) act element by element. The model takes the undiscounted-call
    kernel to act element by element as well, writes the formula for one
    option once (`OptionPrice`) and maps it over arrays of equal length. The
    exponential and the kernel are parameters: the model fixes how they are
    combined, not their values. */
module BlackModel {
  import opened Wrappers

  /** The element-wise exponential `jnp.exp`. */
  type Exp = real -> real

  /** The undiscounted call price of one option from its forward, strike,
      expiry, volatility and discount rate. `compute_undiscounted_call_prices`
      is called once on whole arrays; typing it per option assumes that its
      element `i` depends only on the inputs' elements `i`. */
  type CallKernel = (real, real, real, real, real) -> real

  /** The model's name for `jnp.exp` applied to one value. */
  function Exponential(exp: Exp, x: real): real
  {
    exp(x)
  }

  /** The model's name for the kernel's undiscounted call price of one
      option. */
  function UndiscountedCall(
    kernel: CallKernel, forward: real, strike: real, expiry: real, vol: real, discountRate: real
  ): real
  {
    kernel(forward, strike, expiry, vol, discountRate)
  }

  /** The growth factor exp((r - q) * t) of one option (the array
      `discount_factors` of black_model.py) and the forward it carries the spot
      to. */
  datatype ForwardTransform = ForwardTransform(discountFactor: real, forward: real)

  function ForwardAndDiscount(
    exp: Exp, spot: real, expiry: real, discountRate: real, dividendRate: real
  ): ForwardTransform
  {
    var discountFactor := Exponential(exp, (discountRate - dividendRate) * expiry);
    ForwardTransform(discountFactor, discountFactor * spot)
  }

  /** The undiscounted put by put-call parity: call minus (forward - strike). */
  function UndiscountedPut(call: real, forward: real, strike: real): real
  {
    call - (forward - strike)
  }

  /** The discount factor of the masked path, exp(-1 * r * t). */
  function MaskedDiscount(exp: Exp, expiry: real, discountRate: real): real
  {
    Exponential(exp, -1.0 * discountRate * expiry)
  }

  /** The price of one option. `isCall` is `None` when `black_price` is
      called without a call/put mask: the call is then scaled by the growth
      factor. With a mask, the call or the parity put is taken and discounted
      by exp(-r * t). */
  function OptionPrice(
    exp: Exp, kernel: CallKernel,
    spot: real, strike: real, expiry: real, vol: real, discountRate: real, dividendRate: real,
    isCall: Option<bool>
  ): real
  {
    var ft := ForwardAndDiscount(exp, spot, expiry, discountRate, dividendRate);
    var call := UndiscountedCall(kernel, ft.forward, strike, expiry, vol, discountRate);
    match isCall
    case None => ft.discountFactor * call
    case Some(c) => MaskedDiscount(exp, expiry, discountRate) * (if c then call else UndiscountedPut(call, ft.forward, strike))
  }

  /** The shape `black_price` relies on: every array as long as the spots,
      the optional ones included when given. */
  predicate Conformable(
    spots: seq<real>, strikes: seq<real>, expires: seq<real>, vols: seq<real>,
    discountRates: seq<real>, dividendRates: Option<seq<real>>, areCalls: Option<seq<bool>>
  )
  {
    && |strikes| == |spots|
    && |expires| == |spots|
    && |vols| == |spots|
    && |discountRates| == |spots|
    && (dividendRates.Some? ==> |dividendRates.value| == |spots|)
    && (areCalls.Some? ==> |areCalls.value| == |spots|)
  }

  /** The dividend rate of element `i`: the given one, or zero. */
  function DividendAt(dividendRates: Option<seq<real>>, i: nat): real
    requires dividendRates.Some? ==> i < |dividendRates.value|
  {
    if dividendRates.Some? then dividendRates.value[i] else 0.0
  }

  /** The call/put flag of element `i`, or `None` without a mask. */
  function FlagAt(areCalls: Option<seq<bool>>, i: nat): (flag: Option<bool>)
    requires areCalls.Some? ==> i < |areCalls.value|
    ensures flag.Some? <==> areCalls.Some?
    ensures flag.Some? ==> flag.value == areCalls.value[i]
  {
    if areCalls.Some? then Some(areCalls.value[i]) else None
  }

  function Zeros(n: nat): seq<real>
  {
    seq(n, i => 0.0)
  }

  /** Omitted dividend rates become zeros shaped like the spots. */
  function DividendsOrZeros(dividendRates: Option<seq<real>>, n: nat): (q: seq<real>)
    requires dividendRates.Some? ==> |dividendRates.value| == n
    ensures |q| == n
    ensures dividendRates.Some? ==> q == dividendRates.value
    ensures dividendRates.None? ==> q == Zeros(n)
    ensures forall i :: 0 <= i < n ==> q[i] == DividendAt(dividendRates, i)
  {
    if dividendRates.Some? then dividendRates.value else Zeros(n)
  }

  /** `black_price` over arrays of equal length: dividend rates defaulted to
      zeros, then the price of every option. */
  function BlackPrice(
    exp: Exp, kernel: CallKernel,
    spots: seq<real>, strikes: seq<real>, expires: seq<real>, vols: seq<real>,
    discountRates: seq<real>, dividendRates: Option<seq<real>>, areCalls: Option<seq<bool>>
  ): (prices: seq<real>)
    requires Conformable(spots, strikes, expires, vols, discountRates, dividendRates, areCalls)
    ensures |prices| == |spots|
  {
    var n := |spots|;
    var q := DividendsOrZeros(dividendRates, n);
    seq(n, i requires 0 <= i < n =>
      OptionPrice(exp, kernel, spots[i], strikes[i], expires[i], vols[i], discountRates[i], q[i], FlagAt(areCalls, i)))
  }

  /** Element `i` of the batch is the price of option `i` alone: its own
      dividend rate, or zero when none was given, and its own call/put flag
      when a mask was given. */
  lemma ElementPrices(
    exp: Exp, kernel: CallKernel,
    spots: seq<real>, strikes: seq<real>, expires: seq<real>, vols: seq<real>,
    discountRates: seq<real>, dividendRates: Option<seq<real>>, areCalls: Option<seq<bool>>
  )
    requires Conformable(spots, strikes, expires, vols, discountRates, dividendRates, areCalls)
    ensures var prices := BlackPrice(exp, kernel, spots, strikes, expires, vols, discountRates, dividendRates, areCalls);
            forall i :: 0 <= i < |spots| ==>
              prices[i] == OptionPrice(exp, kernel, spots[i], strikes[i], expires[i], vols[i], discountRates[i],
                                       DividendAt(dividendRates, i), FlagAt(areCalls, i))
  {
  }

  /** The forward transform: the growth factor is exp((r - q) * t) and the
      forward is that factor times the spot. */
  lemma ForwardTransformOf(exp: Exp, spot: real, expiry: real, discountRate: real, dividendRate: real)
    ensures var ft := ForwardAndDiscount(exp, spot, expiry, discountRate, dividendRate);
            && ft.discountFactor == Exponential(exp, (discountRate - dividendRate) * expiry)
            && ft.forward == Exponential(exp, (discountRate - dividendRate) * expiry) * spot
  {
  }

  /** When the dividend rate equals the discount rate there is no carry:
      with exp(0) = 1 the growth factor is 1 and the forward is the spot
      itself, whatever the expiry. */
  lemma NoCarryForwardIsSpot(exp: Exp, spot: real, expiry: real, rate: real)
    requires Exponential(exp, 0.0) == 1.0
    ensures var ft := ForwardAndDiscount(exp, spot, expiry, rate, rate);
            ft.discountFactor == 1.0 && ft.forward == spot
  {
    assert (rate - rate) * expiry == 0.0;
  }

  /** Without a mask, one option is priced at g * call(g * spot), with the
      growth factor g = exp((r - q) * t): the kernel sees the forward, not
      the spot. */
  lemma UnmaskedOptionPrice(
    exp: Exp, kernel: CallKernel,
    spot: real, strike: real, expiry: real, vol: real, discountRate: real, dividendRate: real
  )
    ensures var g := Exponential(exp, (discountRate - dividendRate) * expiry);
            OptionPrice(exp, kernel, spot, strike, expiry, vol, discountRate, dividendRate, None)
            == g * UndiscountedCall(kernel, g * spot, strike, expiry, vol, discountRate)
  {
  }

  /** With a mask, one option is priced at exp(-1 * r * t) times its call
      where the flag is true and its parity put where it is false, both on
      the forward exp((r - q) * t) * spot. */
  lemma MaskedOptionPrice(
    exp: Exp, kernel: CallKernel,
    spot: real, strike: real, expiry: real, vol: real, discountRate: real, dividendRate: real, isCall: bool
  )
    ensures var forward := Exponential(exp, (discountRate - dividendRate) * expiry) * spot;
            var call := UndiscountedCall(kernel, forward, strike, expiry, vol, discountRate);
            var put := call - (forward - strike);
            OptionPrice(exp, kernel, spot, strike, expiry, vol, discountRate, dividendRate, Some(isCall))
            == Exponential(exp, -1.0 * discountRate * expiry) * (if isCall then call else put)
  {
  }

  /** Put-call parity on the undiscounted values: call minus put is forward
      minus strike. */
  lemma PutCallParity(call: real, forward: real, strike: real)
    ensures call - UndiscountedPut(call, forward, strike) == forward - strike
  {
  }

  /** Discounted parity: on the masked path a call and a put on the same
      option differ by exp(-1 * r * t) * (forward - strike). */
  lemma DiscountedParity(
    exp: Exp, kernel: CallKernel,
    spot: real, strike: real, expiry: real, vol: real, discountRate: real, dividendRate: real
  )
    ensures var forward := ForwardAndDiscount(exp, spot, expiry, discountRate, dividendRate).forward;
            OptionPrice(exp, kernel, spot, strike, expiry, vol, discountRate, dividendRate, Some(true))
            - OptionPrice(exp, kernel, spot, strike, expiry, vol, discountRate, dividendRate, Some(false))
            == Exponential(exp, -1.0 * discountRate * expiry) * (forward - strike)
  {
  }

  /** On the masked path the dividend rate matters only through the
      forward: two dividend rates that give the same forward give the same
      price, because the final discount uses the discount rate alone. */
  lemma MaskedDividendOnlyThroughForward(
    exp: Exp, kernel: CallKernel,
    spot: real, strike: real, expiry: real, vol: real, discountRate: real,
    dividendRate: real, otherDividendRate: real, isCall: bool
  )
    requires ForwardAndDiscount(exp, spot, expiry, discountRate, dividendRate).forward
             == ForwardAndDiscount(exp, spot, expiry, discountRate, otherDividendRate).forward
    ensures OptionPrice(exp, kernel, spot, strike, expiry, vol, discountRate, dividendRate, Some(isCall))
            == OptionPrice(exp, kernel, spot, strike, expiry, vol, discountRate, otherDividendRate, Some(isCall))
  {
  }

  /** The two paths discount differently: a call priced with a mask is the
      undiscounted call times exp(-1 * r * t), without a mask it is the
      undiscounted call times exp((r - q) * t); each is the other rescaled
      by the ratio of the two factors. */
  lemma DiscountAsymmetry(
    exp: Exp, kernel: CallKernel,
    spot: real, strike: real, expiry: real, vol: real, discountRate: real, dividendRate: real
  )
    ensures Exponential(exp, (discountRate - dividendRate) * expiry)
            * OptionPrice(exp, kernel, spot, strike, expiry, vol, discountRate, dividendRate, Some(true))
            == Exponential(exp, -1.0 * discountRate * expiry)
            * OptionPrice(exp, kernel, spot, strike, expiry, vol, discountRate, dividendRate, None)
  {
  }

  /** With zero discount and dividend rates and exp(0) = 1, a call priced
      with a mask and the same option priced without one agree. */
  lemma ZeroRatesCallMatchesUnmasked(
    exp: Exp, kernel: CallKernel, spot: real, strike: real, expiry: real, vol: real
  )
    requires Exponential(exp, 0.0) == 1.0
    ensures OptionPrice(exp, kernel, spot, strike, expiry, vol, 0.0, 0.0, Some(true))
            == OptionPrice(exp, kernel, spot, strike, expiry, vol, 0.0, 0.0, None)
  {
  }

  /** Omitted dividend rates price exactly as explicit zeros, with and
      without a call/put mask, and the growth factor of element `i` is then
      exp(r * t). */
  lemma DefaultDividends(
    exp: Exp, kernel: CallKernel,
    spots: seq<real>, strikes: seq<real>, expires: seq<real>, vols: seq<real>,
    discountRates: seq<real>, areCalls: Option<seq<bool>>
  )
    requires Conformable(spots, strikes, expires, vols, discountRates, None, areCalls)
    ensures BlackPrice(exp, kernel, spots, strikes, expires, vols, discountRates, None, areCalls)
            == BlackPrice(exp, kernel, spots, strikes, expires, vols, discountRates, Some(Zeros(|spots|)), areCalls)
    ensures forall i :: 0 <= i < |spots| ==>
              ForwardAndDiscount(exp, spots[i], expires[i], discountRates[i], DividendAt(None, i)).discountFactor
              == Exponential(exp, discountRates[i] * expires[i])
  {
  }

  /** With zero discount and dividend rates (dividends given as zeros or
      omitted) and exp(0) = 1, an all-true mask prices the whole batch
      exactly as no mask. */
  lemma ZeroRatesAllCallsMatchUnmasked(
    exp: Exp, kernel: CallKernel,
    spots: seq<real>, strikes: seq<real>, expires: seq<real>, vols: seq<real>,
    discountRates: seq<real>, dividendRates: Option<seq<real>>
  )
    requires Exponential(exp, 0.0) == 1.0
    requires Conformable(spots, strikes, expires, vols, discountRates, dividendRates, None)
    requires forall i :: 0 <= i < |discountRates| ==> discountRates[i] == 0.0
    requires dividendRates.Some? ==> forall i :: 0 <= i < |dividendRates.value| ==> dividendRates.value[i] == 0.0
    ensures BlackPrice(exp, kernel, spots, strikes, expires, vols, discountRates, dividendRates, Some(seq(|spots|, i => true)))
            == BlackPrice(exp, kernel, spots, strikes, expires, vols, discountRates, dividendRates, None)
  {
    var allTrue := seq(|spots|, i => true);
    var allCalls := BlackPrice(exp, kernel, spots, strikes, expires, vols, discountRates, dividendRates, Some(allTrue));
    var unmasked := BlackPrice(exp, kernel, spots, strikes, expires, vols, discountRates, dividendRates, None);
    ElementPrices(exp, kernel, spots, strikes, expires, vols, discountRates, dividendRates, Some(allTrue));
    ElementPrices(exp, kernel, spots, strikes, expires, vols, discountRates, dividendRates, None);
    forall i | 0 <= i < |spots|
      ensures allCalls[i] == unmasked[i]
    {
      assert DividendAt(dividendRates, i) == 0.0;
      assert FlagAt(Some(allTrue), i) == Some(true);
      ZeroRatesCallMatchesUnmasked(exp, kernel, spots[i], strikes[i], expires[i], vols[i]);
    }
  }

  /** The singleton of element `i` of an optional array. */
  function ElementOf<T>(o: Option<seq<T>>, i: nat): (e: Option<seq<T>>)
    requires o.Some? ==> i < |o.value|
    ensures e.Some? <==> o.Some?
    ensures e.Some? ==> e.value == [o.value[i]]
  {
    if o.Some? then Some([o.value[i]]) else None
  }

  /** Pricing is element-wise: element `i` of a batch is the price of the
      one-element batch made of element `i` of every input, which is what
      lets the vectoriser map the function over a batch. */
  lemma PriceIsElementwise(
    exp: Exp, kernel: CallKernel,
    spots: seq<real>, strikes: seq<real>, expires: seq<real>, vols: seq<real>,
    discountRates: seq<real>, dividendRates: Option<seq<real>>, areCalls: Option<seq<bool>>, i: nat
  )
    requires Conformable(spots, strikes, expires, vols, discountRates, dividendRates, areCalls)
    requires i < |spots|
    ensures BlackPrice(exp, kernel, spots, strikes, expires, vols, discountRates, dividendRates, areCalls)[i]
            == BlackPrice(exp, kernel, [spots[i]], [strikes[i]], [expires[i]], [vols[i]], [discountRates[i]],
                          ElementOf(dividendRates, i), ElementOf(areCalls, i))[0]
  {
    assert DividendAt(ElementOf(dividendRates, i), 0) == DividendAt(dividendRates, i);
    assert FlagAt(ElementOf(areCalls, i), 0) == FlagAt(areCalls, i);
  }
}
