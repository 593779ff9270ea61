# Black '76 pricing skeleton and vmap axis masks of py-exopricer

This project models two pieces of the `jaxfin` price engine in Dafny and
proves their properties.

- **The vectorisation axis mask** (`_get_vmap_mask` in
  `jaxfin/price_engine/utils/vect.py`, module `Vect`). It builds the
  `in_axes` tuple that `get_vfunction` hands to `jax.vmap`:
  - one entry per required pricing argument (spots, strikes, expires, vols,
    discount rates): `None` for a scalar, `0` for an array;
  - then `0` for given dividend rates;
  - then `0` for a given call/put mask;
  - then, only when a call/put mask is given, `None` for a given dtype.

  An argument is `Arg = Scalar | Array(len)`, the tag `jnp.isscalar`
  computes. An omitted optional argument is `None` of `Option<Arg>`. A mask
  entry is an `Option<int>`. `get_vfunction` is modelled only as the value
  that pairs `fun` with the mask built from its own eight arguments.
- **The assembly of `black_price`** (`jaxfin/price_engine/black/black_model.py`,
  module `BlackModel`). The steps are:
  - default omitted dividend rates to zeros;
  - compute the growth factor `exp((r - q) * t)` (called `discount_factors`
    in the code) and the forward `g * spot`;
  - call the undiscounted-call kernel on the forward;
  - without a call/put mask, return growth factor times call;
  - with a mask, form puts by put-call parity, select call or put
    element-wise, and discount by `exp(-1 * r * t)`.

  Arrays are `seq<real>` of one common length and the mask is a `seq<bool>`.
  The array operations written out in `black_price` (`jnp.exp`, `*`, `-` and
  `jnp.where`) act element by element. The model takes the kernel to act
  element by element too (see "## Left out"). It writes the formula for one
  option once (`OptionPrice`) and maps it over the arrays (`BlackPrice`).
  `ElementPrices` ties the two together.
  `jnp.exp` and `compute_undiscounted_call_prices` are parameters (`exp`,
  `kernel`) of every member. The model fixes how they are combined, not what
  they compute. The one fact about `exp` that a lemma needs, `exp(0) = 1`, is
  a precondition of that lemma.

The docstring of `black_price` says `discount_rates` defaults to None
(black_model.py:31). The signature gives it no default, so it is required.
The model follows the signature.

## Model

| member | source | states |
|---|---|---|
| Vect.AxisOf | jaxfin/price_engine/utils/vect.py:71 | an entry is `None` exactly for a scalar argument, and is always `None` or `0` |
| Vect.RequiredAxes | jaxfin/price_engine/utils/vect.py:69-74 | the map over the required arguments keeps their number and order: entry i is the axis of argument i |
| Vect.VmapMask | jaxfin/price_engine/utils/vect.py:59-85 | the mask has 5 to 8 entries and every entry is `None` or `0` |
| Vect.GetVFunction | jaxfin/price_engine/utils/vect.py:13-56 | the vectorised function wraps `fun` unchanged; its axes are the mask of the same eight arguments in the same order; entries 0-4 are `None` exactly for scalar required arguments |
| Vect.RequiredEntries | jaxfin/price_engine/utils/vect.py:69-74 | the first five entries follow spots, strikes, expires, vols, discount rates: `None` iff that argument is a scalar, `0` iff it is an array |
| Vect.MaskLength | jaxfin/price_engine/utils/vect.py:69-85 | length = 5 + [dividends given] + [calls given] + [calls and dtype given] |
| Vect.DividendsAlwaysMapped | jaxfin/price_engine/utils/vect.py:76-77 | given dividend rates insert exactly one `0` at position 5, whether they are a scalar or an array |
| Vect.CallsAlwaysMapped | jaxfin/price_engine/utils/vect.py:79-80 | a given call/put mask appends exactly one `0`, whether it is one boolean or an array |
| Vect.DTypeOnlyWithCalls | jaxfin/price_engine/utils/vect.py:79-83 | a dtype appends a trailing `None` when a call/put mask is given and changes nothing otherwise; the mask ends in `None` past the fifth entry iff calls are given |
| Vect.DividendsAndCallsIndistinguishable | jaxfin/price_engine/utils/vect.py:76-80 | dividends without calls and calls without dividends (with any dtype on the first) give the same mask |
| Vect.AllScalarsShared | jaxfin/price_engine/utils/vect.py:69-74 | five scalars and no optional argument give five `None`s |
| Vect.MaskDeterminesScalars | jaxfin/price_engine/utils/vect.py:69-85 | equal masks imply the same scalar/array pattern of the five required arguments and the same count of optional entries |
| BlackModel.DividendsOrZeros | jaxfin/price_engine/black/black_model.py:37-44 | omitted dividend rates become zeros as long as the spots; given ones are kept |
| BlackModel.BlackPrice | jaxfin/price_engine/black/black_model.py:14-60 | the result is as long as the spots |
| BlackModel.ElementPrices | jaxfin/price_engine/black/black_model.py:43-60 | element i is the price of option i alone, with its dividend rate or zero, and its mask flag when a mask is given |
| BlackModel.ForwardTransformOf | jaxfin/price_engine/black/black_model.py:46-47 | the growth factor is exp((r - q) * t) and the forward is that factor times the spot |
| BlackModel.NoCarryForwardIsSpot | jaxfin/price_engine/black/black_model.py:46-47 | when the dividend rate equals the discount rate and exp(0) = 1, the growth factor is 1 and the forward equals the spot |
| BlackModel.UnmaskedOptionPrice | jaxfin/price_engine/black/black_model.py:46-54 | without a mask the price is g * call(g * spot) with g = exp((r - q) * t): the kernel gets the forward, and no put enters |
| BlackModel.MaskedOptionPrice | jaxfin/price_engine/black/black_model.py:46-60 | with a mask the price is exp(-1 * r * t) times the call on the forward if the flag is true, and times call - (forward - strike) if it is false |
| BlackModel.PutCallParity | jaxfin/price_engine/black/black_model.py:56-57 | undiscounted call minus undiscounted put equals forward minus strike |
| BlackModel.DiscountedParity | jaxfin/price_engine/black/black_model.py:56-60 | masked call price minus masked put price equals exp(-1 * r * t) * (forward - strike) |
| BlackModel.MaskedDividendOnlyThroughForward | jaxfin/price_engine/black/black_model.py:46-58 | on the masked path two dividend rates that give the same forward give the same price |
| BlackModel.DiscountAsymmetry | jaxfin/price_engine/black/black_model.py:46-58 | growth factor times the masked call price equals exp(-1 * r * t) times the unmasked price: the two paths scale the same call by different factors |
| BlackModel.ZeroRatesCallMatchesUnmasked | jaxfin/price_engine/black/black_model.py:46-60 | with r = q = 0 and exp(0) = 1 a masked call and the unmasked price of one option agree |
| BlackModel.DefaultDividends | jaxfin/price_engine/black/black_model.py:37-46 | omitted dividend rates price exactly as explicit zeros, with or without a mask, and each growth factor is then exp(r * t) |
| BlackModel.ZeroRatesAllCallsMatchUnmasked | jaxfin/price_engine/black/black_model.py:46-60 | with all discount and dividend rates zero and exp(0) = 1, an all-true mask gives the same batch of prices as no mask |
| BlackModel.PriceIsElementwise | jaxfin/price_engine/black/black_model.py:46-60 | element i of a batch equals the price of the one-element batch made of element i of every input |

## Left out

- `delta_black` and `gamma_black` (black_model.py:63-118) are derivatives computed by `jax.grad` under `jit`. Automatic differentiation is outside the model.
- `compute_undiscounted_call_prices` is not part of this model. It is called once on whole arrays (black_model.py:49-51). The model makes it the per-option parameter `kernel` and applies it at each index. This assumes that element i of its output depends only on element i of the forwards, strikes, expires, vols and discount rates. Nothing else is assumed about its values. `BlackModel.ElementPrices` and `BlackModel.PriceIsElementwise` rest on this assumption.
- `jnp.exp` is the parameter `exp`. Only `exp(0) = 1` is assumed, and only by the two zero-rate lemmas and `BlackModel.NoCarryForwardIsSpot`.
- Floating point: all arithmetic is on `real`. Parity and the other identities are exact here, but hold only approximately in float32 or float64.
- `cast_arrays` and `dtype` are not part of the price model. `BlackModel.BlackPrice` has no dtype argument. In `Vect`, a dtype is an opaque `DType`, because only its presence affects the mask.
- `jit(vmap(...))` in `get_vfunction` (vect.py:42-56) is compilation and batching by the JAX runtime. `Vect.GetVFunction` records the wrapped function and its axes, not the batched execution.
- BlackModel.BlackPrice: requires all arrays to have the length of the spots. The model does not cover NumPy broadcasting of scalars or of other shapes against the spots, nor the shape errors it raises.
- tests/price_engine/test_black.py checks float32 reference values, which an abstract kernel cannot reproduce.
- Unmasked-path discounting: without a mask, `black_price` scales the call by the growth factor `exp((r - q) * t)`. With a mask it scales by `exp(-r * t)`. The model keeps both as written. `BlackModel.DiscountAsymmetry` states the relation between them.
