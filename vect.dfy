/** Vectorisation of the pricing functions (jaxfin/price_engine/utils/vect.py):
    which positional arguments of a pricing function are mapped along the
    batch axis and which are shared by every element of the batch. */
module Vect {
  import opened Wrappers

  /** A pricing argument as `jnp.isscalar` classifies it: a scalar (a Python
      number or a zero-dimensional array) or an array with a leading axis. */
  datatype Arg = Scalar | Array(len: nat)

  /** An output precision such as float32; only its presence matters here. */
  datatype DType = DType(name: string)

  /** One entry of vmap's `in_axes`: `None` for an argument shared across the
      batch, `Some(k)` for an argument mapped along its axis `k`. */
  type InAxis = Option<int>

  /** The axis entry of one required argument: shared if it is a scalar,
      mapped along axis 0 otherwise. */
  function AxisOf(x: Arg): (ax: InAxis)
    ensures ax == None <==> x.Scalar?
    ensures ax == None || ax == Some(0)
  {
    if x.Scalar? then None else Some(0)
  }

  /** The entry-wise axis of a list of required arguments (the `map` over
      them). */
  function RequiredAxes(args: seq<Arg>): (axes: seq<InAxis>)
    ensures |axes| == |args|
    ensures forall i :: 0 <= i < |args| ==> axes[i] == AxisOf(args[i])
  {
    seq(|args|, i requires 0 <= i < |args| => AxisOf(args[i]))
  }

  /** The five required arguments in their positional order. */
  function Required(spots: Arg, strikes: Arg, expires: Arg, vols: Arg, discountRates: Arg): seq<Arg>
  {
    [spots, strikes, expires, vols, discountRates]
  }

  /** 1 when an optional argument is given, 0 when it is omitted. */
  function Present<T>(o: Option<T>): nat
  {
    if o.Some? then 1 else 0
  }

  /** The `in_axes` tuple built for vmap: one entry per required argument,
      then a mapped entry for dividend rates if given, a mapped entry for the
      call/put mask if given and, only after that one, a shared entry for the
      dtype if given. */
  function VmapMask(
    spots: Arg, strikes: Arg, expires: Arg, vols: Arg, discountRates: Arg,
    dividendRates: Option<Arg>, areCalls: Option<Arg>, dtype: Option<DType>
  ): (mask: seq<InAxis>)
    ensures 5 <= |mask| <= 8
    ensures forall i :: 0 <= i < |mask| ==> mask[i] == None || mask[i] == Some(0)
  {
    var required := RequiredAxes(Required(spots, strikes, expires, vols, discountRates));
    var withDividends := if dividendRates.Some? then required + [Some(0)] else required;
    if areCalls.Some? then
      var withCalls := withDividends + [Some(0)];
      if dtype.Some? then withCalls + [None] else withCalls
    else
      withDividends
  }

  /** The result of `get_vfunction`: the compiled, vectorised form of `fun`
      with the axis specification vmap was given. */
  datatype Vectorized<F> = Vectorized(fun: F, inAxes: seq<InAxis>)

  /** `get_vfunction` wraps `fun` unchanged and hands its eight arguments, in
      the same order, to the mask builder. */
  function GetVFunction<F>(
    fun: F,
    spots: Arg, strikes: Arg, expires: Arg, vols: Arg, discountRates: Arg,
    dividendsRates: Option<Arg>, areCalls: Option<Arg>, dtype: Option<DType>
  ): (vf: Vectorized<F>)
    ensures vf.fun == fun
    ensures vf.inAxes == VmapMask(spots, strikes, expires, vols, discountRates, dividendsRates, areCalls, dtype)
    ensures forall i :: 0 <= i < 5 ==>
              (vf.inAxes[i] == None <==> Required(spots, strikes, expires, vols, discountRates)[i].Scalar?)
  {
    Vectorized(fun, VmapMask(spots, strikes, expires, vols, discountRates, dividendsRates, areCalls, dtype))
  }

  /** The first five entries follow spots, strikes, expires, vols and
      discount rates in that order: shared exactly for a scalar, mapped along
      axis 0 exactly for an array. */
  lemma RequiredEntries(
    spots: Arg, strikes: Arg, expires: Arg, vols: Arg, discountRates: Arg,
    dividendRates: Option<Arg>, areCalls: Option<Arg>, dtype: Option<DType>
  )
    ensures var mask := VmapMask(spots, strikes, expires, vols, discountRates, dividendRates, areCalls, dtype);
            var args := Required(spots, strikes, expires, vols, discountRates);
            && mask[..5] == RequiredAxes(args)
            && forall i :: 0 <= i < 5 ==>
                 (mask[i] == None <==> args[i].Scalar?) && (mask[i] == Some(0) <==> args[i].Array?)
  {
  }

  /** The mask is 5 entries long, plus one per given dividend rates, plus one
      per given call/put mask, plus one for a dtype given together with a
      call/put mask. */
  lemma MaskLength(
    spots: Arg, strikes: Arg, expires: Arg, vols: Arg, discountRates: Arg,
    dividendRates: Option<Arg>, areCalls: Option<Arg>, dtype: Option<DType>
  )
    ensures |VmapMask(spots, strikes, expires, vols, discountRates, dividendRates, areCalls, dtype)|
            == 5 + Present(dividendRates) + Present(areCalls) + Present(areCalls) * Present(dtype)
  {
  }

  /** Given dividend rates add exactly one entry, at position 5, and it is
      mapped along axis 0 even when the dividend rate is a scalar; which value
      was given makes no difference to the mask. */
  lemma DividendsAlwaysMapped(
    spots: Arg, strikes: Arg, expires: Arg, vols: Arg, discountRates: Arg,
    dividends: Arg, otherDividends: Arg, areCalls: Option<Arg>, dtype: Option<DType>
  )
    ensures var mask := VmapMask(spots, strikes, expires, vols, discountRates, Some(dividends), areCalls, dtype);
            var without := VmapMask(spots, strikes, expires, vols, discountRates, None, areCalls, dtype);
            && mask == without[..5] + [Some(0)] + without[5..]
            && mask == VmapMask(spots, strikes, expires, vols, discountRates, Some(otherDividends), areCalls, dtype)
  {
  }

  /** A given call/put mask adds exactly one entry, right after the dividend
      entry if any, mapped along axis 0 even when it is a single boolean. */
  lemma CallsAlwaysMapped(
    spots: Arg, strikes: Arg, expires: Arg, vols: Arg, discountRates: Arg,
    dividendRates: Option<Arg>, calls: Arg, otherCalls: Arg
  )
    ensures var mask := VmapMask(spots, strikes, expires, vols, discountRates, dividendRates, Some(calls), None);
            && mask == VmapMask(spots, strikes, expires, vols, discountRates, dividendRates, None, None) + [Some(0)]
            && mask == VmapMask(spots, strikes, expires, vols, discountRates, dividendRates, Some(otherCalls), None)
  {
  }

  /** The dtype adds a trailing shared entry exactly when a call/put mask is
      given too; without a call/put mask a dtype changes nothing. */
  lemma DTypeOnlyWithCalls(
    spots: Arg, strikes: Arg, expires: Arg, vols: Arg, discountRates: Arg,
    dividendRates: Option<Arg>, areCalls: Option<Arg>, dtype: DType
  )
    ensures var mask := VmapMask(spots, strikes, expires, vols, discountRates, dividendRates, areCalls, Some(dtype));
            var noDType := VmapMask(spots, strikes, expires, vols, discountRates, dividendRates, areCalls, None);
            && (areCalls.Some? ==> mask == noDType + [None])
            && (areCalls.None? ==> mask == noDType)
            && (mask[|mask| - 1] == None && |mask| > 5 <==> areCalls.Some?)
  {
  }

  /** Dividend rates without a call/put mask and a call/put mask without
      dividend rates give the same mask: the two cannot be told apart, and a
      dtype given with the dividend rates alone is dropped as well. */
  lemma DividendsAndCallsIndistinguishable(
    spots: Arg, strikes: Arg, expires: Arg, vols: Arg, discountRates: Arg,
    dividends: Arg, calls: Arg, dtype: Option<DType>
  )
    ensures VmapMask(spots, strikes, expires, vols, discountRates, Some(dividends), None, dtype)
            == VmapMask(spots, strikes, expires, vols, discountRates, None, Some(calls), None)
  {
  }

  /** Five scalars and no optional argument: nothing is mapped. */
  lemma AllScalarsShared()
    ensures VmapMask(Scalar, Scalar, Scalar, Scalar, Scalar, None, None, None) == [None, None, None, None, None]
  {
  }

  /** The mask determines, argument by argument, which of the five required
      arguments are scalars, and how many entries the optional arguments
      contributed. */
  lemma MaskDeterminesScalars(
    spots: Arg, strikes: Arg, expires: Arg, vols: Arg, discountRates: Arg,
    dividendRates: Option<Arg>, areCalls: Option<Arg>, dtype: Option<DType>,
    spots': Arg, strikes': Arg, expires': Arg, vols': Arg, discountRates': Arg,
    dividendRates': Option<Arg>, areCalls': Option<Arg>, dtype': Option<DType>
  )
    requires VmapMask(spots, strikes, expires, vols, discountRates, dividendRates, areCalls, dtype)
             == VmapMask(spots', strikes', expires', vols', discountRates', dividendRates', areCalls', dtype')
    ensures forall i :: 0 <= i < 5 ==>
              Required(spots, strikes, expires, vols, discountRates)[i].Scalar?
              == Required(spots', strikes', expires', vols', discountRates')[i].Scalar?
    ensures Present(dividendRates) + Present(areCalls) + Present(areCalls) * Present(dtype)
            == Present(dividendRates') + Present(areCalls') + Present(areCalls') * Present(dtype')
  {
    RequiredEntries(spots, strikes, expires, vols, discountRates, dividendRates, areCalls, dtype);
    RequiredEntries(spots', strikes', expires', vols', discountRates', dividendRates', areCalls', dtype');
    MaskLength(spots, strikes, expires, vols, discountRates, dividendRates, areCalls, dtype);
    MaskLength(spots', strikes', expires', vols', discountRates', dividendRates', areCalls', dtype');
  }
}
