/**
 * The clamping chain of llimits.h.  Each structural limit starts from a
 * default the build may override (`#ifndef X / #define X default`) and is
 * then lowered, never raised, to a ceiling set by a field maximum or by a
 * limit derived before it (`#if X > C / #undef X / #define X C`), in the
 * header's order: MAXSTACK, MAXLOCALS, MAXUPVALUES, MAXVARSLH, MAXPARAMS,
 * LFIELDS_PER_FLUSH, RFIELDS_PER_FLUSH, LOOKBACKNUMS.
 */
module LimitDerivation {
  import opened Base

  const DefaultMaxStack: int := 250
  const DefaultMaxLocals: int := 200
  const DefaultMaxUpvalues: int := 32
  const DefaultMaxVarsLH: int := 100
  const DefaultMaxParams: int := 100
  const DefaultLookbackNums: int := 20
  /**
   * LFIELDS_PER_FLUSH is defined without an `#ifndef` guard, so a build
   * that predefines it differently gets a macro redefinition, which the
   * compiler rejects or overrides with 64; the model takes 64.
   */
  const DefaultLFieldsPerFlush: int := 64

  /** The limits a build predefines before including the header. */
  datatype Overrides = Overrides(
    maxStack: Option<int>,
    maxLocals: Option<int>,
    maxUpvalues: Option<int>,
    maxVarsLH: Option<int>,
    maxParams: Option<int>,
    lookbackNums: Option<int>)

  const NoOverrides: Overrides := Overrides(None, None, None, None, None, None)

  /** The derived limits. */
  datatype Limits = Limits(
    maxStack: int,
    maxLocals: int,
    maxUpvalues: int,
    maxVarsLH: int,
    maxParams: int,
    lFieldsPerFlush: int,
    rFieldsPerFlush: int,
    lookbackNums: int)

  /** `#if X > C` then `C`: the largest value that exceeds neither `x` nor `ceiling`. */
  function ClampAtMost(x: int, ceiling: int): (r: int)
    ensures r <= x && r <= ceiling
    ensures r == x || r == ceiling
  {
    if x > ceiling then ceiling else x
  }

  /** `#if X >= C` then `C-1`: the largest value that is at most `x` and below `bound`. */
  function ClampBelow(x: int, bound: int): (r: int)
    ensures r <= x && r < bound
    ensures r == x || r == bound - 1
  {
    if x >= bound then bound - 1 else x
  }

  /**
   * The whole chain, given `MAXARG_B` and the code generator's `MULT_RET`.
   * Every limit is at most its (possibly overridden) default, equals that
   * default when the default is within its ceiling, and the ceilings give
   * MAXPARAMS < MAXLOCALS < MAXSTACK <= MAXARG_B, MAXUPVALUES <= MAXARG_B,
   * MAXVARSLH < MULT_RET and a list flush that fits in a quarter of the
   * stack, with room for two stack slots per record item.
   */
  function DeriveLimits(o: Overrides, maxArgB: int, multRet: int): (l: Limits)
    ensures var d := o.maxStack.GetOr(DefaultMaxStack);
      l.maxStack <= d && l.maxStack <= maxArgB && (d <= maxArgB ==> l.maxStack == d)
      && (d > maxArgB ==> l.maxStack == maxArgB)
    ensures var d := o.maxLocals.GetOr(DefaultMaxLocals);
      l.maxLocals <= d && l.maxLocals < l.maxStack && (d < l.maxStack ==> l.maxLocals == d)
      && (d >= l.maxStack ==> l.maxLocals == l.maxStack - 1)
    ensures var d := o.maxUpvalues.GetOr(DefaultMaxUpvalues);
      l.maxUpvalues <= d && l.maxUpvalues <= maxArgB && (d <= maxArgB ==> l.maxUpvalues == d)
      && (d > maxArgB ==> l.maxUpvalues == maxArgB)
    ensures var d := o.maxVarsLH.GetOr(DefaultMaxVarsLH);
      l.maxVarsLH <= d && l.maxVarsLH < multRet && (d < multRet ==> l.maxVarsLH == d)
      && (d >= multRet ==> l.maxVarsLH == multRet - 1)
    ensures var d := o.maxParams.GetOr(DefaultMaxParams);
      l.maxParams <= d && l.maxParams < l.maxLocals && (d < l.maxLocals ==> l.maxParams == d)
      && (d >= l.maxLocals ==> l.maxParams == l.maxLocals - 1)
    ensures l.maxParams < l.maxLocals < l.maxStack <= maxArgB
    ensures l.lFieldsPerFlush <= DefaultLFieldsPerFlush
    ensures l.lFieldsPerFlush <= TruncDiv(l.maxStack, 4)
    ensures DefaultLFieldsPerFlush <= TruncDiv(l.maxStack, 4) ==> l.lFieldsPerFlush == DefaultLFieldsPerFlush
    ensures DefaultLFieldsPerFlush > TruncDiv(l.maxStack, 4) ==> l.lFieldsPerFlush == TruncDiv(l.maxStack, 4)
    ensures l.maxStack >= 0 ==> 0 <= 4 * l.lFieldsPerFlush <= l.maxStack
    ensures l.rFieldsPerFlush == TruncDiv(l.lFieldsPerFlush, 2)
    ensures l.lFieldsPerFlush >= 0 ==>
              0 <= 2 * l.rFieldsPerFlush <= l.lFieldsPerFlush < 2 * l.rFieldsPerFlush + 2
    ensures l.lookbackNums == o.lookbackNums.GetOr(DefaultLookbackNums)
  {
    var maxStack := ClampAtMost(o.maxStack.GetOr(DefaultMaxStack), maxArgB);
    var maxLocals := ClampBelow(o.maxLocals.GetOr(DefaultMaxLocals), maxStack);
    var maxUpvalues := ClampAtMost(o.maxUpvalues.GetOr(DefaultMaxUpvalues), maxArgB);
    var maxVarsLH := ClampBelow(o.maxVarsLH.GetOr(DefaultMaxVarsLH), multRet);
    var maxParams := ClampBelow(o.maxParams.GetOr(DefaultMaxParams), maxLocals);
    var lFields := ClampAtMost(DefaultLFieldsPerFlush, TruncDiv(maxStack, 4));
    var rFields := TruncDiv(lFields, 2);
    Limits(maxStack, maxLocals, maxUpvalues, maxVarsLH, maxParams,
           lFields, rFields, o.lookbackNums.GetOr(DefaultLookbackNums))
  }

  /**
   * For an odd negative list flush, as a build that overrides MAXSTACK with
   * -4 to -7 or -12 to -15 gets, the record flush is not within it:
   * truncation rounds -1/2 up to 0 and -3/2 up to -1, so 2*RFIELDS_PER_FLUSH
   * exceeds LFIELDS_PER_FLUSH.
   */
  lemma NegativeFlushCounterexample(maxArgB: int, multRet: int)
    requires maxArgB >= -12
    ensures var l := DeriveLimits(Overrides(Some(-12), None, None, None, None, None), maxArgB, multRet);
      l.lFieldsPerFlush == -3 && l.rFieldsPerFlush == -1 && 2 * l.rFieldsPerFlush > l.lFieldsPerFlush
  {
  }

  /**
   * An even negative list flush, as a MAXSTACK override of -8 to -11 gives,
   * still meets the bound: -2/2 is exactly -1.
   */
  lemma NegativeEvenFlush(maxArgB: int, multRet: int)
    requires maxArgB >= -8
    ensures var l := DeriveLimits(Overrides(Some(-8), None, None, None, None, None), maxArgB, multRet);
      l.lFieldsPerFlush == -2 && l.rFieldsPerFlush == -1 && 2 * l.rFieldsPerFlush <= l.lFieldsPerFlush
  {
  }

  /**
   * A lower `MAXARG_B` never raises a limit: every limit that depends on it,
   * directly or through MAXSTACK, is at most what a higher `MAXARG_B` gives,
   * and the others do not change.
   */
  lemma DeriveLimitsMonotone(o: Overrides, b1: int, b2: int, multRet: int)
    requires b1 <= b2
    ensures var l1, l2 := DeriveLimits(o, b1, multRet), DeriveLimits(o, b2, multRet);
      && l1.maxStack <= l2.maxStack
      && l1.maxLocals <= l2.maxLocals
      && l1.maxUpvalues <= l2.maxUpvalues
      && l1.maxParams <= l2.maxParams
      && l1.lFieldsPerFlush <= l2.lFieldsPerFlush
      && l1.rFieldsPerFlush <= l2.rFieldsPerFlush
      && l1.maxVarsLH == l2.maxVarsLH
      && l1.lookbackNums == l2.lookbackNums
  {
  }
}
