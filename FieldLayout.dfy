/**
 * The instruction word of llimits.h: a `SIZE_INSTRUCTION`-bit word holds an
 * opcode in its low `SIZE_OP` bits and, above it, either one wide unsigned
 * argument `U` or the pair `B` (low, `SIZE_B` bits) and `A` (high, the rest).
 * The maxima of `U`, `B` and `A` are `2^width - 1`, and that of the signed
 * reading of `U` is `2^(width-1) - 1`, unless the field is too wide for a
 * signed `int`, in which case the maximum collapses to `MAX_INT`.
 */
module FieldLayout {
  import opened Base
  import opened IntWidth

  /** The reference word: 32 bits, a 6-bit opcode and an 8-bit `B`. */
  const ReferenceSizeInstruction: nat := 32
  const ReferenceSizeB: nat := 8
  const ReferenceSizeOp: nat := 6

  /** Sizes, positions and maxima of the argument fields (`SIZE_*`, `POS_*`, `MAXARG_*`). */
  datatype Layout = Layout(
    sizeInstruction: nat,
    sizeOp: nat,
    sizeU: nat, posU: nat,
    sizeB: nat, posB: nat,
    sizeA: nat, posA: nat,
    maxArgU: int, maxArgS: int, maxArgA: int, maxArgB: int)

  /**
   * The widths leave room for `A`.  A negative `SIZE_A` would make
   * `1<<SIZE_A` undefined behaviour in C, so no build can rely on it.
   */
  predicate WellFormedWidths(sizeInstruction: nat, sizeOp: nat, sizeB: nat)
  {
    sizeOp + sizeB <= sizeInstruction
  }

  /** Bit `i` lies in the field of `size` bits at `pos`. */
  predicate Occupies(i: nat, pos: nat, size: nat)
  {
    pos <= i < pos + size
  }

  /** The bit positions a field of `size` bits at `pos` occupies. */
  function FieldBits(pos: nat, size: nat): set<nat>
  {
    set i: nat | i < pos + size && Occupies(i, pos, size)
  }

  /**
   * `MAXARG_U`, `MAXARG_A` and `MAXARG_B`: the largest value `width` bits
   * hold while `width < BITS_INT-1`, which then also fits in `BITS_INT-1`
   * bits (one bit is left for the sign); `MAX_INT` from that width on.
   */
  function FieldMax(width: nat, bitsInt: int, maxInt: int): (r: int)
    ensures width < bitsInt - 1 ==> 0 <= r < Pow2(width) <= r + 1
    ensures width < bitsInt - 1 ==> r < Pow2(bitsInt - 2) < Pow2(bitsInt - 1)
    ensures width >= bitsInt - 1 ==> r == maxInt
  {
    if width < bitsInt - 1 then
      Pow2Monotone(width, bitsInt - 2);
      Pow2StrictlyMonotone(bitsInt - 2, bitsInt - 1);
      Pow2(width) - 1
    else
      maxInt
  }

  /**
   * `MAXARG_S`, the largest argument of the signed reading of `U`: half of
   * `MAXARG_U` (`MAXARG_U>>1`), so that the biased value `MAXARG_S + s` of
   * every `s` in `-MAXARG_S..MAXARG_S` fits `U` exactly; `MAX_INT` once `U`
   * has collapsed.
   */
  function SignedMax(width: nat, bitsInt: int, maxInt: int): (r: int)
    ensures width < bitsInt - 1 && width >= 1 ==>
              r == Pow2(width - 1) - 1 && 2 * r + 1 == FieldMax(width, bitsInt, maxInt)
    ensures width < bitsInt - 1 && width == 0 ==> r == 0
    ensures width >= bitsInt - 1 ==> r == maxInt
  {
    if width < bitsInt - 1 then FieldMax(width, bitsInt, maxInt) / 2 else maxInt
  }

  /** The whole layout for a word width, opcode width and `B` width. */
  function MakeLayout(sizeInstruction: nat, sizeOp: nat, sizeB: nat, bitsInt: int, maxInt: int): (l: Layout)
    requires WellFormedWidths(sizeInstruction, sizeOp, sizeB)
    ensures l.sizeInstruction == sizeInstruction && l.sizeOp == sizeOp && l.sizeB == sizeB
    ensures l.sizeOp + l.sizeU == sizeInstruction
    ensures l.sizeOp + l.sizeB + l.sizeA == sizeInstruction
    ensures l.posU == l.posB == sizeOp && l.posA == l.posB + l.sizeB
    ensures l.maxArgU == FieldMax(l.sizeU, bitsInt, maxInt)
    ensures l.maxArgS == SignedMax(l.sizeU, bitsInt, maxInt)
    ensures l.maxArgA == FieldMax(l.sizeA, bitsInt, maxInt)
    ensures l.maxArgB == FieldMax(l.sizeB, bitsInt, maxInt)
  {
    var sizeU := sizeInstruction - sizeOp;
    var sizeA := sizeInstruction - (sizeOp + sizeB);
    Layout(sizeInstruction, sizeOp,
           sizeU, sizeOp,
           sizeB, sizeOp,
           sizeA, sizeOp + sizeB,
           FieldMax(sizeU, bitsInt, maxInt), SignedMax(sizeU, bitsInt, maxInt),
           FieldMax(sizeA, bitsInt, maxInt), FieldMax(sizeB, bitsInt, maxInt))
  }

  /** Two adjacent fields together occupy exactly the bits of one field of their joint size. */
  lemma AdjacentFields(pos: nat, n: nat, m: nat)
    ensures FieldBits(pos, n) + FieldBits(pos + n, m) == FieldBits(pos, n + m)
    ensures FieldBits(pos, n) * FieldBits(pos + n, m) == {}
  {
  }

  /**
   * Both readings of the word partition it: the opcode and `U` cover every
   * bit once, and so do the opcode, `B` and `A`; `B` and `A` are adjacent
   * and do not overlap.
   */
  lemma LayoutPartitionsWord(sizeInstruction: nat, sizeOp: nat, sizeB: nat, bitsInt: int, maxInt: int)
    requires WellFormedWidths(sizeInstruction, sizeOp, sizeB)
    ensures var l := MakeLayout(sizeInstruction, sizeOp, sizeB, bitsInt, maxInt);
      && FieldBits(0, l.sizeOp) + FieldBits(l.posU, l.sizeU) == FieldBits(0, sizeInstruction)
      && FieldBits(0, l.sizeOp) * FieldBits(l.posU, l.sizeU) == {}
      && FieldBits(0, l.sizeOp) + FieldBits(l.posB, l.sizeB) + FieldBits(l.posA, l.sizeA)
         == FieldBits(0, sizeInstruction)
      && FieldBits(0, l.sizeOp) * FieldBits(l.posB, l.sizeB) == {}
      && FieldBits(0, l.sizeOp) * FieldBits(l.posA, l.sizeA) == {}
      && FieldBits(l.posB, l.sizeB) * FieldBits(l.posA, l.sizeA) == {}
  {
    var l := MakeLayout(sizeInstruction, sizeOp, sizeB, bitsInt, maxInt);
    AdjacentFields(0, sizeOp, l.sizeU);
    AdjacentFields(0, sizeOp, sizeB);
    AdjacentFields(sizeOp, sizeB, l.sizeA);
    AdjacentFields(0, sizeOp + sizeB, l.sizeA);
  }

  /**
   * The 2-byte variant the header's comment describes: a 16-bit word with a
   * 5-bit `B` leaves 10 bits for `U` and 5 for `A`.
   */
  lemma TwoByteVariant(bitsInt: int, maxInt: int)
    ensures var l := MakeLayout(16, ReferenceSizeOp, 5, bitsInt, maxInt);
      l.sizeU == 10 && l.sizeA == 5 && l.posB == 6 && l.posA == 11
  {
  }

  /**
   * Each argument maximum fits in the host's `int`: it lies between 0 and
   * `MAX_INT` whenever the width is safe and `MAX_INT` is not negative.
   */
  lemma FieldMaxFits(width: nat, bitsInt: int, maxInt: int)
    requires SafeWidth(bitsInt, maxInt) && maxInt >= 0
    ensures 0 <= SignedMax(width, bitsInt, maxInt) <= FieldMax(width, bitsInt, maxInt) <= maxInt
  {
    if width < bitsInt - 1 {
      Pow2Monotone(width, bitsInt - 2);
    }
  }

  /**
   * A narrower field never has a larger maximum: a collapsed maximum is at
   * least every uncollapsed one when the width is safe.
   */
  lemma FieldMaxMonotone(w1: nat, w2: nat, bitsInt: int, maxInt: int)
    requires w1 <= w2 && SafeWidth(bitsInt, maxInt)
    ensures FieldMax(w1, bitsInt, maxInt) <= FieldMax(w2, bitsInt, maxInt)
  {
    if w2 < bitsInt - 1 {
      Pow2Monotone(w1, w2);
    } else if w1 < bitsInt - 1 {
      Pow2Monotone(w1, bitsInt - 2);
    }
  }
}
