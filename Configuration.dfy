/**
 * The header read as a whole: from a build configuration to `BITS_INT`,
 * `MAX_INT`, the instruction layout and the derived limits, in the order the
 * header resolves them (width, layout, then the clamping chain).
 */
module Configuration {
  import opened Base
  import opened IntWidth
  import opened FieldLayout
  import opened LimitDerivation

  /**
   * What determines a build: `INT_MAX` from <limits.h>, an optional
   * predefined `BITS_INT`, the overridable defaults, and `MULT_RET`, which
   * comes from the code generator's header.  The word and field widths are
   * plain `#define`s that a build changes only by editing the header; they
   * are parameters here so that an edited header, such as the 2-byte
   * variant its comment describes, is covered too.
   */
  datatype Config = Config(
    intMax: int,
    bitsInt: Option<int>,
    sizeInstruction: nat,
    sizeOp: nat,
    sizeB: nat,
    overrides: Overrides,
    multRet: int)

  /** Every constant the header defines from a configuration. */
  datatype Resolved = Resolved(bitsInt: int, maxInt: int, layout: Layout, limits: Limits)

  /** The reference build: a 32-bit word with a 6-bit opcode and an 8-bit `B`, no overrides. */
  function ReferenceConfig(intMax: int, multRet: int): Config
  {
    Config(intMax, None, ReferenceSizeInstruction, ReferenceSizeOp, ReferenceSizeB, NoOverrides, multRet)
  }

  /**
   * Resolves the header.  There is no value (the build stops at `#error`)
   * exactly when `BITS_INT` is not predefined and cannot be guessed.
   * Otherwise `BITS_INT` is the predefined width or the guess, `MAX_INT` is
   * `INT_MAX-2`, the layout and the limits are those the collapse rule and
   * the clamping chain give for them, both readings of the word partition
   * it, the stack and upvalue limits stay within `MAXARG_B`, parameters,
   * locals and stack are strictly ordered, and no left-hand side reaches
   * `MULT_RET`.
   */
  function Resolve(c: Config): (r: Option<Resolved>)
    requires WellFormedWidths(c.sizeInstruction, c.sizeOp, c.sizeB)
    ensures r.None? <==> c.bitsInt.None? && DetectBitsInt(c.intMax).None?
    ensures c.bitsInt.Some? ==> r.Some? && r.value.bitsInt == c.bitsInt.value
    ensures c.bitsInt.None? && r.Some? ==> r.value.bitsInt == DetectBitsInt(c.intMax).value
    ensures r.Some? ==> r.value.maxInt == c.intMax - 2
    ensures r.Some? ==>
      && r.value.layout == MakeLayout(c.sizeInstruction, c.sizeOp, c.sizeB, r.value.bitsInt, r.value.maxInt)
      && r.value.limits == DeriveLimits(c.overrides, r.value.layout.maxArgB, c.multRet)
    ensures r.Some? ==>
      var l := r.value.layout;
      && l.sizeOp + l.sizeU == c.sizeInstruction
      && l.sizeOp + l.sizeB + l.sizeA == c.sizeInstruction
      && l.posU == l.posB == c.sizeOp && l.posA == l.posB + l.sizeB
    ensures r.Some? ==>
      var m := r.value.limits;
      && m.maxParams < m.maxLocals < m.maxStack <= r.value.layout.maxArgB
      && m.maxUpvalues <= r.value.layout.maxArgB
      && m.maxVarsLH < c.multRet
  {
    match BitsInt(c.intMax, c.bitsInt)
    case None => None
    case Some(bits) =>
      var maxInt := MaxInt(c.intMax);
      var layout := MakeLayout(c.sizeInstruction, c.sizeOp, c.sizeB, bits, maxInt);
      Some(Resolved(bits, maxInt, layout, DeriveLimits(c.overrides, layout.maxArgB, c.multRet)))
  }

  /**
   * The point of the collapse rule: on a host that meets the C standard's
   * minimum `INT_MAX` and lets the header guess `BITS_INT`, every argument
   * maximum lies between 0 and `MAX_INT` and fits in a signed `int`, and so
   * does every limit carried in `B` whose (possibly overridden) default is
   * not negative; whatever the default, it is at most `MAX_INT`.
   */
  lemma ResolvedMaximaFitInt(c: Config)
    requires WellFormedWidths(c.sizeInstruction, c.sizeOp, c.sizeB)
    requires c.bitsInt.None? && c.intMax >= StandardMinIntMax
    requires Resolve(c).Some?
    ensures var r := Resolve(c).value;
      && 0 <= r.layout.maxArgS <= r.layout.maxArgU <= r.maxInt
      && 0 <= r.layout.maxArgA <= r.maxInt
      && 0 <= r.layout.maxArgB <= r.maxInt
      && r.limits.maxStack <= r.maxInt && r.limits.maxUpvalues <= r.maxInt
      && (c.overrides.maxStack.GetOr(DefaultMaxStack) >= 0 ==> 0 <= r.limits.maxStack)
      && (c.overrides.maxUpvalues.GetOr(DefaultMaxUpvalues) >= 0 ==> 0 <= r.limits.maxUpvalues)
  {
    var r := Resolve(c).value;
    DetectedWidthIsSafe(c.intMax);
    FieldMaxFits(r.layout.sizeU, r.bitsInt, r.maxInt);
    FieldMaxFits(r.layout.sizeA, r.bitsInt, r.maxInt);
    FieldMaxFits(r.layout.sizeB, r.bitsInt, r.maxInt);
  }

  /**
   * The reference build on a 32-bit host: nothing collapses, and the
   * stack, local, upvalue and parameter limits keep their defaults.
   */
  lemma Reference32BitHost(multRet: int)
    ensures var r := Resolve(ReferenceConfig(2147483647, multRet));
      && r.Some? && r.value.bitsInt == 32 && r.value.maxInt == 2147483645
      && r.value.layout.sizeU == 26 && r.value.layout.sizeA == 18 && r.value.layout.sizeB == 8
      && r.value.layout.posU == 6 && r.value.layout.posB == 6 && r.value.layout.posA == 14
      && r.value.layout.maxArgU == 67108863 && r.value.layout.maxArgS == 33554431
      && r.value.layout.maxArgA == 262143 && r.value.layout.maxArgB == 255
      && r.value.limits.maxStack == 250 && r.value.limits.maxLocals == 200
      && r.value.limits.maxUpvalues == 32 && r.value.limits.maxParams == 100
      && r.value.limits.lFieldsPerFlush == 62 && r.value.limits.rFieldsPerFlush == 31
      && r.value.limits.lookbackNums == 20
      && r.value.limits.maxVarsLH == (if multRet > 100 then 100 else multRet - 1)
  {
    Pow2Values();
  }

  /**
   * The reference build on a 16-bit host: the 26-bit `U` and the 18-bit `A`
   * collapse to `MAX_INT`, while the 8-bit `B` keeps 255, so MAXSTACK is
   * still 250.
   */
  lemma Reference16BitHost(multRet: int)
    ensures var r := Resolve(ReferenceConfig(32767, multRet));
      && r.Some? && r.value.bitsInt == 16 && r.value.maxInt == 32765
      && r.value.layout.maxArgU == 32765 && r.value.layout.maxArgS == 32765
      && r.value.layout.maxArgA == 32765 && r.value.layout.maxArgB == 255
      && r.value.limits.maxStack == 250 && r.value.limits.maxLocals == 200
      && r.value.limits.maxUpvalues == 32 && r.value.limits.maxParams == 100
      && r.value.limits.lFieldsPerFlush == 62 && r.value.limits.rFieldsPerFlush == 31
  {
    Pow2Values();
  }

  /**
   * The 2-byte instruction of the header's comment on a 16-bit host: a
   * 5-bit `B` holds at most 31, which lowers MAXSTACK and everything that
   * depends on it.
   */
  lemma TwoByteInstructionHost(multRet: int)
    ensures var r := Resolve(Config(32767, None, 16, ReferenceSizeOp, 5, NoOverrides, multRet));
      && r.Some? && r.value.layout.sizeU == 10 && r.value.layout.sizeA == 5
      && r.value.layout.maxArgU == 1023 && r.value.layout.maxArgS == 511
      && r.value.layout.maxArgA == 31 && r.value.layout.maxArgB == 31
      && r.value.limits.maxStack == 31 && r.value.limits.maxLocals == 30
      && r.value.limits.maxUpvalues == 31 && r.value.limits.maxParams == 29
      && r.value.limits.lFieldsPerFlush == 7 && r.value.limits.rFieldsPerFlush == 3
  {
    Pow2Values();
  }

  /**
   * A host whose `INT_MAX` is neither 16- nor 32-bit-like gets no
   * configuration unless the build predefines `BITS_INT`, whatever width it
   * predefines.
   */
  lemma UnguessableWidthFails(intMax: int, multRet: int, bits: int)
    requires 32780 <= intMax <= 2147483640
    ensures Resolve(ReferenceConfig(intMax, multRet)).None?
    ensures Resolve(ReferenceConfig(intMax, multRet)
                    .(bitsInt := Some(bits))).Some?
  {
  }

  /**
   * Narrowing `B` never raises a limit: with everything else equal, a build
   * whose `SIZE_B` is smaller gets limits no larger than one whose `SIZE_B`
   * is larger, provided its width is safe for its `MAX_INT`.
   */
  lemma ResolveMonotoneInSizeB(c: Config, sizeB1: nat, sizeB2: nat)
    requires sizeB1 <= sizeB2
    requires WellFormedWidths(c.sizeInstruction, c.sizeOp, sizeB2)
    requires BitsInt(c.intMax, c.bitsInt).Some?
    requires SafeWidth(BitsInt(c.intMax, c.bitsInt).value, MaxInt(c.intMax))
    ensures var r1, r2 := Resolve(c.(sizeB := sizeB1)), Resolve(c.(sizeB := sizeB2));
      && r1.Some? && r2.Some?
      && r1.value.limits.maxStack <= r2.value.limits.maxStack
      && r1.value.limits.maxLocals <= r2.value.limits.maxLocals
      && r1.value.limits.maxUpvalues <= r2.value.limits.maxUpvalues
      && r1.value.limits.maxParams <= r2.value.limits.maxParams
      && r1.value.limits.lFieldsPerFlush <= r2.value.limits.lFieldsPerFlush
      && r1.value.limits.rFieldsPerFlush <= r2.value.limits.rFieldsPerFlush
  {
    var bits := BitsInt(c.intMax, c.bitsInt).value;
    var maxInt := MaxInt(c.intMax);
    FieldMaxMonotone(sizeB1, sizeB2, bits, maxInt);
    DeriveLimitsMonotone(c.overrides, FieldMax(sizeB1, bits, maxInt), FieldMax(sizeB2, bits, maxInt), c.multRet);
  }
}
