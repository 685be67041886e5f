/**
 * The width model of llimits.h: the number of bits of the host's `int`
 * (`BITS_INT`), guessed from `INT_MAX` unless the build defines it, and the
 * safe integer ceiling `MAX_INT`.
 */
module IntWidth {
  import opened Base

  /** The C standard's smallest permitted `INT_MAX`. */
  const StandardMinIntMax: int := 32767

  /**
   * The guess `BITS_INT` makes from `INT_MAX`: 16 when `INT_MAX-20 < 32760`
   * (written so that the comparison itself cannot overflow), otherwise 32
   * when `INT_MAX > 2147483640`, otherwise no value: the `#error` branch,
   * which stops the build until `BITS_INT` is defined by hand.
   */
  function DetectBitsInt(intMax: int): (r: Option<int>)
    ensures r == Some(16) <==> intMax < 32780
    ensures r == Some(32) <==> intMax > 2147483640
    ensures r == None <==> 32780 <= intMax <= 2147483640
  {
    if intMax - 20 < 32760 then Some(16)
    else if intMax > 2147483640 then Some(32)
    else None
  }

  /** `BITS_INT`: the build's own definition wins; otherwise the guess above. */
  function BitsInt(intMax: int, defined: Option<int>): (r: Option<int>)
    ensures defined.Some? ==> r == defined
    ensures defined.None? ==> r == DetectBitsInt(intMax)
    ensures r.None? <==> defined.None? && 32780 <= intMax <= 2147483640
  {
    if defined.Some? then defined else DetectBitsInt(intMax)
  }

  /** `MAX_INT`: two below `INT_MAX`, kept as headroom for off-by-one arithmetic. */
  function MaxInt(intMax: int): (r: int)
    ensures r + 2 == intMax
    ensures intMax >= StandardMinIntMax ==> r >= 32765
  {
    intMax - 2
  }

  /**
   * Every field narrower than `bits-1` bits holds only values up to
   * `maxInt`: the widest such field has `bits-2` bits.
   */
  ghost predicate SafeWidth(bits: int, maxInt: int)
  {
    bits < 2 || Pow2(bits - 2) - 1 <= maxInt
  }

  /**
   * On a two's-complement host whose `int` has `b` bits (`INT_MAX` is
   * `2^(b-1)-1`) the guess names 16 up to 16 bits, fails from 17 to 31
   * bits, and names 32 from 32 bits on (a wider `int` is treated as 32 bits).
   */
  lemma DetectOnTwosComplementHost(b: nat)
    requires b >= 1
    ensures DetectBitsInt(Pow2(b - 1) - 1) ==
              if b <= 16 then Some(16) else if b < 32 then None else Some(32)
  {
    Pow2Values();
    if b <= 16 {
      Pow2Monotone(b - 1, 15);
    } else if b < 32 {
      Pow2Monotone(16, b - 1);
      Pow2Monotone(b - 1, 30);
    } else {
      Pow2Monotone(31, b - 1);
    }
  }

  /**
   * On any host whose `INT_MAX` meets the C standard's minimum, a guessed
   * width is safe: a field narrower than `BITS_INT-1` bits never holds more
   * than `MAX_INT`.
   */
  lemma DetectedWidthIsSafe(intMax: int)
    requires intMax >= StandardMinIntMax
    requires DetectBitsInt(intMax).Some?
    ensures SafeWidth(DetectBitsInt(intMax).value, MaxInt(intMax))
  {
    Pow2Values();
  }
}
