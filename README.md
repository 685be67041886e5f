# Lua's llimits.h: instruction layout and derived limits

This project models the configuration logic of Lua's `llimits.h` (version
1.26, 2001). First the header settles the width of the host's `int`
(`BITS_INT`). Unless the build predefines it, the header guesses only 16 or
32 from `INT_MAX`, so a 64-bit `int` is taken as 32 bits. It then sets the
safe ceiling `MAX_INT` to `INT_MAX-2`. Then it splits the
`SIZE_INSTRUCTION`-bit virtual-machine instruction into fields:

- the opcode sits in the low `SIZE_OP` bits;
- above the opcode, the word is read either as one unsigned field `U`, or as
  a low `B` field of `SIZE_B` bits topped by an `A` field holding the rest.

The maxima `MAXARG_U`, `MAXARG_B` and `MAXARG_A` are `2^width-1`, and
`MAXARG_S`, for the signed reading of `U`, is `2^(SIZE_U-1)-1`. When the
field is too wide for a signed `int`, the maximum collapses to `MAX_INT`
instead. Last, the
header clamps each structural limit so the fields can carry it. Each limit
starts from a default the build may predefine, and the header lowers it to
a ceiling but never raises it. The limits in order are `MAXSTACK`,
`MAXLOCALS`, `MAXUPVALUES`, `MAXVARSLH`, `MAXPARAMS`, `LFIELDS_PER_FLUSH`,
`RFIELDS_PER_FLUSH` and `LOOKBACKNUMS`.

The header does all of this with preprocessor conditionals, so the model
consists of pure functions over datatypes:

- `Base`: an optional value, written `Option`. Each `#ifndef X / #define X
  default` becomes an `Option` read with `GetOr(default)`. The module also
  holds powers of two (`1<<n`) and C's truncating division, written
  `TruncDiv`. The C99 preprocessor's `/` truncates toward zero, while
  Dafny's `/` does not.
- `IntWidth`: the guess of `BITS_INT` from `INT_MAX`, and `MAX_INT`.
- `FieldLayout`: the sizes and positions of the fields, and the collapse
  rule for `MAXARG_U`, `MAXARG_S`, `MAXARG_A` and `MAXARG_B`.
- `LimitDerivation`: the clamping chain. Each `#if X > C` step becomes
  `ClampAtMost`, and each `#if X >= C ... C-1` step becomes `ClampBelow`.
- `Configuration`: the whole header as one function `Resolve`, from a
  `Config` to `Option<Resolved>`. `None` stands for the `#error` branch.

Field names and ceilings follow the header itself:

- `B` is the fixed 8-bit field at the low position `POS_B = SIZE_OP`. `A`
  is the high field at `POS_A = SIZE_OP+SIZE_B`, and it absorbs the rest of
  the word.
- `MAXSTACK` and `MAXUPVALUES` are clamped by `MAXARG_B` (lines 176 and
  196). So on a 16-bit host with the reference widths only `U` (26 bits)
  and `A` (18 bits) collapse. `B` keeps 255, and `MAXSTACK` stays 250
  (`Configuration.Reference16BitHost`).

## Model

| member | source | states |
|---|---|---|
| `IntWidth.DetectBitsInt` | llimits.h:21-33 | the guess is 16 exactly when `INT_MAX-20 < 32760`, 32 exactly when `INT_MAX > 2147483640`, and there is no value (the `#error`) exactly when `INT_MAX` is between 32780 and 2147483640 |
| `IntWidth.BitsInt` | llimits.h:21-33 | a predefined `BITS_INT` is kept as it is; without one the width is the guess; there is no width exactly when none is predefined and `INT_MAX` is between 32780 and 2147483640 |
| `IntWidth.MaxInt` | llimits.h:93 | `MAX_INT` leaves two values of headroom below `INT_MAX`, and is at least 32765 on a host meeting the C minimum `INT_MAX` |
| `Base.Option.GetOr` | llimits.h:172-174 | the value of `#ifndef X / #define X default`: the predefined value when there is one, the default otherwise |
| `IntWidth.DetectOnTwosComplementHost` | llimits.h:18-33 | on a host whose `int` has `b` bits, the guess is 16 for `b <= 16`, fails for `b` from 17 to 31, and is 32 for `b >= 32` |
| `IntWidth.DetectedWidthIsSafe` | llimits.h:21-33 | if `INT_MAX` meets the C minimum of 32767, every field narrower than the guessed `BITS_INT-1` holds at most `MAX_INT` (`INT_MAX-2`, line 93) |
| `FieldLayout.FieldMax` | llimits.h:150-168 | below `BITS_INT-1` bits, the maximum is the largest value the width holds (`0 <= r < 2^w <= r+1`), and it is below `2^(BITS_INT-2)` and hence below `2^(BITS_INT-1)`; from that width on, it is `MAX_INT` |
| `FieldLayout.SignedMax` | llimits.h:150-156 | in the non-collapsed case `MAXARG_S` is `2^(SIZE_U-1)-1`, and `2*MAXARG_S+1 == MAXARG_U` (the value of `MAXARG_U>>1`); it is 0 for an empty `U` and `MAX_INT` once `U` collapses |
| `FieldLayout.MakeLayout` | llimits.h:134-168 | `SIZE_OP+SIZE_U` and `SIZE_OP+SIZE_B+SIZE_A` each equal `SIZE_INSTRUCTION`; `POS_U = POS_B = SIZE_OP` and `POS_A = POS_B+SIZE_B`; each maximum follows the collapse rule for its field's width |
| `FieldLayout.LayoutPartitionsWord` | llimits.h:134-142 | as bit sets, opcode and `U` split the word into disjoint parts that cover it; so do opcode, `B` and `A`, which pairwise do not overlap |
| `FieldLayout.TwoByteVariant` | llimits.h:129-142 | a 16-bit word with a 5-bit `B` gives `SIZE_U` 10 and `SIZE_A` 5 |
| `FieldLayout.FieldMaxFits` | llimits.h:145-168 | with a safe width and `MAX_INT >= 0`, `0 <= MAXARG_S <= MAXARG <= MAX_INT` for every width |
| `FieldLayout.FieldMaxMonotone` | llimits.h:150-168 | with a safe width, a narrower field never has a larger maximum, across the collapse boundary too |
| `Base.TruncDiv` | llimits.h:222-231 | division truncates toward zero, as the C99 preprocessor's `/` does: a non-negative quotient `q` with `q*b <= a < q*b+b` for `a >= 0`, and a non-positive one with `a <= q*b < a+b` for `a < 0` |
| `LimitDerivation.ClampAtMost` | llimits.h:176-179 | the result is at most the value and at most the ceiling, and equals one of them |
| `LimitDerivation.ClampBelow` | llimits.h:186-189 | the result is at most the value and below the bound, and equals the value or `bound-1` |
| `LimitDerivation.DeriveLimits` | llimits.h:171-237 | every limit is at most its default (overridden or not), equals it when the default is within its ceiling, and otherwise equals the ceiling's replacement: `MAXSTACK` and `MAXUPVALUES` become `MAXARG_B`, `MAXLOCALS` becomes `MAXSTACK-1`, `MAXVARSLH` becomes `MULT_RET-1`, `MAXPARAMS` becomes `MAXLOCALS-1`, and `LFIELDS_PER_FLUSH` becomes `MAXSTACK/4` (truncated) when that is below 64; `RFIELDS_PER_FLUSH` is `LFIELDS_PER_FLUSH/2` truncated; `MAXPARAMS < MAXLOCALS < MAXSTACK <= MAXARG_B`, `MAXUPVALUES <= MAXARG_B` and `MAXVARSLH < MULT_RET`; `LFIELDS_PER_FLUSH` is at most 64 and at most `MAXSTACK/4`, and equals 64 when that fits; `4*LFIELDS <= MAXSTACK` for a non-negative stack; `2*RFIELDS <= LFIELDS < 2*RFIELDS+2` for a non-negative list flush; `LOOKBACKNUMS` is its default |
| `LimitDerivation.NegativeFlushCounterexample` | llimits.h:222-231 | an override `MAXSTACK = -12` gives `LFIELDS = -3` and `RFIELDS = -1`, so with an odd negative list flush `2*RFIELDS <= LFIELDS` fails (under truncating division) |
| `LimitDerivation.NegativeEvenFlush` | llimits.h:222-231 | an override `MAXSTACK = -8` gives `LFIELDS = -2` and `RFIELDS = -1`, so an even negative list flush still meets `2*RFIELDS <= LFIELDS` |
| `LimitDerivation.DeriveLimitsMonotone` | llimits.h:171-231 | a lower `MAXARG_B` never raises `MAXSTACK`, `MAXLOCALS`, `MAXUPVALUES`, `MAXPARAMS`, `LFIELDS` or `RFIELDS`, and leaves `MAXVARSLH` and `LOOKBACKNUMS` unchanged |
| `Configuration.Resolve` | llimits.h:21-237 | there is no result exactly when `BITS_INT` is not predefined and cannot be guessed; a predefined `BITS_INT` is used as it is, and otherwise the guess is; `MAX_INT == INT_MAX-2`; the layout is the one `MakeLayout` gives for that width and `MAX_INT`, and the limits are those `DeriveLimits` gives for its `MAXARG_B`; the layout sizes add up to the word; `MAXPARAMS < MAXLOCALS < MAXSTACK <= MAXARG_B`, `MAXUPVALUES <= MAXARG_B` and `MAXVARSLH < MULT_RET` |
| `Configuration.ResolvedMaximaFitInt` | llimits.h:145-199 | on a host meeting the C minimum `INT_MAX` with a guessed `BITS_INT`, every `MAXARG_*` lies in `0..MAX_INT`; `MAXSTACK` and `MAXUPVALUES` are at most `MAX_INT`, and not negative when their (possibly overridden) defaults are not |
| `Configuration.Reference32BitHost` | llimits.h:134-237 | 32-bit reference build: `MAXARG_U = 2^26-1`, `MAXARG_S = 2^25-1`, `MAXARG_A = 2^18-1`, `MAXARG_B = 255`, `MAXSTACK` 250, `MAXLOCALS` 200, `MAXUPVALUES` 32, `MAXPARAMS` 100, `LFIELDS` 62, `RFIELDS` 31, `LOOKBACKNUMS` 20, `MAXVARSLH = min(100, MULT_RET-1)` |
| `Configuration.Reference16BitHost` | llimits.h:150-231 | 16-bit host with the reference widths: `MAXARG_U = MAXARG_S = MAXARG_A = 32765`, `MAXARG_B = 255`, and the limits are as on the 32-bit host (`MAXSTACK` 250, `MAXLOCALS` 200, `MAXUPVALUES` 32, `MAXPARAMS` 100, `LFIELDS` 62, `RFIELDS` 31) |
| `Configuration.TwoByteInstructionHost` | llimits.h:129-231 | 2-byte instruction on a 16-bit host: `MAXARG_B = 31` lowers `MAXSTACK` to 31, `MAXLOCALS` to 30, `MAXUPVALUES` to 31, `MAXPARAMS` to 29, `LFIELDS` to 7 and `RFIELDS` to 3 |
| `Configuration.UnguessableWidthFails` | llimits.h:21-33 | with `INT_MAX` between 32780 and 2147483640 the reference build fails unless `BITS_INT` is predefined, and it succeeds with any predefined width |
| `Configuration.ResolveMonotoneInSizeB` | llimits.h:134-231 | with a safe width, a build with a narrower `B` gets limits no larger than one with a wider `B` |

## Left out

- The number/string conversion hooks `NUMBER_FMT`, `lua_number2str` and `lua_str2number` (lines 36-47) are left out: they are `sprintf`/`strtod` calls on floating-point numbers.
- `l_s`, `l_c` and `uchar` (lines 50-58, 85-87) are left out: they are identity or cast macros with no logic.
- The typedefs `lu_hash`, `ls_hash`, `lu_mem`, `ls_nstr`, `lu_byte` and `Instruction` (lines 68-81, 126) are left out: they only pick host integer types.
- `IntPoint` (line 101) is left out: it turns a pointer address into a hash value.
- `MAX_SIZET` (line 90) is left out: it depends on the host's `size_t`.
- The alignment union `L_Umaxalign` (line 116) is left out: it is a type with no logic.
- `MINPOWER2` and `DEFAULT_STACK_SIZE` (lines 105 and 110) are left out: they are fixed constants that nothing clamps.
- `MULT_RET` is a parameter with no value: it comes from a header that is not part of this model.
- The encoder/decoder and the code generator that use these constants are not part of this model.
- The opcode field's position 0 is implied by `POS_U = POS_B = SIZE_OP`. llimits.h itself defines no `POS_OP`.
- Widths come in as naturals with `SIZE_OP+SIZE_B <= SIZE_INSTRUCTION` (`FieldLayout.WellFormedWidths`). A negative width would make the header's `1<<SIZE_A` undefined in C.
- FieldLayout.FieldMax: it computes `2^width-1` exactly and does not model overflow of `(1<<SIZE_x)-1` (lines 151, 159, 165). Where `MAXARG_U`, `MAXARG_A` or `MAXARG_B` expands in C code, that expression is evaluated in `int`. So a predefined `BITS_INT` wider than the host's `int` (32 on a 16-bit host, say) already overflows at `SIZE_U` 26, where the model gives `2^26-1`. Inside `#if`, the arithmetic is `long` in ANSI C (C89) and `intmax_t` in C99, which a predefined `BITS_INT` above 32 or 64 respectively can overflow too.
- LimitDerivation.DeriveLimits: limit arithmetic (`MAXSTACK-1`, `MULT_RET-1`) is done on unbounded integers. The preprocessor computes in `long` (C89) or `intmax_t` (C99), which could only overflow for overrides at the very ends of that range.
- LimitDerivation.DeriveLimits: it assumes `MULT_RET` is a defined macro when line 206 is read. llimits.h does not define it and includes only lua.h. If it were undefined there, `#if` would read it as 0, so the test would be `MAXVARSLH>=0`, while the replacement `(MULT_RET-1)` would expand later to the real value. The model does not capture that case.
- Base.TruncDiv: it follows C99, where division truncates toward zero. Under C89 a negative `MAXSTACK/4` or `LFIELDS_PER_FLUSH/2` (lines 224 and 231) may round down instead, so the values `LimitDerivation.NegativeFlushCounterexample` gives hold only for a compiler that truncates. Non-negative quotients are the same under both.
- `LFIELDS_PER_FLUSH` (line 223) has no `#ifndef` guard. A build that predefines it with a different value gets a macro redefinition, which the compiler rejects or resolves to 64. The model always starts from 64.
- Spelling the same configuration twice gives the same constants, since `Resolve` is a function. No separate idempotence lemma is stated.
