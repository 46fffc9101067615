# AVX-512 FP16 test helper, modelled in Dafny

`gcc/testsuite/gcc.target/i386/avx512fp16-helper.h` is shared by GCC's
runtime tests of the AVX-512 FP16 intrinsics. A test works like this:
- it seeds operand registers with `init_src` and a destination/expected pair with `init_dest`;
- it runs the intrinsic under test;
- it computes the expected result in single precision, converting half lanes with `unpack_ph_2twops` and back with `pack_twops_2ph`;
- it compares with `check_results`, which bumps the global `n_errs` once for a call that finds a lane more than one bit pattern away.

This project models that machinery:

- `v512_layout.dfy` (module `V512Layout`): the `V512` union as 32 16-bit half lanes.
  - The `u32`/`f32` view is a function of the half lanes: 32-bit lane `j` is half lane `2j` (low) and `2j+1` (high), as on little-endian x86.
  - The 256-bit halves are the first and last 16 half lanes.
  - A `float` lane is represented by its binary32 bit pattern, so `f32` and `u32` are one view.
  - A `V512` held by value is a `seq` of 32 lanes. A `V512` in memory (a global, or a pointer argument) is an `array` of 32 lanes.
- `precision_bridge.dfy` (module `PrecisionBridge`): `_mm512_cvtph_ps` and `_mm512_cvtps_ph` are the fields `widen` and `narrow` of a `Conversions` value.
  - They are arbitrary total functions on bit patterns, so everything proved holds whatever the hardware does.
  - `Pack` and `Unpack` give the lane mapping. `UnpackPh2Twops` is the pointer-writing procedure.
  - `PackUnpackRoundTrip` holds for every register whose half lanes each satisfy `narrow(widen(h)) == h`.
- `comparator.dfy` (module `ToleranceComparator`): the per-lane test of `check_results` on promoted `int` values, and the predicate `Rejects`.
  - `Rejects` says some lane below `n_elems` fails; that is when a call records an error.
- `harness.dfy` (module `Fp16Harness`): the globals `src1`, `src2`, `src3`, `n_errs` as the class `Globals`, with `CheckResults` and `InitSrc`. Also `InitDest`, and the generated register contents as functions.
  - The `float` formulas of the generators are the fields of a `Formulas` value. Each field is the bit pattern that the formula gives for lane `i`.
  - A local `V512` scratch register is a Dafny local value. It is written one 32-bit lane at a time through `SetWord`.
- `width_config.dfy` (module `WidthConfig`): the constants that `AVX512F_LEN` selects (`NET_MASK`, `MASK_VALUE`, `ZMASK_VALUE`) and the `HF`/`SF` lane selections.

Generator determinism follows from the contracts. `InitSrc` and `InitDest` fix the new contents of every register they write as functions of the conversions and formulas alone.

## Model

| member | source | states |
|---|---|---|
| V512Layout.WordAt | gcc/testsuite/gcc.target/i386/avx512fp16-helper.h:31-32 | 32-bit lane `j` has half lane `2j` as its low 16 bits and half lane `2j+1` as its high 16 bits |
| V512Layout.Words | gcc/testsuite/gcc.target/i386/avx512fp16-helper.h:23-35 | the `u32`/`f32` view has 16 lanes; each is made of the two half lanes it aliases, low half first |
| V512Layout.FromWords | gcc/testsuite/gcc.target/i386/avx512fp16-helper.h:23-35 | every 16-lane `u32` view is the view of some register, namely this one |
| V512Layout.FromWordsOfWords | gcc/testsuite/gcc.target/i386/avx512fp16-helper.h:23-35 | going from the half lanes to the `u32` view and back returns the same register: the views alias one storage |
| V512Layout.WordsInjective | gcc/testsuite/gcc.target/i386/avx512fp16-helper.h:23-35 | two registers with equal `u32` views are equal |
| V512Layout.SetWord | gcc/testsuite/gcc.target/i386/avx512fp16-helper.h:147-152 | assigning `v.u32[j]` (or `v.f32[j]`) sets that 32-bit lane and leaves every other 32-bit lane as it was |
| V512Layout.Lower256 | gcc/testsuite/gcc.target/i386/avx512fp16-helper.h:47 | `src.ymmi[0]` holds `float` lanes 0 to 7 of the register |
| V512Layout.Upper256 | gcc/testsuite/gcc.target/i386/avx512fp16-helper.h:48 | `_mm512_extractf32x8_ps(src.zmm, 1)` gives `float` lanes 8 to 15, moved to lanes 0 to 7 of its result |
| V512Layout.SplitHalves | gcc/testsuite/gcc.target/i386/avx512fp16-helper.h:27-29 | the two 256-bit halves `ymm[0]`, `ymm[1]` make up the whole register, lower one first |
| V512Layout.StoreWord | gcc/testsuite/gcc.target/i386/avx512fp16-helper.h:152 | the same store on a register in memory (`src3.u32[i] = ...`): the new contents are `SetWord` of the old |
| V512Layout.StoreV512 | gcc/testsuite/gcc.target/i386/avx512fp16-helper.h:168 | a whole-register assignment leaves the register equal to the assigned value |
| PrecisionBridge.CvtPhPs | gcc/testsuite/gcc.target/i386/avx512fp16-helper.h:47 | `float` lane `i` of the result is `widen` of half lane `i` of the 256-bit operand |
| PrecisionBridge.CvtPsPh | gcc/testsuite/gcc.target/i386/avx512fp16-helper.h:57-58 | half lane `i` of the 256-bit result is `narrow` of `float` lane `i` of the operand |
| PrecisionBridge.Unpack | gcc/testsuite/gcc.target/i386/avx512fp16-helper.h:42-50 | `op1.f32[i] == widen(src.f16[i])` and `op2.f32[i] == widen(src.f16[16+i])` for every `i < 16` |
| PrecisionBridge.UnpackPh2Twops | gcc/testsuite/gcc.target/i386/avx512fp16-helper.h:42-50 | `*op2` ends up as the upper unpacked register, and `*op1` as the lower one unless both pointers are the same |
| PrecisionBridge.Pack | gcc/testsuite/gcc.target/i386/avx512fp16-helper.h:52-63 | half lane `i` is `narrow(op1.f32[i])` and half lane `16+i` is `narrow(op2.f32[i])` for every `i < 16` |
| PrecisionBridge.PackUnpackRoundTrip | gcc/testsuite/gcc.target/i386/avx512fp16-helper.h:42-63 | if every half lane `h` of `src` satisfies `narrow(widen(h)) == h`, packing the two unpacked registers gives back `src` lane for lane |
| ToleranceComparator.LaneAccepted | gcc/testsuite/gcc.target/i386/avx512fp16-helper.h:121-123 | a lane passes exactly when the promoted patterns differ by at most 1 in either direction |
| ToleranceComparator.Rejects | gcc/testsuite/gcc.target/i386/avx512fp16-helper.h:120-123 | some lane below `n_elems` fails the test, the condition under which the loop counts an error; it can hold only when `n_elems >= 1` |
| ToleranceComparator.ToleranceBoundary | gcc/testsuite/gcc.target/i386/avx512fp16-helper.h:110-112 | patterns one apart, either way, pass; patterns two or more apart fail |
| ToleranceComparator.NoWraparound | gcc/testsuite/gcc.target/i386/avx512fp16-helper.h:122-123 | `0x0000` and `0xFFFF` do not accept each other: the promoted arithmetic does not wrap at 16 bits |
| ToleranceComparator.RejectsIrreflexive | gcc/testsuite/gcc.target/i386/avx512fp16-helper.h:121 | a buffer compared with itself has no failing lane |
| ToleranceComparator.RejectsPrefixOnly | gcc/testsuite/gcc.target/i386/avx512fp16-helper.h:114-120 | lanes at index `n_elems` or above never affect the outcome, and `n_elems <= 0` never fails |
| ToleranceComparator.SingleLaneDeviation | gcc/testsuite/gcc.target/i386/avx512fp16-helper.h:120-135 | moving one checked lane of an identical copy by `d` fails the comparison exactly when `d >= 2` or `d <= -2` |
| Fp16Harness.Globals.constructor | gcc/testsuite/gcc.target/i386/avx512fp16-helper.h:38-39 | at program start `n_errs` is 0 and the three static registers are zero |
| Fp16Harness.Globals.CheckResults | gcc/testsuite/gcc.target/i386/avx512fp16-helper.h:113-137 | `n_errs` goes up by exactly 1 when some lane below `n_elems` is more than 1 apart, and is unchanged otherwise. Only `n_errs` is written; neither buffer changes |
| Fp16Harness.FloatColumn | gcc/testsuite/gcc.target/i386/avx512fp16-helper.h:146-150 | the register whose `float` lane `i` is the formula's value for `i`, for all 16 lanes |
| Fp16Harness.GeneratedSrc1 | gcc/testsuite/gcc.target/i386/avx512fp16-helper.h:147-155 | `src1` half lane `i` is `narrow` of the `-i+1` pattern for lane `i`, and half lane `16+i` is `narrow` of the `i*0.5f` pattern for lane `i` |
| Fp16Harness.GeneratedSrc2 | gcc/testsuite/gcc.target/i386/avx512fp16-helper.h:149-156 | `src2` half lane `i` is `narrow` of the `i*2.5f` pattern for lane `i`, and half lane `16+i` is `narrow` of the `i-0.5f` pattern for lane `i` |
| Fp16Harness.GeneratedSrc3 | gcc/testsuite/gcc.target/i386/avx512fp16-helper.h:152 | `src3.u32[i] == (i+1)*10` for every `i < 16` |
| Fp16Harness.GeneratedDest | gcc/testsuite/gcc.target/i386/avx512fp16-helper.h:165-168 | half lanes `i` and `16+i` both hold `narrow` of the `12+0.5f*i` pattern for lane `i` |
| Fp16Harness.FilledIsColumn | gcc/testsuite/gcc.target/i386/avx512fp16-helper.h:146-151 | a register whose 16 `float` lanes were each assigned by the loop holds exactly the formula's column |
| Fp16Harness.FilledOperands | gcc/testsuite/gcc.target/i386/avx512fp16-helper.h:146-156 | the four filled scratch registers pack into the generated `src1` and `src2` |
| Fp16Harness.Globals.InitSrc | gcc/testsuite/gcc.target/i386/avx512fp16-helper.h:140-157 | after `init_src`, `src1`, `src2` and `src3` hold the generated registers; `n_errs` is untouched and the globals stay three distinct 32-lane registers |
| Fp16Harness.InitDest | gcc/testsuite/gcc.target/i386/avx512fp16-helper.h:159-169 | after `init_dest`, `*res` and `*exp` are identical and equal to the generated destination |
| Fp16Harness.InitDestThenCheck | gcc/testsuite/gcc.target/i386/avx512fp16-helper.h:165-168 | `check_results(res, exp, n)` right after `init_dest(res, exp)` leaves `n_errs` unchanged |
| WidthConfig.HalfLaneCount | gcc/testsuite/gcc.target/i386/avx512fp16-helper.h:178-206 | the configured width holds `AVX512F_LEN / 16` half lanes: 8, 16 or 32, never more than a `V512` |
| WidthConfig.NetMask | gcc/testsuite/gcc.target/i386/avx512fp16-helper.h:184-201 | `NET_MASK + 1 == 2^lanes`: one set bit per 16-bit lane of the configured width |
| WidthConfig.MaskValue | gcc/testsuite/gcc.target/i386/avx512fp16-helper.h:185-202 | `MASK_VALUE` selects only lanes inside the configured width |
| WidthConfig.ZmaskValue | gcc/testsuite/gcc.target/i386/avx512fp16-helper.h:186-203 | `ZMASK_VALUE` selects only lanes inside the configured width |
| WidthConfig.ActiveHalves | gcc/testsuite/gcc.target/i386/avx512fp16-helper.h:187-204 | `HF(x)` is `ymmh[0]` (the lower 256 bits) for 256-bit builds, `xmmh[0]` (the lowest 128 bits) for 128-bit builds and `zmmh` (all of `x`) otherwise |
| WidthConfig.ActiveFloats | gcc/testsuite/gcc.target/i386/avx512fp16-helper.h:188 | `SF(x)` has `AVX512F_LEN / 32` `float` lanes, each aliasing two consecutive lanes of `HF(x)` |

## Left out

- `display_ps` and the `DEBUG` report inside `check_results` are standard-output diagnostics. The `banner` argument of `check_results` is only printed, so it is not a parameter here.
- The numeric behaviour of `_mm512_cvtph_ps` and `_mm512_cvtps_ph` (IEEE 754 binary16/binary32 conversion, round to nearest even) is not modelled; the two are arbitrary functions. `_mm512_extractf32x8_ps` and `_mm512_insertf32x8` are modelled only as moving 256-bit halves.
- The `float` values of the generator formulas (`-i + 1`, `i * 0.5f`, `i * 2.5f`, `i - 0.5f`, `12 + 0.5f * i`) are not modelled. They are opaque bit patterns fed to `narrow`.
- The string-pasting macros (`TO_STRING`, `STRINGIFY`, `NAME_OF`, `CHECK_RESULT`, `EMULATE`), `NOINLINE` and `_ROUND_NINT` are build plumbing. `avx512f-helper.h` and the intrinsic under test are not part of this model.
- Fp16Harness.Globals.CheckResults: `n_errs` is an unbounded integer, so signed overflow of the C `int` after 2^31-1 errors is not modelled.
- Fp16Harness.Globals.CheckResults: `n_elems` above 32 would read past the `V512` buffers (undefined behaviour in C), so it is excluded by a precondition. Any `n_elems` of 32 or less, zero and negatives included, is accepted.
- Uninitialised memory: the scratch registers of `init_src` and `init_dest` are written before they are read, and the model starts them at zero. In `pack_twops_2ph`, `_mm512_insertf32x8` reads all of `v1`, including its uninitialised upper 256 bits, but replaces them, so they never reach the result; `Pack` does not represent that half at all.
- WidthConfig.ActiveFloats: for 128-bit builds the source's `SF(x)` names a member `xmm` that the `V512` union does not declare. The model gives it the lowest four `float` lanes, which is what the member name intends.
- Concurrency: the source is single-threaded, and so is the model.
- Nothing about the generators depends on `AVX512F_LEN`: they always fill `AVX512F_MAX_ELEM` (16) `float` lanes, and narrower builds only look at the lowest ones. The model does the same.
