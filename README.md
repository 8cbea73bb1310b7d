# Display geometry of the emulated PlayStation GPU

This project models `PCSX::Display` from PCSX-Redux: the part of the GPU that
turns the display-control commands written by the emulated CPU into the
rectangle of video memory that is shown on screen.

- **Register decoders** (module `Registers`). The display-start, horizontal-range,
  vertical-range and display-mode commands are 32-bit words. Each field is cut
  out with a mask and a shift. The model computes the fields with division and
  remainder on integers. `Registers.MasksAreArithmetic` proves that each reading
  equals the bitwise expression on every 32-bit word, with both sides computed
  in 32-bit arithmetic. The step from there to division and remainder on
  unbounded integers is not proved. It holds because every command word is
  below 2^32 and no field computation overflows.
- **Geometry deriver** (module `Geometry`). It derives the displayed width and height
  from the raw registers and the cached PAL and interlace flags:
  - the 8-entry dot-clock divider table;
  - the clamp to the cycles of a scanline (3413 or 3406) and to the scanlines of a field (263 or 314);
  - rounding down to a multiple of the divider;
  - the "+2, then clear the two low bits" width rule;
  - doubling the height when interlaced.
- **State transitions** (module `Transitions`). `State` holds every field of the
  display as a value. There is one function per operation, giving the state after
  the operation. The lemmas state what the operations promise across calls:
  - idempotence;
  - the invariant `Consistent`: flags agree with the mode, the origin is a decodable one, the size is the derived one;
  - the invariant `Coherent`: the normalised rectangle is the adjusted unedited one;
  - the cold-boot rectangle.
- **The object** (module `Display`, class `Display.Display`). Its fields are those of
  the emulator's object. Its methods update them in place, in the emulator's order,
  and each method is proved to reach exactly the state of the matching
  `Transitions` function. Each method also ensures that it keeps the object's
  invariant `Valid` (the state is `Consistent`) and keeps it `Coherent` with the
  smoothing setting.

Two global settings are read by the emulator. Here they are parameters:
`linearFiltering` (display smoothing) and `autoVideo` (a mode change selects the
video standard). The emulator writes the video-standard setting. Here
`SetMode` and `Reset` return that write as an `Option<VideoStandard>` instead.

The normalised origin and size are floats in the emulator: a value divided by
1024 (x) or 512 (y). The model keeps the integer numerator. `Geometry.Normalized`
gives the real point a numerator stands for, and `Geometry.NormalizedInjective`
shows that comparing numerators compares those points.

`setMode` and `setDisplayStart` only act when the value changes. So a reset
refreshes the cached flags only when the mode was not already 0
(`Transitions.ResetRefreshesFlags`), and the normalised origin only when the
origin was not already (0, 0). The cold-boot
rectangle of 256 by 247 is therefore proved from any state whose flags agree
with its mode (`Transitions.ResetColdBoot`). Every operation keeps that
agreement: the `...Preserves` lemmas of `Transitions` show that each one keeps
`Consistent` and `Coherent`. `Transitions.Replay` runs a sequence of
operations (the GPU's control writes and changes of the smoothing setting) in
order. By induction over that sequence, every state reachable from the
zero-initialised display with smoothing off at power-on keeps both invariants
(`Transitions.ReachableFromPowerOn`). With smoothing on at power-on, the zero
state is not coherent, and a reset does not repair it: its origin write is
skipped because the origin is already (0, 0), so the normalised origin stays
at (0, 0) instead of (1, 1) (`Transitions.PowerOnSmoothingStale`). The initial
field values come from `core/display.h`, which is not part of this model, so
this holds of the zero-initialised display modelled here.

## Model

| member | source | states |
|---|---|---|
| Registers.StartX | src/core/display.cc:37 | the stored origin x, `command & 0x3fe`, is even and below 1024 |
| Registers.StartY | src/core/display.cc:38 | the stored origin y, `(command >> 10) & 0x1ff`, is below 512 |
| Registers.RangeX1 | src/core/display.cc:57 | `command & 0xfff` is below 4096 |
| Registers.RangeX2 | src/core/display.cc:58 | `(command >> 12) & 0xfff` is below 4096 |
| Registers.RangeY1 | src/core/display.cc:68 | `command & 0x3ff` is below 1024 |
| Registers.RangeY2 | src/core/display.cc:69 | `(command >> 10) & 0x3ff` is below 1024 |
| Registers.ModeByte | src/core/display.cc:79 | the mode `command & 0xff` is a byte |
| Registers.IsPal | src/core/display.cc:83 | `mode & 0x8` is set exactly when the mode's remainder modulo 16 is at least 8 |
| Registers.Is24Bit | src/core/display.cc:84 | `mode & 0x10` is set exactly when the mode's remainder modulo 32 is at least 16 |
| Registers.IsInterlaced | src/core/display.cc:85 | `mode & 0x20` is set exactly when the mode's remainder modulo 64 is at least 32 |
| Registers.ModeFlagsFromCommand | src/core/display.cc:83-85 | the PAL, 24-bit and interlace flags of the mode byte are bits 3, 4 and 5 of the command word |
| Registers.MasksAreArithmetic | src/core/display.cc:37-85 | every mask-and-shift field equals its division/remainder reading on all 32-bit words, and each mode-flag test equals its bit reading on all bytes |
| Geometry.HorizontalRes | src/core/display.cc:101 | the divider index always selects one of the 8 table entries |
| Geometry.HorizontalResIsMask | src/core/display.cc:101 | on every byte, the arithmetic index equals the bitwise one: bit 6 of the mode as bit 0, bits 0 and 1 of the mode as bits 1 and 2 |
| Geometry.Divider | src/core/display.cc:100-102 | the divider is always one of 4, 5, 7, 8, 10 |
| Geometry.CyclesPerScanline | src/core/display.cc:103 | a scanline lasts 3406 to 3413 dot-clock cycles, and it is 3406 exactly at 50 Hz |
| Geometry.TotalScanlines | src/core/display.cc:104 | a field has 263 to 314 scanlines, and it is 314 exactly at 50 Hz |
| Geometry.RoundDown | src/core/display.cc:110-111 | rounding to the divider gives a value at most the input and less than one divider below it |
| Geometry.Quotient | src/core/display.cc:122 | the number of dots in a span is at most a quarter of the span, since every divider is at least 4 |
| Geometry.DivisionByDivider | src/core/display.cc:110-111 | the per-divider rounding and quotient equal the source's `(v / divider) * divider` and `v / divider` for every divider of the table |
| Geometry.MonotoneRoundDown | src/core/display.cc:110-111 | rounding to the divider never reverses the order of two range ends |
| Geometry.AlignDown4 | src/core/display.cc:122 | `& ~3` gives a multiple of 4 at most the input and less than 4 below it |
| Geometry.AlignDown4IsMask | src/core/display.cc:122 | on 32-bit words, `b & ~3` equals `(b / 4) * 4` |
| Geometry.Span | src/core/display.cc:121 | the horizontal span is never negative; it is 0 exactly when end <= start and `end - start` otherwise |
| Geometry.Width | src/core/display.cc:100-122 | the width lies in 0..852; the rest of its contract is stated by `Geometry.WidthBounds`, `Geometry.EmptyRangeWidth` and `Geometry.WidthSaturates` |
| Geometry.WidthBounds | src/core/display.cc:100-122 | the width is a multiple of 4 and lies in 0..852 |
| Geometry.EmptyRangeWidth | src/core/display.cc:106-122 | a horizontal range whose end is not after its start has width 0 |
| Geometry.WidthSaturates | src/core/display.cc:103-111 | an `x1` or `x2` at or beyond the cycles of a scanline gives the same width as that cycle count |
| Geometry.Height | src/core/display.cc:113-118 | the height is `min(y2, total) - min(y1, total)`, doubled when interlaced: the outer `min` with the total never bites |
| Geometry.HeightSaturates | src/core/display.cc:104-115 | a `y1` or `y2` at or beyond the scanlines of a field gives the same height as that count |
| Geometry.HeightProperties | src/core/display.cc:113-118 | the progressive height is `min(total, clampY2 - clampY1)` and lies within ±total; it is negative exactly when clampY2 < clampY1; the interlaced height is exactly twice it |
| Geometry.Area | src/core/display.cc:124-126 | the unedited size has width 0..852 and height within twice the field's scanlines either way, and within once them when progressive |
| Geometry.AdjustSize | src/core/display.cc:128-132 | with smoothing on, both size numerators are 2 less; with smoothing off, they are unchanged |
| Geometry.AdjustStart | src/core/display.cc:45-49 | with smoothing on, both origin numerators are 1 more; with smoothing off, they are unchanged |
| Geometry.NormalizedInjective | src/core/display.cc:51-52 | two numerator pairs stand for the same point of the 1024x512 canvas exactly when they are equal |
| Transitions.ZeroArea | src/core/display.cc:99-126 | all-zero registers derive the empty rectangle, which is the zero-initialised size |
| Transitions.ZeroIsConsistent | src/core/display.cc:99-126 | the all-zero display satisfies the invariant `Consistent` |
| Transitions.DisplayArea | src/core/display.cc:99-126 | the size derived for a state has width 0..852; once the cached flags agree with the mode, it depends only on the registers and the mode byte |
| Transitions.UpdateDispArea | src/core/display.cc:99-135 | size becomes the derived area, the normalised size becomes its adjustment, and nothing else changes |
| Transitions.SetDisplayStart | src/core/display.cc:36-54 | the origin becomes the decoded one; an unchanged origin leaves the whole state unchanged; on change, the normalised origin is the adjusted new origin; only the origin fields change |
| Transitions.SetHorizontalRange | src/core/display.cc:56-65 | x1, x2 become the decoded fields; unchanged registers leave the whole state unchanged; otherwise the size is re-derived from the new registers and only registers and sizes change |
| Transitions.SetVerticalRange | src/core/display.cc:67-76 | y1, y2 become the decoded fields; unchanged registers leave the whole state unchanged; otherwise the size is re-derived and only registers and sizes change |
| Transitions.SetMode | src/core/display.cc:78-97 | the mode becomes the low byte; an unchanged mode leaves the whole state unchanged; a change re-derives the flags from the mode and re-derives the size, nothing else; the flags then equal bits 3, 4, 5 of the command |
| Transitions.ModeVideoWrite | src/core/display.cc:87-93 | the video standard is written exactly when automatic selection is on and the mode changes, and it is PAL exactly when bit 3 of the command is set |
| Transitions.SetLinearFiltering | src/core/display.cc:137-149 | only the normalised origin and size change, and they become the adjusted unedited origin and size |
| Transitions.ResetRegisters | src/core/display.cc:26-30 | reset loads x1 = 0x200, x2 = 0xc00 (256 dots of divider 10), y1 = 0x10, y2 = 0x250 (576 lines), turns the display off, and changes no other field |
| Transitions.Reset | src/core/display.cc:25-34 | the cold-boot registers 0x200, 0xc00, 0x10, 0x250, display off, mode 0, origin (0, 0), size re-derived and normalised; the normalised origin is refreshed only if the origin moved |
| Transitions.ResetColdBoot | src/core/display.cc:25-34 | from any state whose flags agree with its mode, reset gives a consistent 60 Hz, 15-bit, progressive state of size 256 by 247 |
| Transitions.ResetRefreshesFlags | src/core/display.cc:31 | a reset clears the cached PAL, 24-bit and interlace flags when the mode was not already 0, and leaves them untouched otherwise |
| Transitions.ResetKeepsInvariants | src/core/display.cc:25-34 | a reset keeps the state consistent and coherent, and from agreeing flags reaches the consistent 256 by 247 state |
| Transitions.ColdBootArea | src/core/display.cc:99-122 | the cold-boot registers in mode 0, NTSC, progressive, derive 256 by 247 |
| Transitions.ResetVideoWrite | src/core/display.cc:25-34 | reset writes NTSC exactly when automatic selection is on and the mode was not already 0 |
| Transitions.SetDisplayStartIdempotent | src/core/display.cc:36-54 | writing the same display-start command twice is the same as writing it once |
| Transitions.SetHorizontalRangeIdempotent | src/core/display.cc:56-65 | writing the same horizontal-range command twice is the same as writing it once |
| Transitions.SetVerticalRangeIdempotent | src/core/display.cc:67-76 | writing the same vertical-range command twice is the same as writing it once |
| Transitions.SetModeIdempotent | src/core/display.cc:78-97 | writing the same mode command twice is the same as writing it once, and the second write selects no video standard |
| Transitions.UpdateDispAreaPreserves | src/core/display.cc:99-135 | recomputing the geometry keeps the state consistent, and keeps the normalised rectangle coherent with an unchanged smoothing setting |
| Transitions.SetDisplayStartPreserves | src/core/display.cc:36-54 | a display-start write keeps the state consistent and coherent |
| Transitions.SetHorizontalRangePreserves | src/core/display.cc:56-65 | a horizontal-range write keeps the state consistent and coherent |
| Transitions.SetVerticalRangePreserves | src/core/display.cc:67-76 | a vertical-range write keeps the state consistent and coherent |
| Transitions.SetModePreserves | src/core/display.cc:78-97 | a mode write keeps the state consistent and coherent |
| Transitions.SetLinearFilteringPreserves | src/core/display.cc:137-149 | re-normalising keeps the state consistent |
| Transitions.ResetPreservesCoherent | src/core/display.cc:25-34 | a reset keeps the normalised rectangle coherent with an unchanged smoothing setting |
| Transitions.SetLinearFilteringMatchesRecomputation | src/core/display.cc:128-149 | on a consistent state, re-normalising gives the same normalised size as a full recomputation and the same normalised origin as a moving display-start write |
| Transitions.FilteringToggleRestores | src/core/display.cc:137-149 | turning smoothing on and then off restores numerators equal to the unedited origin and size, and changes nothing else |
| Transitions.ApplyPreserves | src/core/display.cc:25-149 | any single operation, or a change of the smoothing setting, keeps a consistent and coherent state consistent, and coherent with the setting in force after it |
| Transitions.ReplayPreserves | src/core/display.cc:25-149 | any sequence of operations from a consistent, coherent state ends consistent and coherent with the final smoothing setting |
| Transitions.ReachableFromPowerOn | src/core/display.cc:25-149 | every state the zero-initialised display reaches, smoothing initially off, is consistent and coherent with the setting then in force |
| Transitions.ReplayAppend | src/core/display.cc:25-149 | running one sequence of operations and then another equals running their concatenation, with the smoothing setting carried across |
| Transitions.FinalSettingIsLastChange | src/core/display.cc:137-149 | the smoothing setting after a sequence of operations is the one the last change selected, or the initial one if nothing changed it |
| Transitions.PowerOnSmoothingStale | src/core/display.cc:32-53 | with smoothing on, a reset of the zero-initialised display skips its origin write, leaves the normalised origin at (0, 0) and so leaves the rectangle not coherent with the setting |
| Display.Display.UpdateDispArea | src/core/display.cc:99-135 | the in-place update reaches `Transitions.UpdateDispArea` of the state before; a valid object stays valid, and a coherent one stays coherent under the same smoothing setting |
| Display.Display.SetDisplayStart | src/core/display.cc:36-54 | the in-place update reaches `Transitions.SetDisplayStart` of the state before; a valid object stays valid, and a coherent one stays coherent under the same smoothing setting |
| Display.Display.SetHorizontalRange | src/core/display.cc:56-65 | the in-place update reaches `Transitions.SetHorizontalRange` of the state before; a valid object stays valid, and a coherent one stays coherent under the same smoothing setting |
| Display.Display.SetVerticalRange | src/core/display.cc:67-76 | the in-place update reaches `Transitions.SetVerticalRange` of the state before; a valid object stays valid, and a coherent one stays coherent under the same smoothing setting |
| Display.Display.SetMode | src/core/display.cc:78-97 | the in-place update reaches `Transitions.SetMode` and returns the video-standard write of `Transitions.ModeVideoWrite`; a valid object stays valid, and a coherent one stays coherent |
| Display.Display.SetLinearFiltering | src/core/display.cc:137-149 | the in-place update reaches `Transitions.SetLinearFiltering`, keeps a valid object valid, and leaves the rectangle coherent with the new setting |
| Display.Display.Reset | src/core/display.cc:25-34 | the in-place update reaches `Transitions.Reset` and returns its video-standard write; from agreeing flags it leaves a valid display of size 256 by 247; a valid object stays valid and a coherent one coherent |

## Left out

- Floating point: the normalised origin and size are kept as integer numerators over 1024 and 512, not as single-precision quotients.
- The emulator's settings store is not part of this model. The smoothing and automatic-video flags are parameters. The video-standard write is returned to the caller instead of being stored.
- `core/display.h` and `core/psxemulator.h` are not part of this model. The field types are chosen to hold every value the masks produce: 12-bit horizontal registers, 10-bit vertical registers, a mode byte, unbounded integer vectors.
- Display.Display.constructor: the initial field values come from `core/display.h`, which is not available. The constructor zero-initialises every field and proves that this state satisfies the invariant.
- The divider arithmetic is written out per divider value, so that each division is by a constant. `Geometry.DivisionByDivider` proves that this equals the source's division by the table entry.
- Registers.MasksAreArithmetic: proves each mask equals its division/remainder reading with both sides computed on 32-bit words. The step from those to the unbounded-integer functions the model uses is not proved, because the solver cannot carry it. It holds because every value is below 2^32.
- Geometry.HorizontalResIsMask: proves the selector identity on 8-bit values only. The step to the unbounded-integer `Geometry.HorizontalRes` is not proved, for the same reason. It holds because a mode byte is below 2^8.
- Geometry.AlignDown4IsMask: proves `b & ~3 == (b / 4) * 4` on 32-bit words only. The step to the unbounded-integer `Geometry.AlignDown4` is not proved, for the same reason. It holds because every value it is applied to is below 2^32.
- C++ integer widths: every intermediate value here fits easily in 32 bits (at most 3413 cycles and 1024 scanlines). So unsigned and signed arithmetic are modelled on unbounded integers, with no wrap-around.
- `setMode` recomputes the geometry only inside its "mode changed" branch. The model follows that code rather than a reading in which every mode write recomputes.
- The height is a signed integer and is not floored at zero when the clamped `y2` is below the clamped `y1`. The model keeps the negative height, as the code does, and proves exactly when it occurs.
- The renderer that consumes the rectangle, and the rest of the emulator (CPU, GPU command dispatch, user interface), lie outside this file.
