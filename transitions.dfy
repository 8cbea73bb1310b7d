/**
 The display state as a value, and one function per operation of the display
 that gives the state after the operation from the state before it. The class
 in module Display implements each operation by updating its fields in place
 and is proved to reach exactly the state these functions describe; the lemmas
 here state what the operations promise across calls.

 The two settings the operations consult are parameters: `linearFiltering`
 (display smoothing on or off) and `autoVideo` (whether a mode write selects
 the video standard). The normalised start and size are kept as integer
 numerators over the canvas dimensions 1024 and 512.
 */
module Transitions {
  import opened Registers
  import opened Geometry

  datatype Option<T> = None | Some(value: T)

  /** The video standard a mode write selects when automatic selection is on. */
  datatype VideoStandard = NTSC | PAL

  datatype State = State(
    x1: U12, x2: U12,            // raw horizontal display range, dot-clock cycles
    y1: U10, y2: U10,            // raw vertical display range, scanlines
    drawMode: Byte,              // raw mode byte
    pal: bool, rgb24: bool, interlace: bool,   // flags cached from drawMode
    enabled: bool,
    start: Vec2,                 // raw, unedited display origin
    size: Vec2,                  // derived, unedited display size
    startNormalized: Vec2,       // numerators over (1024, 512), possibly smoothing-adjusted
    sizeNormalized: Vec2)        // numerators over (1024, 512), possibly smoothing-adjusted

  /**
   The size the geometry derivation yields for the state's registers and cached
   flags; once the flags agree with the mode, it is a function of the registers
   and the mode byte alone.
   */
  function DisplayArea(s: State): (a: Vec2)
    ensures 0 <= a.x <= 852
    ensures FlagsAgree(s) ==>
      a == Area(s.drawMode, IsPal(s.drawMode), IsInterlaced(s.drawMode), s.x1, s.x2, s.y1, s.y2)
  {
    Area(s.drawMode, s.pal, s.interlace, s.x1, s.x2, s.y1, s.y2)
  }

  /** The cached flags are bits 3, 4 and 5 of the mode byte. */
  predicate FlagsAgree(s: State) {
    && s.pal == IsPal(s.drawMode)
    && s.rgb24 == Is24Bit(s.drawMode)
    && s.interlace == IsInterlaced(s.drawMode)
  }

  /**
   The invariant every operation keeps: the flags agree with the mode, the origin
   is a value a display-start command can produce, and the size is the one the
   registers give.
   */
  predicate Consistent(s: State) {
    && FlagsAgree(s)
    && s.start.x % 2 == 0 && 0 <= s.start.x < 1024 && 0 <= s.start.y < 512
    && s.size == DisplayArea(s)
  }

  /** The normalised rectangle is the unedited one, adjusted for the given smoothing setting. */
  predicate Coherent(s: State, linearFiltering: bool) {
    && s.startNormalized == AdjustStart(s.start, linearFiltering)
    && s.sizeNormalized == AdjustSize(s.size, linearFiltering)
  }

  /** A display whose fields are all zero-initialised. */
  predicate IsZero(s: State) {
    && s.x1 == 0 && s.x2 == 0 && s.y1 == 0 && s.y2 == 0 && s.drawMode == 0
    && !s.pal && !s.rgb24 && !s.interlace && !s.enabled
    && s.start == Vec2(0, 0) && s.size == Vec2(0, 0)
    && s.startNormalized == Vec2(0, 0) && s.sizeNormalized == Vec2(0, 0)
  }

  /** The zero-initialised display is consistent. */
  lemma ZeroIsConsistent(s: State)
    requires IsZero(s)
    ensures Consistent(s)
  {
    ZeroArea(s);
  }

  /** All-zero registers give an empty rectangle, which is the zero-initialised size. */
  lemma ZeroArea(s: State)
    requires IsZero(s)
    ensures s.size == DisplayArea(s)
  {
    EmptyRangeWidth(s.drawMode, s.pal, s.x1, s.x2);
  }

  /**
   Recomputes the unedited size from the registers and the normalised size from it;
   nothing else changes.
   */
  function UpdateDispArea(s: State, linearFiltering: bool): (t: State)
    ensures t.size == DisplayArea(s)
    ensures t.sizeNormalized == AdjustSize(t.size, linearFiltering)
    ensures t.(size := s.size, sizeNormalized := s.sizeNormalized) == s
  {
    var area := DisplayArea(s);
    s.(size := area, sizeNormalized := AdjustSize(area, linearFiltering))
  }

  /**
   Stores the masked origin of a display-start command and refreshes the normalised
   origin, but only when the origin actually changes.
   */
  function SetDisplayStart(s: State, command: Word, linearFiltering: bool): (t: State)
    ensures t.start == Vec2(StartX(command), StartY(command))
    ensures t.(start := s.start, startNormalized := s.startNormalized) == s
    ensures t.start == s.start ==> t == s
    ensures t.start != s.start ==> t.startNormalized == AdjustStart(t.start, linearFiltering)
  {
    var startX, startY := StartX(command), StartY(command);
    if startX != s.start.x || startY != s.start.y then
      var start := Vec2(startX, startY);
      s.(start := start, startNormalized := AdjustStart(start, linearFiltering))
    else
      s
  }

  /**
   Stores the masked horizontal range and, only when it changed, recomputes the
   geometry from the new registers.
   */
  function SetHorizontalRange(s: State, command: Word, linearFiltering: bool): (t: State)
    ensures t.x1 == RangeX1(command) && t.x2 == RangeX2(command)
    ensures t.x1 == s.x1 && t.x2 == s.x2 ==> t == s
    ensures t.x1 != s.x1 || t.x2 != s.x2 ==>
      && t.size == DisplayArea(t)
      && t.sizeNormalized == AdjustSize(t.size, linearFiltering)
      && t.(x1 := s.x1, x2 := s.x2, size := s.size, sizeNormalized := s.sizeNormalized) == s
  {
    var newX1, newX2 := RangeX1(command), RangeX2(command);
    if s.x1 != newX1 || s.x2 != newX2 then
      UpdateDispArea(s.(x1 := newX1, x2 := newX2), linearFiltering)
    else
      s
  }

  /**
   Stores the masked vertical range and, only when it changed, recomputes the
   geometry from the new registers.
   */
  function SetVerticalRange(s: State, command: Word, linearFiltering: bool): (t: State)
    ensures t.y1 == RangeY1(command) && t.y2 == RangeY2(command)
    ensures t.y1 == s.y1 && t.y2 == s.y2 ==> t == s
    ensures t.y1 != s.y1 || t.y2 != s.y2 ==>
      && t.size == DisplayArea(t)
      && t.sizeNormalized == AdjustSize(t.size, linearFiltering)
      && t.(y1 := s.y1, y2 := s.y2, size := s.size, sizeNormalized := s.sizeNormalized) == s
  {
    var newY1, newY2 := RangeY1(command), RangeY2(command);
    if s.y1 != newY1 || s.y2 != newY2 then
      UpdateDispArea(s.(y1 := newY1, y2 := newY2), linearFiltering)
    else
      s
  }

  /**
   Stores the low byte of a mode command and, only when it changed, re-derives
   the three cached flags and recomputes the geometry. Once the flags agree with
   the mode, they are bits 3, 4 and 5 of the last mode command.
   */
  function SetMode(s: State, command: Word, linearFiltering: bool): (t: State)
    ensures t.drawMode == ModeByte(command)
    ensures t.drawMode == s.drawMode ==> t == s
    ensures t.drawMode != s.drawMode ==>
      && FlagsAgree(t)
      && t.size == DisplayArea(t)
      && t.sizeNormalized == AdjustSize(t.size, linearFiltering)
      && t.(drawMode := s.drawMode, pal := s.pal, rgb24 := s.rgb24, interlace := s.interlace,
            size := s.size, sizeNormalized := s.sizeNormalized) == s
    ensures FlagsAgree(s) ==>
      && (t.pal <==> (command / 8) % 2 == 1)
      && (t.rgb24 <==> (command / 16) % 2 == 1)
      && (t.interlace <==> (command / 32) % 2 == 1)
  {
    var newMode := ModeByte(command);
    ModeFlagsFromCommand(command);
    if s.drawMode != newMode then
      var flagged := s.(drawMode := newMode, pal := IsPal(newMode), rgb24 := Is24Bit(newMode),
                        interlace := IsInterlaced(newMode));
      UpdateDispArea(flagged, linearFiltering)
    else
      s
  }

  /**
   The write a mode command makes to the video-standard setting: none unless
   automatic selection is on and the mode changed; then PAL exactly when bit 3
   of the command is set, NTSC otherwise.
   */
  function ModeVideoWrite(s: State, command: Word, autoVideo: bool): (w: Option<VideoStandard>)
    ensures w.Some? <==> autoVideo && s.drawMode != ModeByte(command)
    ensures w.Some? ==> (w.value == PAL <==> (command / 8) % 2 == 1)
  {
    var newMode := ModeByte(command);
    ModeFlagsFromCommand(command);
    if s.drawMode != newMode && autoVideo then
      Some(if IsPal(newMode) then PAL else NTSC)
    else
      None
  }

  /**
   Recomputes only the normalised rectangle, from the stored unedited origin and
   size, for the given smoothing setting.
   */
  function SetLinearFiltering(s: State, linearFiltering: bool): (t: State)
    ensures Coherent(t, linearFiltering)
    ensures t.(startNormalized := s.startNormalized, sizeNormalized := s.sizeNormalized) == s
  {
    s.(startNormalized := AdjustStart(s.start, linearFiltering),
       sizeNormalized := AdjustSize(s.size, linearFiltering))
  }

  /** The cold-boot registers, before the mode, origin and geometry are set from them. */
  function ResetRegisters(s: State): (r: State)
    ensures r.x1 == 0x200 && r.x2 == 0xc00 && r.y1 == 0x10 && r.y2 == 0x250 && !r.enabled
    ensures r.x2 - r.x1 == 256 * 10 && r.y2 - r.y1 == 576
    ensures r.(x1 := s.x1, x2 := s.x2, y1 := s.y1, y2 := s.y2, enabled := s.enabled) == s
  {
    s.(x1 := 0x200, x2 := 0x200 + 256 * 10, y1 := 0x10, y2 := 0x10 + 0x240, enabled := false)
  }

  /**
   Loads the cold-boot registers, then writes mode 0 and origin 0 and recomputes
   the geometry. Once the flags agree with the mode, the result is the canonical
   60 Hz, 256-dot-mode rectangle of 256 by 247. Because the origin write is
   change-gated, an origin already at (0, 0) keeps its normalised origin.
   */
  function Reset(s: State, linearFiltering: bool): (t: State)
    ensures t.x1 == 0x200 && t.x2 == 0xc00 && t.y1 == 0x10 && t.y2 == 0x250
    ensures !t.enabled && t.drawMode == 0 && t.start == Vec2(0, 0)
    ensures t.size == DisplayArea(t)
    ensures t.sizeNormalized == AdjustSize(t.size, linearFiltering)
    ensures t.startNormalized == if s.start == Vec2(0, 0) then s.startNormalized else AdjustStart(Vec2(0, 0), linearFiltering)
  {
    StartOfZero(0);
    var moded := SetMode(ResetRegisters(s), 0, linearFiltering);
    UpdateDispArea(SetDisplayStart(moded, 0, linearFiltering), linearFiltering)
  }

  /**
   From any state whose flags agree with its mode, a reset gives a consistent
   state in the 60 Hz, 15-bit, progressive, 256-dot mode with the canonical
   256 by 247 rectangle.
   */
  lemma ResetColdBoot(s: State, linearFiltering: bool)
    requires FlagsAgree(s)
    ensures var t := Reset(s, linearFiltering);
      && Consistent(t) && !t.pal && !t.rgb24 && !t.interlace
      && t.size == Vec2(256, 247)
  {
    var t := Reset(s, linearFiltering);
    assert FlagsAgree(t);
    ColdBootArea(t);
  }

  /**
   A reset refreshes the cached flags only through its mode-0 write: they are
   cleared when the mode was not already 0, and left as they were otherwise.
   */
  lemma ResetRefreshesFlags(s: State, linearFiltering: bool)
    ensures var t := Reset(s, linearFiltering);
      (t.pal, t.rgb24, t.interlace)
        == if s.drawMode == 0 then (s.pal, s.rgb24, s.interlace) else (false, false, false)
  {
  }

  /**
   A reset keeps both invariants, and from any state whose flags agree with its
   mode it reaches the consistent 256 by 247 cold-boot state.
   */
  lemma ResetKeepsInvariants(s: State, linearFiltering: bool)
    ensures FlagsAgree(s) ==> Consistent(Reset(s, linearFiltering)) && Reset(s, linearFiltering).size == Vec2(256, 247)
    ensures Consistent(s) ==> Consistent(Reset(s, linearFiltering))
    ensures Coherent(s, linearFiltering) ==> Coherent(Reset(s, linearFiltering), linearFiltering)
  {
    if FlagsAgree(s) {
      ResetColdBoot(s, linearFiltering);
    }
    if Coherent(s, linearFiltering) {
      ResetPreservesCoherent(s, linearFiltering);
    }
  }

  /** The cold-boot registers in mode 0 span 256 dots and 247 scanlines. */
  lemma ColdBootArea(t: State)
    requires t.x1 == 0x200 && t.x2 == 0xc00 && t.y1 == 0x10 && t.y2 == 0x250
    requires t.drawMode == 0 && !t.pal && !t.interlace
    ensures DisplayArea(t) == Vec2(256, 247)
  {
  }

  /** The video-standard write a reset makes: that of its mode-0 write. */
  function ResetVideoWrite(s: State, autoVideo: bool): (w: Option<VideoStandard>)
    ensures w == (if autoVideo && s.drawMode != 0 then Some(NTSC) else None)
  {
    ModeVideoWrite(ResetRegisters(s), 0, autoVideo)
  }

  /** Writing the same display-start command twice leaves the state of the first write. */
  lemma SetDisplayStartIdempotent(s: State, command: Word, linearFiltering: bool)
    ensures var t := SetDisplayStart(s, command, linearFiltering);
      SetDisplayStart(t, command, linearFiltering) == t
  {
  }

  /** Writing the same horizontal-range command twice leaves the state of the first write. */
  lemma SetHorizontalRangeIdempotent(s: State, command: Word, linearFiltering: bool)
    ensures var t := SetHorizontalRange(s, command, linearFiltering);
      SetHorizontalRange(t, command, linearFiltering) == t
  {
  }

  /** Writing the same vertical-range command twice leaves the state of the first write. */
  lemma SetVerticalRangeIdempotent(s: State, command: Word, linearFiltering: bool)
    ensures var t := SetVerticalRange(s, command, linearFiltering);
      SetVerticalRange(t, command, linearFiltering) == t
  {
  }

  /**
   Writing the same mode command twice leaves the state of the first write, and
   the second write makes no video-standard write.
   */
  lemma SetModeIdempotent(s: State, command: Word, linearFiltering: bool, autoVideo: bool)
    ensures var t := SetMode(s, command, linearFiltering);
      SetMode(t, command, linearFiltering) == t && ModeVideoWrite(t, command, autoVideo) == None
  {
  }

  /**
   Recomputing the geometry keeps the state consistent, and keeps the normalised
   rectangle coherent with an unchanged smoothing setting.
   */
  lemma UpdateDispAreaPreserves(s: State, linearFiltering: bool)
    ensures Consistent(s) ==> Consistent(UpdateDispArea(s, linearFiltering))
    ensures Coherent(s, linearFiltering) ==> Coherent(UpdateDispArea(s, linearFiltering), linearFiltering)
  {
  }

  /** A display-start write keeps the state consistent and coherent: the new origin is decodable. */
  lemma SetDisplayStartPreserves(s: State, command: Word, linearFiltering: bool)
    ensures Consistent(s) ==> Consistent(SetDisplayStart(s, command, linearFiltering))
    ensures Coherent(s, linearFiltering) ==> Coherent(SetDisplayStart(s, command, linearFiltering), linearFiltering)
  {
  }

  /** A horizontal-range write keeps the state consistent and coherent. */
  lemma SetHorizontalRangePreserves(s: State, command: Word, linearFiltering: bool)
    ensures Consistent(s) ==> Consistent(SetHorizontalRange(s, command, linearFiltering))
    ensures Coherent(s, linearFiltering) ==> Coherent(SetHorizontalRange(s, command, linearFiltering), linearFiltering)
  {
  }

  /** A vertical-range write keeps the state consistent and coherent. */
  lemma SetVerticalRangePreserves(s: State, command: Word, linearFiltering: bool)
    ensures Consistent(s) ==> Consistent(SetVerticalRange(s, command, linearFiltering))
    ensures Coherent(s, linearFiltering) ==> Coherent(SetVerticalRange(s, command, linearFiltering), linearFiltering)
  {
  }

  /** A mode write keeps the state consistent and coherent. */
  lemma SetModePreserves(s: State, command: Word, linearFiltering: bool)
    ensures Consistent(s) ==> Consistent(SetMode(s, command, linearFiltering))
    ensures Coherent(s, linearFiltering) ==> Coherent(SetMode(s, command, linearFiltering), linearFiltering)
  {
  }

  /** Re-normalising keeps the state consistent. */
  lemma SetLinearFilteringPreserves(s: State, linearFiltering: bool)
    requires Consistent(s)
    ensures Consistent(SetLinearFiltering(s, linearFiltering))
  {
  }

  /** A reset keeps the normalised rectangle coherent with an unchanged smoothing setting. */
  lemma ResetPreservesCoherent(s: State, linearFiltering: bool)
    requires Coherent(s, linearFiltering)
    ensures Coherent(Reset(s, linearFiltering), linearFiltering)
  {
  }

  /**
   On a consistent state, re-normalising for a smoothing setting gives the same
   normalised size as a full geometry recomputation with that setting, and the
   same normalised origin as a display-start write that moves the origin there.
   */
  lemma SetLinearFilteringMatchesRecomputation(s: State, linearFiltering: bool)
    requires Consistent(s)
    ensures SetLinearFiltering(s, linearFiltering).sizeNormalized == UpdateDispArea(s, linearFiltering).sizeNormalized
    ensures forall command: Word :: SetDisplayStart(s, command, linearFiltering).start != s.start ==>
      SetDisplayStart(s, command, linearFiltering).startNormalized
        == SetLinearFiltering(SetDisplayStart(s, command, linearFiltering), linearFiltering).startNormalized
  {
  }

  /**
   Turning smoothing on and then off again restores the unadjusted normalised
   rectangle: the numerators equal the unedited origin and size.
   */
  lemma FilteringToggleRestores(s: State)
    ensures var t := SetLinearFiltering(SetLinearFiltering(s, true), false);
      t.startNormalized == s.start && t.sizeNormalized == s.size
      && t.(startNormalized := s.startNormalized, sizeNormalized := s.sizeNormalized) == s
  {
  }

  /** One control write the display receives, or a change of the smoothing setting. */
  datatype Write =
    | DisplayStart(command: Word)
    | HorizontalRange(command: Word)
    | VerticalRange(command: Word)
    | Mode(command: Word)
    | Smoothing(on: bool)
    | ResetDisplay

  /** The state after one write, under the smoothing setting in force. */
  function Apply(s: State, w: Write, linearFiltering: bool): State {
    match w
    case DisplayStart(command) => SetDisplayStart(s, command, linearFiltering)
    case HorizontalRange(command) => SetHorizontalRange(s, command, linearFiltering)
    case VerticalRange(command) => SetVerticalRange(s, command, linearFiltering)
    case Mode(command) => SetMode(s, command, linearFiltering)
    case Smoothing(on) => SetLinearFiltering(s, on)
    case ResetDisplay => Reset(s, linearFiltering)
  }

  /** The smoothing setting in force after a write: only a smoothing change changes it. */
  function SettingAfter(w: Write, linearFiltering: bool): bool {
    if w.Smoothing? then w.on else linearFiltering
  }

  /** The state after a sequence of writes, applied in order. */
  function Replay(s: State, writes: seq<Write>, linearFiltering: bool): State
    decreases |writes|
  {
    if writes == [] then s
    else Replay(Apply(s, writes[0], linearFiltering), writes[1..], SettingAfter(writes[0], linearFiltering))
  }

  /** The smoothing setting in force after a sequence of writes. */
  function FinalSetting(writes: seq<Write>, linearFiltering: bool): bool
    decreases |writes|
  {
    if writes == [] then linearFiltering
    else FinalSetting(writes[1..], SettingAfter(writes[0], linearFiltering))
  }

  /** Every single write keeps both invariants, the second one for the setting in force after it. */
  lemma ApplyPreserves(s: State, w: Write, linearFiltering: bool)
    requires Consistent(s) && Coherent(s, linearFiltering)
    ensures Consistent(Apply(s, w, linearFiltering))
    ensures Coherent(Apply(s, w, linearFiltering), SettingAfter(w, linearFiltering))
  {
    match w
    case DisplayStart(command) => SetDisplayStartPreserves(s, command, linearFiltering);
    case HorizontalRange(command) => SetHorizontalRangePreserves(s, command, linearFiltering);
    case VerticalRange(command) => SetVerticalRangePreserves(s, command, linearFiltering);
    case Mode(command) => SetModePreserves(s, command, linearFiltering);
    case Smoothing(on) => SetLinearFilteringPreserves(s, on);
    case ResetDisplay =>
      ResetColdBoot(s, linearFiltering);
      ResetPreservesCoherent(s, linearFiltering);
  }

  /**
   Any sequence of writes from a consistent, coherent state ends in a consistent
   state whose normalised rectangle is coherent with the final smoothing setting.
   */
  lemma {:induction false} ReplayPreserves(s: State, writes: seq<Write>, linearFiltering: bool)
    requires Consistent(s) && Coherent(s, linearFiltering)
    ensures Consistent(Replay(s, writes, linearFiltering))
    ensures Coherent(Replay(s, writes, linearFiltering), FinalSetting(writes, linearFiltering))
    decreases |writes|
  {
    if writes != [] {
      ApplyPreserves(s, writes[0], linearFiltering);
      ReplayPreserves(Apply(s, writes[0], linearFiltering), writes[1..], SettingAfter(writes[0], linearFiltering));
    }
  }

  /**
   Every state the zero-initialised display reaches, with smoothing initially off,
   is consistent and coherent with the smoothing setting then in force.
   */
  lemma {:induction false} ReachableFromPowerOn(s: State, writes: seq<Write>)
    requires IsZero(s)
    ensures Consistent(Replay(s, writes, false))
    ensures Coherent(Replay(s, writes, false), FinalSetting(writes, false))
  {
    ZeroIsConsistent(s);
    UnadjustedIsCoherent(s);
    ReplayPreserves(s, writes, false);
  }

  /** With smoothing off, the normalised rectangle is the unedited one. */
  lemma UnadjustedIsCoherent(s: State)
    requires s.startNormalized == s.start && s.sizeNormalized == s.size
    ensures Coherent(s, false)
  {
  }

  /**
   Writes compose: replaying one sequence and then another is replaying their
   concatenation, with the smoothing setting carried across.
   */
  lemma {:induction false} ReplayAppend(s: State, first: seq<Write>, second: seq<Write>, linearFiltering: bool)
    ensures Replay(s, first + second, linearFiltering)
      == Replay(Replay(s, first, linearFiltering), second, FinalSetting(first, linearFiltering))
    ensures FinalSetting(first + second, linearFiltering)
      == FinalSetting(second, FinalSetting(first, linearFiltering))
    decreases |first|
  {
    if first == [] {
      assert first + second == second;
    } else {
      assert (first + second)[0] == first[0];
      assert (first + second)[1..] == first[1..] + second;
      ReplayAppend(Apply(s, first[0], linearFiltering), first[1..], second, SettingAfter(first[0], linearFiltering));
    }
  }

  /**
   The smoothing setting after a sequence of writes is the one the last smoothing
   change selected, or the initial one when the sequence changes nothing.
   */
  lemma {:induction false} FinalSettingIsLastChange(writes: seq<Write>, linearFiltering: bool)
    ensures (forall i | 0 <= i < |writes| :: !writes[i].Smoothing?) ==> FinalSetting(writes, linearFiltering) == linearFiltering
    ensures forall i | 0 <= i < |writes| && writes[i].Smoothing? && (forall j | i < j < |writes| :: !writes[j].Smoothing?) ::
      FinalSetting(writes, linearFiltering) == writes[i].on
    decreases |writes|
  {
    if writes != [] {
      var rest := writes[1..];
      var setting := SettingAfter(writes[0], linearFiltering);
      FinalSettingIsLastChange(rest, setting);
      assert forall k | 0 <= k < |rest| :: rest[k] == writes[k + 1];
      forall i | 0 <= i < |writes| && writes[i].Smoothing? && (forall j | i < j < |writes| :: !writes[j].Smoothing?)
        ensures FinalSetting(writes, linearFiltering) == writes[i].on
      {
        if i > 0 {
          assert rest[i - 1] == writes[i];
        }
      }
    }
  }

  /**
   With smoothing on, a reset of the zero-initialised display leaves its normalised
   origin at (0, 0): the origin write of the reset is skipped because the origin is
   already (0, 0), so the normalised origin is not coherent with the setting.
   */
  lemma PowerOnSmoothingStale(s: State)
    requires IsZero(s)
    ensures Reset(s, true).startNormalized == Vec2(0, 0)
    ensures !Coherent(Reset(s, true), true)
  {
  }
}
