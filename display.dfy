/**
 The display-control block of the emulated GPU as an object whose operations
 update its fields in place, step by step as the emulator does. Every method
 is proved to leave the object in exactly the state that the matching function
 of module Transitions gives for the state before the call, so what is proved
 about those functions holds of the object.
 */
module Display {
  import opened Registers
  import opened Geometry
  import opened Transitions

  class Display {
    var x1: U12
    var x2: U12
    var y1: U10
    var y2: U10
    var drawMode: Byte
    var pal: bool
    var rgb24: bool
    var interlace: bool
    var enabled: bool
    var start: Vec2
    var size: Vec2
    var startNormalized: Vec2
    var sizeNormalized: Vec2

    /** The object's fields as a value. */
    function Snapshot(): State
      reads this
    {
      State(x1, x2, y1, y2, drawMode, pal, rgb24, interlace, enabled,
            start, size, startNormalized, sizeNormalized)
    }

    /** The cached flags, the origin and the size agree with the registers. */
    ghost predicate Valid()
      reads this
    {
      Consistent(Snapshot())
    }

    /** Every field starts at zero; that state is already consistent. */
    constructor ()
      ensures IsZero(Snapshot())
      ensures Valid()
    {
      x1, x2, y1, y2 := 0, 0, 0, 0;
      drawMode := 0;
      pal, rgb24, interlace, enabled := false, false, false, false;
      start, size := Vec2(0, 0), Vec2(0, 0);
      startNormalized, sizeNormalized := Vec2(0, 0), Vec2(0, 0);
      new;
      assert IsZero(Snapshot());
      ZeroIsConsistent(Snapshot());
    }

    /** Recomputes the unedited size from the registers, and the normalised size from it. */
    method UpdateDispArea(linearFiltering: bool)
      modifies this
      ensures Snapshot() == Transitions.UpdateDispArea(old(Snapshot()), linearFiltering)
      ensures old(Valid()) ==> Valid()
      ensures old(Coherent(Snapshot(), linearFiltering)) ==> Coherent(Snapshot(), linearFiltering)
    {
      UpdateDispAreaPreserves(Snapshot(), linearFiltering);
      var divider := Divider(drawMode);
      var cyclesPerScanline := CyclesPerScanline(pal);
      var totalScanlines := TotalScanlines(pal);

      var horRangeStart := RoundDown(Min(x1, cyclesPerScanline), divider);
      var horRangeEnd := RoundDown(Min(x2, cyclesPerScanline), divider);

      var vertRangeStart := Min(y1, totalScanlines);
      var vertRangeEnd := Min(y2, totalScanlines);
      var height := Min(totalScanlines, vertRangeEnd - vertRangeStart);
      if interlace {
        height := height * 2;
      }

      var horizontalCycles := Span(horRangeStart, horRangeEnd);
      var width: int := AlignDown4(Quotient(horizontalCycles, divider) + 2);
      assert width == Width(drawMode, pal, x1, x2);
      assert height == Height(pal, interlace, y1, y2);

      size := Vec2(width, height);
      if linearFiltering {
        width := width - 2;
        height := height - 2;
      }
      sizeNormalized := Vec2(width, height);
    }

    /** Stores the origin of a display-start command, refreshing the normalised origin on change. */
    method SetDisplayStart(command: Word, linearFiltering: bool)
      modifies this
      ensures Snapshot() == Transitions.SetDisplayStart(old(Snapshot()), command, linearFiltering)
      ensures old(Valid()) ==> Valid()
      ensures old(Coherent(Snapshot(), linearFiltering)) ==> Coherent(Snapshot(), linearFiltering)
    {
      SetDisplayStartPreserves(Snapshot(), command, linearFiltering);
      var startX, startY := StartX(command), StartY(command);
      if startX != start.x || startY != start.y {
        start := Vec2(startX, startY);
        if linearFiltering {
          startX, startY := startX + 1, startY + 1;
        }
        startNormalized := Vec2(startX, startY);
      }
    }

    /** Stores the horizontal range of a command, recomputing the geometry on change. */
    method SetHorizontalRange(command: Word, linearFiltering: bool)
      modifies this
      ensures Snapshot() == Transitions.SetHorizontalRange(old(Snapshot()), command, linearFiltering)
      ensures old(Valid()) ==> Valid()
      ensures old(Coherent(Snapshot(), linearFiltering)) ==> Coherent(Snapshot(), linearFiltering)
    {
      SetHorizontalRangePreserves(Snapshot(), command, linearFiltering);
      var newX1, newX2 := RangeX1(command), RangeX2(command);
      if x1 != newX1 || x2 != newX2 {
        x1, x2 := newX1, newX2;
        ghost var ranged := Snapshot();
        assert ranged == old(Snapshot()).(x1 := newX1, x2 := newX2);
        UpdateDispArea(linearFiltering);
        assert Snapshot() == Transitions.UpdateDispArea(ranged, linearFiltering);
      }
    }

    /** Stores the vertical range of a command, recomputing the geometry on change. */
    method SetVerticalRange(command: Word, linearFiltering: bool)
      modifies this
      ensures Snapshot() == Transitions.SetVerticalRange(old(Snapshot()), command, linearFiltering)
      ensures old(Valid()) ==> Valid()
      ensures old(Coherent(Snapshot(), linearFiltering)) ==> Coherent(Snapshot(), linearFiltering)
    {
      SetVerticalRangePreserves(Snapshot(), command, linearFiltering);
      var newY1, newY2 := RangeY1(command), RangeY2(command);
      if y1 != newY1 || y2 != newY2 {
        y1, y2 := newY1, newY2;
        ghost var ranged := Snapshot();
        assert ranged == old(Snapshot()).(y1 := newY1, y2 := newY2);
        UpdateDispArea(linearFiltering);
        assert Snapshot() == Transitions.UpdateDispArea(ranged, linearFiltering);
      }
    }

    /**
     Stores the mode byte of a command; on change, re-derives the flags, reports the
     video standard to select when automatic selection is on, and recomputes the geometry.
     */
    method SetMode(command: Word, autoVideo: bool, linearFiltering: bool) returns (video: Option<VideoStandard>)
      modifies this
      ensures Snapshot() == Transitions.SetMode(old(Snapshot()), command, linearFiltering)
      ensures video == ModeVideoWrite(old(Snapshot()), command, autoVideo)
      ensures old(Valid()) ==> Valid()
      ensures old(Coherent(Snapshot(), linearFiltering)) ==> Coherent(Snapshot(), linearFiltering)
    {
      var newMode := ModeByte(command);
      video := None;
      if drawMode != newMode {
        drawMode := newMode;
        pal := IsPal(newMode);
        rgb24 := Is24Bit(newMode);
        interlace := IsInterlaced(newMode);
        if autoVideo {
          video := Some(if pal then PAL else NTSC);
        }
        ghost var flagged := Snapshot();
        assert flagged == old(Snapshot()).(drawMode := newMode, pal := IsPal(newMode),
                                           rgb24 := Is24Bit(newMode), interlace := IsInterlaced(newMode));
        UpdateDispArea(linearFiltering);
        assert Snapshot() == Transitions.UpdateDispArea(flagged, linearFiltering);
      }
      SetModePreserves(old(Snapshot()), command, linearFiltering);
    }

    /** Re-normalises the stored origin and size for the given smoothing setting. */
    method SetLinearFiltering(linearFiltering: bool)
      modifies this
      ensures Snapshot() == Transitions.SetLinearFiltering(old(Snapshot()), linearFiltering)
      ensures old(Valid()) ==> Valid()
      ensures Coherent(Snapshot(), linearFiltering)
    {
      if Valid() {
        SetLinearFilteringPreserves(Snapshot(), linearFiltering);
      }
      var width := size.x - if linearFiltering then 2 else 0;
      var height := size.y - if linearFiltering then 2 else 0;
      var startX := start.x + if linearFiltering then 1 else 0;
      var startY := start.y + if linearFiltering then 1 else 0;
      sizeNormalized := Vec2(width, height);
      startNormalized := Vec2(startX, startY);
    }

    /**
     Loads the cold-boot registers, then writes mode 0 and origin 0 and recomputes the
     geometry; reports the video standard the mode write selects.
     */
    method Reset(autoVideo: bool, linearFiltering: bool) returns (video: Option<VideoStandard>)
      modifies this
      ensures Snapshot() == Transitions.Reset(old(Snapshot()), linearFiltering)
      ensures video == ResetVideoWrite(old(Snapshot()), autoVideo)
      ensures old(FlagsAgree(Snapshot())) ==> Valid() && size == Vec2(256, 247)
      ensures old(Valid()) ==> Valid()
      ensures old(Coherent(Snapshot(), linearFiltering)) ==> Coherent(Snapshot(), linearFiltering)
    {
      ghost var before := Snapshot();
      x1 := 0x200;
      x2 := 0x200 + 256 * 10;
      y1 := 0x10;
      y2 := 0x10 + 0x240;
      enabled := false;
      ghost var registers := Snapshot();
      assert registers == ResetRegisters(before);
      video := SetMode(0, autoVideo, linearFiltering);
      ghost var moded := Snapshot();
      SetDisplayStart(0, linearFiltering);
      ghost var started := Snapshot();
      UpdateDispArea(linearFiltering);
      assert Snapshot() == Transitions.UpdateDispArea(started, linearFiltering);
      assert started == Transitions.SetDisplayStart(moded, 0, linearFiltering);
      assert moded == Transitions.SetMode(registers, 0, linearFiltering);
      ResetKeepsInvariants(before, linearFiltering);
    }
  }
}
