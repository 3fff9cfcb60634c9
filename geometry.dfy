/**
 * Pixel geometry of the FlashArray images: the flash-module slot tables of
 * a chassis (also used for NVMe shelves) and of a SAS shelf, and the box a
 * datapack capacity label is drawn in.
 */
module Geometry {
  import opened Wrappers

  datatype Point = Point(x: int, y: int)
  datatype Size = Size(w: nat, h: nat)

  function Min(a: int, b: int): int { if a <= b then a else b }

  // ---- chassis flash-module slots -----------------------------------------

  /** Slot 0, 4, 8 and 12 start a run of modules 105 px apart; the last run holds slots 12..19. */
  function RunStart(run: nat): int
    requires run < 4
  {
    [165, 714, 1265, 1817][run]
  }

  /** Where slot `i` of an FA//X chassis sits, before the //M adjustment. */
  function XChassisFmLoc(i: nat): Point
    requires i < 28
  {
    if i < 20 then
      var run := if i < 12 then i / 4 else 3;
      Point(RunStart(run) + 105 * (i - 4 * run), 250)
    else
      Point(164 + 550 * ((i - 20) / 2), if i % 2 == 0 then 27 else 132)
  }

  /** Where slot `i` of a chassis of generation `model` sits: every slot moves by (-9, -7) off FA//X. */
  function ChassisFmLoc(model: string, i: nat): Point
    requires i < 28
  {
    var p := XChassisFmLoc(i);
    if model != "x" then Point(p.x - 9, p.y - 7) else p
  }

  /** The entries `get_chassis_fm_loc` writes before its loops run; the other slots stay None. */
  function ChassisSeed(i: nat): Option<Point>
  {
    if i == 0 || i == 4 || i == 8 || i == 12 || i == 20 then Some(XChassisFmLoc(i)) else None
  }

  /** Each slot the seed leaves empty is its predecessor moved 105 px right (slots 1..19) or one row step on. */
  lemma XChassisStep(i: nat)
    requires 0 < i < 28 && ChassisSeed(i).None?
    ensures var p := XChassisFmLoc(i - 1);
      XChassisFmLoc(i) == if i < 20 then Point(p.x + 105, p.y)
                          else if i % 2 == 0 then Point(p.x + 550, p.y - 105)
                          else Point(p.x, p.y + 105)
  {
    if i < 20 {
      if i < 12 {
        assert (i - 1) / 4 == i / 4;
      }
    } else if i % 2 == 0 {
      assert (i - 20) / 2 == (i - 21) / 2 + 1;
    } else {
      assert (i - 20) / 2 == (i - 21) / 2;
    }
  }

  /**
   * `get_chassis_fm_loc(model)`: the 28 slot positions of a chassis, filled
   * in place in a 28-entry list. The first 20 follow the runs of 105 px, the
   * last 8 alternate between the rows y = 27 and y = 132 every 550 px.
   */
  method GetChassisFmLoc(model: string) returns (locs: seq<Option<Point>>)
    ensures |locs| == 28
    ensures forall i :: 0 <= i < 28 ==> locs[i] == Some(ChassisFmLoc(model, i))
  {
    var loc := new Option<Point>[28](i => ChassisSeed(i));
    var xOffset := 105;
    for x := 0 to 20
      invariant forall i :: 0 <= i < x ==> loc[i] == Some(XChassisFmLoc(i))
      invariant forall i :: x <= i < 28 ==> loc[i] == ChassisSeed(i)
    {
      if loc[x].None? {
        var prev := loc[x - 1].value;
        XChassisStep(x);
        loc[x] := Some(Point(prev.x + xOffset, prev.y));
      }
    }
    var yOffset := xOffset;
    xOffset := 550;
    for x := 20 to 28
      invariant forall i :: 0 <= i < x ==> loc[i] == Some(XChassisFmLoc(i))
      invariant forall i :: x <= i < 28 ==> loc[i] == ChassisSeed(i)
    {
      if loc[x].None? {
        var prev := loc[x - 1].value;
        XChassisStep(x);
        if x % 2 == 0 {
          loc[x] := Some(Point(prev.x + xOffset, prev.y - yOffset));
        } else {
          loc[x] := Some(Point(prev.x, prev.y + yOffset));
        }
      }
    }
    if model != "x" {
      for x := 0 to 28
        invariant forall i :: 0 <= i < x ==> loc[i] == Some(ChassisFmLoc(model, i))
        invariant forall i :: x <= i < 28 ==> loc[i] == Some(XChassisFmLoc(i))
      {
        loc[x] := Some(Point(loc[x].value.x - 9, loc[x].value.y - 7));
      }
    }
    locs := loc[..];
  }

  // ---- SAS shelf flash-module slots ---------------------------------------

  /** Where slot `i` of a SAS shelf sits: two rows of twelve, 105 px apart, on the line y = 1. */
  function SasFmLoc(i: nat): Point
    requires i < 24
  {
    if i < 12 then Point(138 + 105 * i, 1) else Point(1450 + 105 * (i - 12), 1)
  }

  function SasSeed(i: nat): Option<Point>
  {
    if i == 0 || i == 12 then Some(SasFmLoc(i)) else None
  }

  /** `get_sas_fm_loc()`: the 24 slot positions of a SAS shelf, filled in place. */
  method GetSasFmLoc() returns (locs: seq<Option<Point>>)
    ensures |locs| == 24
    ensures forall i :: 0 <= i < 24 ==> locs[i] == Some(SasFmLoc(i))
  {
    var loc := new Option<Point>[24](i => SasSeed(i));
    var xOffset := 105;
    for x := 0 to 24
      invariant forall i :: 0 <= i < x ==> loc[i] == Some(SasFmLoc(i))
      invariant forall i :: x <= i < 24 ==> loc[i] == SasSeed(i)
    {
      if loc[x].None? {
        var prev := loc[x - 1].value;
        loc[x] := Some(Point(prev.x + xOffset, prev.y));
      }
    }
    locs := loc[..];
  }

  /** The chassis table read as its rows and columns: four runs of 105 px on one row, then two alternating rows 550 px apart. */
  lemma ChassisFmRows(model: string, i: nat)
    requires i < 28
    ensures var d := if model != "x" then 1 else 0;
      && (i < 20 ==> ChassisFmLoc(model, i).y == 250 - 7 * d)
      && (20 <= i && i % 2 == 0 ==> ChassisFmLoc(model, i).y == 27 - 7 * d)
      && (20 <= i && i % 2 == 1 ==> ChassisFmLoc(model, i).y == 132 - 7 * d)
      && (0 < i < 20 && i % 4 != 0 ==> ChassisFmLoc(model, i).x == ChassisFmLoc(model, i - 1).x + 105)
      && (12 < i < 20 ==> ChassisFmLoc(model, i).x == ChassisFmLoc(model, i - 1).x + 105)
      && (20 <= i ==> ChassisFmLoc(model, i).x == 164 + 550 * ((i - 20) / 2) - 9 * d)
      && (i == 0 ==> ChassisFmLoc(model, i).x == 165 - 9 * d)
      && (i == 4 ==> ChassisFmLoc(model, i).x == 714 - 9 * d)
      && (i == 8 ==> ChassisFmLoc(model, i).x == 1265 - 9 * d)
      && (i == 12 ==> ChassisFmLoc(model, i).x == 1817 - 9 * d)
  {
  }

  // ---- datapack label box -------------------------------------------------

  /** The rectangle a capacity label fills and the point its text is centred on. */
  datatype DpBox = DpBox(topLeft: Point, bottomRight: Point, center: Point)

  /**
   * The integer geometry of `apply_dp_label` on an image of `size`: a box
   * 75 px in from the left edge (after `xOffset`) or 75 px right of the
   * vertical midline, 60 px down from `yOffset`, ending 60 px above the
   * bottom edge. Python's `//` by 2 agrees with Dafny's `/` by 2.
   */
  function DpLabelBox(size: Size, xOffset: int, yOffset: int, right: bool): DpBox
  {
    var xBuffer := 75;
    var yBuffer := 60;
    var loc := if right then Point(size.w / 2 + xBuffer, yOffset + yBuffer)
               else Point(xOffset + xBuffer, yOffset + yBuffer);
    var boxW := size.w / 2 - 2 * xBuffer - xOffset;
    var boxH := size.h - 2 * yBuffer - yOffset;
    var loc2 := Point(loc.x + boxW, loc.y + boxH);
    DpBox(loc, loc2, Point((loc.x + loc2.x) / 2, (loc.y + loc2.y) / 2))
  }

  /** Where the box lies: its edges in terms of the image size and the offsets, and its centre at the floor of the midpoint. */
  lemma DpLabelBoxBounds(size: Size, xOffset: int, yOffset: int, right: bool)
    ensures var b := DpLabelBox(size, xOffset, yOffset, right);
      && b.topLeft.y == yOffset + 60 && b.bottomRight.y == size.h - 60
      && (!right ==> b.topLeft.x == xOffset + 75 && b.bottomRight.x == size.w / 2 - 75)
      && (right ==> b.topLeft.x == size.w / 2 + 75 && b.bottomRight.x == 2 * (size.w / 2) - 75 - xOffset)
      && 2 * b.center.x <= b.topLeft.x + b.bottomRight.x <= 2 * b.center.x + 1
      && 2 * b.center.y <= b.topLeft.y + b.bottomRight.y <= 2 * b.center.y + 1
  {
  }

  /** A left and a right label drawn with the same offsets are the same box moved across the midline. */
  lemma DpBoxesMirror(size: Size, xOffset: int, yOffset: int)
    ensures var l := DpLabelBox(size, xOffset, yOffset, false);
            var r := DpLabelBox(size, xOffset, yOffset, true);
      && r.bottomRight.x - r.topLeft.x == l.bottomRight.x - l.topLeft.x
      && r.topLeft.y == l.topLeft.y && r.bottomRight.y == l.bottomRight.y
      && r.topLeft.x - l.bottomRight.x == 150
  {
  }
}
