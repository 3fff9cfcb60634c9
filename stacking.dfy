/**
 * `combine_images_vertically`: the images of a diagram stacked top to
 * bottom on a new canvas as wide as the widest of them and as tall as all
 * of them together, each centred across the canvas.
 */
module Stacking {
  import opened Wrappers
  import opened Geometry
  import opened Images

  /** One image pasted onto the canvas, with its top-left corner. */
  datatype Placement = Placement(image: Section, at: Point)

  /** The canvas `combine_images_vertically` returns and what it pasted, in order. */
  datatype Canvas = Canvas(size: Size, pastes: seq<Placement>)

  function Max(a: nat, b: nat): nat { if a >= b then a else b }

  /** `max(widths)`, 0 for no images. */
  function MaxWidth(images: seq<Section>): nat
  {
    if images == [] then 0 else Max(MaxWidth(images[..|images| - 1]), images[|images| - 1].size.w)
  }

  /** `sum(heights)` */
  function TotalHeight(images: seq<Section>): nat
  {
    if images == [] then 0 else TotalHeight(images[..|images| - 1]) + images[|images| - 1].size.h
  }

  /**
   * Where image `i` goes: centred, `(W - w) / 2` from the left (the
   * difference is never negative, so Python's truncation of the float
   * quotient is this floor), and below the images before it.
   */
  function PlacementAt(images: seq<Section>, i: nat): Placement
    requires i < |images|
  {
    Placement(images[i], Point((MaxWidth(images) - images[i].size.w) / 2, TotalHeight(images[..i])))
  }

  /** The outcome of `combine_images_vertically(images)`; unpacking the sizes of no images raises. */
  function Stack(images: seq<Section>): Result<Canvas>
  {
    if images == [] then Err(NoImages)
    else Ok(Canvas(Size(MaxWidth(images), TotalHeight(images)),
                   seq(|images|, i requires 0 <= i < |images| => PlacementAt(images, i))))
  }

  /** `all_images.reverse()` */
  function Reversed<T>(s: seq<T>): (r: seq<T>)
    ensures |r| == |s|
    ensures forall i :: 0 <= i < |s| ==> r[i] == s[|s| - 1 - i]
  {
    if s == [] then [] else [s[|s| - 1]] + Reversed(s[..|s| - 1])
  }

  /** The stacking order of a diagram: bottom-up requests list the images the other way round. */
  function Oriented<T>(direction: string, s: seq<T>): seq<T>
  {
    if direction == "up" then Reversed(s) else s
  }

  // ---- what the totals mean -----------------------------------------------------

  /** The canvas is as wide as the widest image: no image is wider, and one is exactly as wide. */
  lemma {:induction false} MaxWidthIsMax(images: seq<Section>)
    ensures forall i :: 0 <= i < |images| ==> images[i].size.w <= MaxWidth(images)
    ensures images != [] ==> exists i :: 0 <= i < |images| && images[i].size.w == MaxWidth(images)
    decreases |images|
  {
    if images != [] {
      var init := images[..|images| - 1];
      MaxWidthIsMax(init);
      assert forall i :: 0 <= i < |init| ==> images[i] == init[i];
      if MaxWidth(init) < images[|images| - 1].size.w || init == [] {
        assert images[|images| - 1].size.w == MaxWidth(images);
      } else {
        var i :| 0 <= i < |init| && init[i].size.w == MaxWidth(init);
        assert images[i].size.w == MaxWidth(images);
      }
    }
  }

  lemma {:induction false} TotalHeightAppend(a: seq<Section>, b: seq<Section>)
    ensures TotalHeight(a + b) == TotalHeight(a) + TotalHeight(b)
    decreases |b|
  {
    if b != [] {
      var b' := b[..|b| - 1];
      assert (a + b)[..|a + b| - 1] == a + b';
      TotalHeightAppend(a, b');
    } else {
      assert a + b == a;
    }
  }

  lemma {:induction false} MaxWidthAppend(a: seq<Section>, b: seq<Section>)
    ensures MaxWidth(a + b) == Max(MaxWidth(a), MaxWidth(b))
    decreases |b|
  {
    if b != [] {
      var b' := b[..|b| - 1];
      assert (a + b)[..|a + b| - 1] == a + b';
      MaxWidthAppend(a, b');
    } else {
      assert a + b == a;
    }
  }

  lemma OneImage(x: Section)
    ensures TotalHeight([x]) == x.size.h && MaxWidth([x]) == x.size.w
  {
    assert [x][..0] == [];
  }

  /** Reversing the images changes neither the width nor the height of the canvas. */
  lemma {:induction false} ReversedTotals(images: seq<Section>)
    ensures TotalHeight(Reversed(images)) == TotalHeight(images)
    ensures MaxWidth(Reversed(images)) == MaxWidth(images)
    decreases |images|
  {
    if images != [] {
      var init := images[..|images| - 1];
      var last := images[|images| - 1];
      ReversedTotals(init);
      OneImage(last);
      TotalHeightAppend([last], Reversed(init));
      MaxWidthAppend([last], Reversed(init));
    }
  }

  // ---- the layout ---------------------------------------------------------------

  /** Every image is pasted once, in its turn, and lies inside the canvas, centred to within a pixel. */
  lemma StackCentred(images: seq<Section>)
    requires images != []
    ensures var c := Stack(images).value;
      && |c.pastes| == |images|
      && (forall i :: 0 <= i < |images| ==> c.pastes[i].image == images[i])
      && (forall i :: 0 <= i < |images| ==>
            var x := c.pastes[i].at.x;
            0 <= x && 2 * x <= c.size.w - images[i].size.w <= 2 * x + 1)
  {
    MaxWidthIsMax(images);
  }

  /**
   * The rows of the stack: the first image at the top edge, each next one
   * directly below the one before, the last one ending at the bottom edge.
   */
  lemma StackRows(images: seq<Section>)
    requires images != []
    ensures var c := Stack(images).value;
      && c.pastes[0].at.y == 0
      && (forall i :: 0 < i < |images| ==> c.pastes[i].at.y == c.pastes[i - 1].at.y + images[i - 1].size.h)
      && c.pastes[|images| - 1].at.y + images[|images| - 1].size.h == c.size.h
  {
    var c := Stack(images).value;
    assert images[..0] == [];
    forall i | 0 < i < |images|
      ensures c.pastes[i].at.y == c.pastes[i - 1].at.y + images[i - 1].size.h
    {
      assert images[..i][..i - 1] == images[..i - 1];
    }
    assert images[..|images|] == images;
  }

  /** The canvas of a bottom-up stack has the size of the top-down one. */
  lemma StackReversed(images: seq<Section>)
    requires images != []
    ensures Stack(Reversed(images)).value.size == Stack(images).value.size
  {
    ReversedTotals(images);
  }

  /** The rows of an oriented stack: in order top-down, in reverse bottom-up, on a canvas of the same size. */
  lemma OrientedRows(direction: string, images: seq<Section>)
    requires images != []
    ensures var c := Stack(Oriented(direction, images)).value;
      && |c.pastes| == |images|
      && (direction != "up" ==> forall k :: 0 <= k < |images| ==> c.pastes[k].image == images[k])
      && (direction == "up" ==> forall k :: 0 <= k < |images| ==> c.pastes[|images| - 1 - k].image == images[k])
      && c.size == Stack(images).value.size
  {
    StackCentred(Oriented(direction, images));
    if direction == "up" {
      StackReversed(images);
    }
  }

  /** Three sections 100, 200 and 150 px tall, stacked bottom-up: a 450 px canvas with the last section on top. */
  lemma StackThreeUp(a: Section, b: Section, c: Section)
    requires a.size.h == 100 && b.size.h == 200 && c.size.h == 150
    ensures var s := Stack(Oriented("up", [a, b, c])).value;
      && s.size.h == 450
      && |s.pastes| == 3
      && s.pastes[0].image == c && s.pastes[1].image == b && s.pastes[2].image == a
      && s.pastes[0].at.y == 0 && s.pastes[1].at.y == 150 && s.pastes[2].at.y == 350
  {
    var images := [a, b, c];
    OrientedRows("up", images);
    StackRows(Oriented("up", images));
    ReversedTotals(images);
    assert images[..2][..1] == [a] && images[..1][..0] == [];
  }

  // ---- the loop ------------------------------------------------------------------

  /**
   * `combine_images_vertically(images)`: the sizes are totalled, then a
   * loop pastes each image centred, carrying the `y_offset` reached so far.
   */
  method CombineImagesVertically(images: seq<Section>) returns (r: Result<Canvas>)
    ensures r == Stack(images)
  {
    if images == [] {
      return Err(NoImages);
    }
    var totalHeight := TotalHeight(images);
    var totalWidth := MaxWidth(images);
    MaxWidthIsMax(images);
    var pastes: seq<Placement> := [];
    var yOffset := 0;
    for i := 0 to |images|
      invariant |pastes| == i
      invariant yOffset == TotalHeight(images[..i])
      invariant forall k :: 0 <= k < i ==> pastes[k] == PlacementAt(images, k)
    {
      var xOffset := (totalWidth - images[i].size.w) / 2;
      pastes := pastes + [Placement(images[i], Point(xOffset, yOffset))];
      assert images[..i + 1][..i] == images[..i];
      yOffset := yOffset + images[i].size.h;
    }
    assert pastes == seq(|images|, i requires 0 <= i < |images| => PlacementAt(images, i));
    return Ok(Canvas(Size(totalWidth, totalHeight), pastes));
  }

  /** `list.reverse()`: the list turned round in place, swapping from both ends. */
  method ReverseInPlace<T>(a: array<T>)
    modifies a
    ensures a[..] == Reversed(old(a[..]))
  {
    var i, j := 0, a.Length - 1;
    while i < j
      invariant 0 <= i && j == a.Length - 1 - i && i <= a.Length - i
      invariant forall k :: 0 <= k < i ==> a[k] == old(a[a.Length - 1 - k]) && a[a.Length - 1 - k] == old(a[k])
      invariant forall k :: i <= k <= j ==> a[k] == old(a[k])
    {
      a[i], a[j] := a[j], a[i];
      i, j := i + 1, j - 1;
    }
  }

  /** The `if direction == "up": all_images.reverse()` step, on the list of images gathered. */
  method Orient(direction: string, images: seq<Section>) returns (r: seq<Section>)
    ensures r == Oriented(direction, images)
  {
    r := images;
    if direction == "up" {
      var all := new Section[|images|](k requires 0 <= k < |images| => images[k]);
      assert all[..] == images;
      ReverseInPlace(all);
      r := all[..];
    }
  }
}
