/** Colour classification of derived points by strength. */
module Coloring {
  import opened Points

  const White: Rgb := Rgb(0xff, 0xff, 0xff)

  /** The thirteen named colours; entry `k - 1` is the colour of strengths in
      `[5k, 5k + 5)`. */
  const Palette: seq<Rgb> := [
    Rgb(0x40, 0xe8, 0xe3), Rgb(0x26, 0xa4, 0xfa), Rgb(0x00, 0x30, 0xed), Rgb(0x49, 0xfb, 0x3e),
    Rgb(0x36, 0xc2, 0x2e), Rgb(0x27, 0x8c, 0x1e), Rgb(0xfe, 0xf5, 0x43), Rgb(0xeb, 0xb4, 0x33),
    Rgb(0xf6, 0x95, 0x2e), Rgb(0xf8, 0x0a, 0x26), Rgb(0xcb, 0x05, 0x16), Rgb(0xa9, 0x08, 0x13),
    Rgb(0xee, 0x34, 0xfa)
  ]

  /** The classification chain of `color_points` for one strength. */
  function ColorFor(strength: real): (c: Rgb)
    ensures c == Black || c == White || c in Palette
    ensures c == Black <==> strength < 5.0 || strength == BelowThreshold
    ensures c == White <==> strength >= 70.0 && strength != BelowThreshold
  {
    if strength < 5.0 || strength == BelowThreshold then Black
    else if strength >= 5.0 && strength < 10.0 then Rgb(0x40, 0xe8, 0xe3)
    else if strength >= 10.0 && strength < 15.0 then Rgb(0x26, 0xa4, 0xfa)
    else if strength >= 15.0 && strength < 20.0 then Rgb(0x00, 0x30, 0xed)
    else if strength >= 20.0 && strength < 25.0 then Rgb(0x49, 0xfb, 0x3e)
    else if strength >= 25.0 && strength < 30.0 then Rgb(0x36, 0xc2, 0x2e)
    else if strength >= 30.0 && strength < 35.0 then Rgb(0x27, 0x8c, 0x1e)
    else if strength >= 35.0 && strength < 40.0 then Rgb(0xfe, 0xf5, 0x43)
    else if strength >= 40.0 && strength < 45.0 then Rgb(0xeb, 0xb4, 0x33)
    else if strength >= 45.0 && strength < 50.0 then Rgb(0xf6, 0x95, 0x2e)
    else if strength >= 50.0 && strength < 55.0 then Rgb(0xf8, 0x0a, 0x26)
    else if strength >= 55.0 && strength < 60.0 then Rgb(0xcb, 0x05, 0x16)
    else if strength >= 60.0 && strength < 65.0 then Rgb(0xa9, 0x08, 0x13)
    else if strength >= 65.0 && strength < 70.0 then Rgb(0xee, 0x34, 0xfa)
    else White
  }

  /** The bin of a strength: `k` for `[5k, 5k + 5)`. */
  function Bin(strength: real): int {
    (strength / 5.0).Floor
  }

  /** The same classification read off the table: black below 5 and for the
      below-threshold sentinel, white from 70 on, otherwise the palette entry
      of the strength's bin. */
  function TableColor(strength: real): Rgb {
    if strength < 5.0 || strength == BelowThreshold then Black
    else if strength >= 70.0 then White
    else Palette[Bin(strength) - 1]
  }

  /** Bin `k` holds exactly the strengths in `[5k, 5k + 5)`. */
  lemma BinBounds(strength: real, k: int)
    ensures Bin(strength) == k <==> 5.0 * k as real <= strength < 5.0 * k as real + 5.0
  {
  }

  /** The chain of comparisons and the table agree on every strength. */
  lemma ColorMatchesTable(strength: real)
    ensures ColorFor(strength) == TableColor(strength)
  {
    if 5.0 <= strength < 70.0 {
      var k := Bin(strength);
      BinBounds(strength, k);
      assert 1 <= k <= 13;
    }
  }

  /** For `k` in 1..13, every strength in `[5k, 5k + 5)` gets the `k`-th colour;
      the bins are half-open, so a boundary belongs to the bin above it. */
  lemma ColorOfBin(strength: real, k: int)
    requires 1 <= k <= 13 && 5.0 * k as real <= strength < 5.0 * k as real + 5.0
    ensures ColorFor(strength) == Palette[k - 1]
  {
    ColorMatchesTable(strength);
    BinBounds(strength, k);
  }

  /** The ends of the scale: black below 5 and for 999, white from 70 on
      (the folded value 998 included). */
  lemma ColorOutsideBins(strength: real)
    ensures strength < 5.0 || strength == BelowThreshold ==> ColorFor(strength) == Black
    ensures strength >= 70.0 && strength != BelowThreshold ==> ColorFor(strength) == White
    ensures ColorFor(MomentFolded) == White
  {
  }

  /** A point with its raw colour reclassified and nothing else changed. */
  function Recolor(p: ColoredPoint): ColoredPoint {
    p.(raw := ColorFor(p.strength))
  }

  /** `color_points`: rewrites the raw colour of every point in place; the
      points' order, positions, strengths and other colours stay as they were. */
  method ColorPoints(points: array<ColoredPoint>)
    modifies points
    ensures forall i :: 0 <= i < points.Length ==>
      points[i].raw == ColorFor(old(points[i]).strength) &&
      points[i].pos == old(points[i]).pos && points[i].strength == old(points[i]).strength &&
      points[i].density == old(points[i]).density && points[i].hybrid == old(points[i]).hybrid
    ensures points[..] == seq(points.Length, i requires 0 <= i < points.Length => Recolor(old(points[i])))
  {
    for i := 0 to points.Length
      invariant forall k :: 0 <= k < i ==> points[k] == Recolor(old(points[k]))
      invariant forall k :: i <= k < points.Length ==> points[k] == old(points[k])
    {
      points[i] := points[i].(raw := ColorFor(points[i].strength));
    }
  }
}
