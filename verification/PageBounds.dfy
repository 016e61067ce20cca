/** Finding the page in a scanned image: one pass over the pixels that keeps the extremes of
    the dark ones. Sizes compare as exact numbers. */
module PageBounds {
  import opened Common

  datatype Rect = Rect(x: nat, y: nat, width: nat, height: nat)

  datatype Point = Point(x: int, y: int)

  newtype Byte = x: int | 0 <= x < 256

  /** Row-major samples, four to a pixel, as a canvas gives them. */
  datatype Image = Image(data: seq<Byte>, width: nat, height: nat) {
    predicate Valid() {
      |data| == 4 * (width * height)
    }

    predicate Inside(x: int, y: int) {
      0 <= x < width && 0 <= y < height
    }

    function Sum(x: nat, y: nat): nat
      requires Valid() && Inside(x, y)
    {
      PixelInRange(x, y, width, height);
      var index := (y * width + x) * 4;
      data[index] as nat + data[index + 1] as nat + data[index + 2] as nat
    }

    /** Rounding half up, as Math.round does. */
    function Luminance(x: nat, y: nat): nat
      requires Valid() && Inside(x, y)
    {
      (2 * Sum(x, y) + 3) / 6
    }

    ghost predicate Dark(p: Point)
      requires Valid()
    {
      Inside(p.x, p.y) && Luminance(p.x, p.y) < 245
    }
  }

  lemma PixelInRange(x: nat, y: nat, width: nat, height: nat)
    requires x < width && y < height
    ensures (y * width + x) * 4 + 3 < 4 * (width * height)
  {
    assert (y + 1) * width <= height * width;
  }

  /** A pixel's luminance is the integer nearest to a third of its three colour samples. */
  lemma LuminanceIsTheMean(image: Image, x: nat, y: nat)
    requires image.Valid() && image.Inside(x, y)
    ensures var i := (y * image.width + x) * 4;
            && i + 3 < |image.data|
            && var samples := image.data[i] as int + image.data[i + 1] as int + image.data[i + 2] as int;
               -1 <= 3 * image.Luminance(x, y) - samples <= 1
  {
    PixelInRange(x, y, image.width, image.height);
  }

  /** No smaller rectangle holds all dark pixels: they are all inside, and every side of the
      rectangle has one. */
  ghost predicate Tight(image: Image, r: Rect)
    requires image.Valid()
  {
    && (forall p :: image.Dark(p) ==> r.x <= p.x < r.x + r.width && r.y <= p.y < r.y + r.height)
    && (exists p :: image.Dark(p) && p.x == r.x) && (exists p :: image.Dark(p) && p.x == r.x + r.width - 1)
    && (exists p :: image.Dark(p) && p.y == r.y) && (exists p :: image.Dark(p) && p.y == r.y + r.height - 1)
  }

  predicate FillsPage(image: Image, r: Rect) {
    100 * r.width > 94 * image.width && 100 * r.height > 94 * image.height
  }

  /** All dark pixels, if there are any, lie in one column. */
  ghost predicate OneColumn(image: Image)
    requires image.Valid()
  {
    forall p, q :: image.Dark(p) && image.Dark(q) ==> p.x == q.x
  }

  ghost predicate OneRow(image: Image)
    requires image.Valid()
  {
    forall p, q :: image.Dark(p) && image.Dark(q) ==> p.y == q.y
  }

  lemma TightIsUnique(image: Image, r: Rect, s: Rect)
    requires image.Valid() && Tight(image, r) && Tight(image, s)
    ensures r == s
  {
  }

  lemma TightLiesInside(image: Image, r: Rect)
    requires image.Valid() && Tight(image, r)
    ensures r.width > 0 && r.height > 0 && r.x + r.width <= image.width && r.y + r.height <= image.height
  {
  }

  /** A tight rectangle more than one pixel wide and high is neither a column nor a row, and
      is the only one. */
  lemma TightIsWide(image: Image, r: Rect)
    requires image.Valid() && Tight(image, r) && r.width > 1 && r.height > 1
    ensures !OneColumn(image) && !OneRow(image)
    ensures forall s :: Tight(image, s) ==> s == r
  {
    forall s | Tight(image, s)
      ensures s == r
    {
      TightIsUnique(image, r, s);
    }
  }

  function Coord(p: Point, across: bool): int {
    if across then p.x else p.y
  }

  /** The running extremes along one axis: the initial values while no dark pixel has been
      seen, then the extremes of those seen. */
  ghost predicate Extremes(seen: set<Point>, across: bool, size: nat, min: int, max: int) {
    && (forall p :: p in seen ==> 0 <= min <= Coord(p, across) <= max)
    && if seen == {} then min == size && max == 0
       else (exists p :: p in seen && Coord(p, across) == min) && (exists p :: p in seen && Coord(p, across) == max)
  }

  /** `seen` are the dark pixels above row `y`, and those of row `y` left of column `x`. */
  ghost predicate Passed(image: Image, seen: set<Point>, x: int, y: int)
    requires image.Valid()
  {
    forall p :: p in seen <==> image.Dark(p) && (p.y < y || (p.y == y && p.x < x))
  }

  function Min(a: int, b: int): int {
    if a <= b then a else b
  }

  function Max(a: int, b: int): int {
    if a >= b then a else b
  }

  lemma SeeOne(seen: set<Point>, across: bool, size: nat, min: int, max: int, p: Point)
    requires Extremes(seen, across, size, min, max) && 0 <= Coord(p, across) < size
    ensures Extremes(seen + {p}, across, size, Min(min, Coord(p, across)), Max(max, Coord(p, across)))
  {
    var more := seen + {p};
    assert p in more;
    if seen != {} {
      var a :| a in seen && Coord(a, across) == min;
      var b :| b in seen && Coord(b, across) == max;
      assert a in more && b in more;
    }
  }

  lemma ScanDone(image: Image, seen: set<Point>, minX: int, minY: int, maxX: int, maxY: int)
    requires image.Valid() && Passed(image, seen, 0, image.height)
    requires Extremes(seen, true, image.width, minX, maxX) && Extremes(seen, false, image.height, minY, maxY)
    ensures minX >= maxX ==> OneColumn(image)
    ensures minY >= maxY ==> OneRow(image)
    ensures minX < maxX && minY < maxY ==>
              0 <= minX && 0 <= minY && Tight(image, Rect(minX, minY, maxX - minX + 1, maxY - minY + 1))
  {
    assert forall p :: p in seen <==> image.Dark(p);
  }

  lemma PassOne(image: Image, seen: set<Point>, x: int, y: int)
    requires image.Valid() && image.Inside(x, y) && Passed(image, seen, x, y)
    ensures Passed(image, if image.Dark(Point(x, y)) then seen + {Point(x, y)} else seen, x + 1, y)
  {
  }

  /** The tightest rectangle round the dark pixels; none exactly when it would be at most one
      pixel wide or high, or so large in both directions that cropping gains nothing. */
  method DetectPageBounds(image: Image) returns (bounds: Option<Rect>)
    requires image.Valid()
    ensures bounds.Some? ==> Tight(image, bounds.value) && !FillsPage(image, bounds.value)
                             && bounds.value.width > 1 && bounds.value.height > 1
    ensures bounds.None? <==> || OneColumn(image) || OneRow(image)
                              || exists r :: Tight(image, r) && FillsPage(image, r)
  {
    var minX, minY, maxX, maxY := image.width, image.height, 0, 0;
    ghost var seen: set<Point> := {};
    for y := 0 to image.height
      invariant Passed(image, seen, 0, y)
      invariant Extremes(seen, true, image.width, minX, maxX) && Extremes(seen, false, image.height, minY, maxY)
    {
      for x := 0 to image.width
        invariant Passed(image, seen, x, y)
        invariant Extremes(seen, true, image.width, minX, maxX) && Extremes(seen, false, image.height, minY, maxY)
      {
        PassOne(image, seen, x, y);
        if image.Luminance(x, y) < 245 {
          SeeOne(seen, true, image.width, minX, maxX, Point(x, y));
          SeeOne(seen, false, image.height, minY, maxY, Point(x, y));
          minX, minY := Min(minX, x), Min(minY, y);
          maxX, maxY := Max(maxX, x), Max(maxY, y);
          seen := seen + {Point(x, y)};
        }
      }
    }
    ScanDone(image, seen, minX, minY, maxX, maxY);
    if minX >= maxX || minY >= maxY {
      return None;
    }
    var crop := Rect(minX, minY, maxX - minX + 1, maxY - minY + 1);
    TightIsWide(image, crop);
    if FillsPage(image, crop) {
      return None;
    }
    bounds := Some(crop);
  }
}
