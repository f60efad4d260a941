/**
 * The menu starfield (`src/components/Stars/index.js`): one hundred stars
 * whose size is kept as a decimal string in their `name`, moved to the
 * right by `delta * size * 0.2` each frame and wrapped to 0 past the width.
 */
module Stars {
  import opened Js

  const StarCount: nat := 100

  /** A star as the ticker sees it: the size as text in `name`, and its `x`. */
  datatype Star = Star(name: string, x: real)

  /** `randomInt(lo, hi)` of mathjs is `floor(lo + r * (hi - lo))` for some `r` in [0, 1). */
  predicate RandomIntResult(lo: int, hi: int, v: int) {
    if lo < hi then lo <= v < hi else hi <= v <= lo
  }

  /** A star size: `randomInt(1, 4)` is 1, 2 or 3. */
  predicate IsSize(size: int) {
    RandomIntResult(1, 4, size)
  }

  /** `size.toString()` for a star size. */
  predicate SizeName(name: string) {
    name == "1" || name == "2" || name == "3"
  }

  /** The size a star's name encodes, as `parseInt(name, 10)` reads it. */
  function SizeOf(name: string): (size: int)
    requires SizeName(name)
    ensures IsSize(size) && NatToString(size) == name
    ensures ParseInt(name) == Some(size)
  {
    SmallNames();
    if name == "1" then 1 else if name == "2" then 2 else 3
  }

  /** The decimal text of 1, 2 and 3, and what `parseInt` reads back from it. */
  lemma SmallNames()
    ensures NatToString(1) == "1" && NatToString(2) == "2" && NatToString(3) == "3"
    ensures ParseInt("1") == Some(1) && ParseInt("2") == Some(2) && ParseInt("3") == Some(3)
  {
    ParseIntOfNatToString(1);
    ParseIntOfNatToString(2);
    ParseIntOfNatToString(3);
  }

  /** The star built for `size`: its name parses back to `size`. */
  lemma NameRoundTrip(size: nat)
    requires IsSize(size)
    ensures SizeName(NatToString(size)) && SizeOf(NatToString(size)) == size
  {
    SmallNames();
    assert size == 1 || size == 2 || size == 3;
    if size == 1 {
      assert NatToString(size) == "1";
    } else if size == 2 {
      assert NatToString(size) == "2";
    } else {
      assert NatToString(size) == "3";
    }
  }

  /**
   * One star's step in `moveStars`: advance by `delta * size * 0.2`, and
   * reset to exactly 0 when that passes `width`.
   */
  function Advanced(s: Star, delta: real, width: int): (r: Star)
    requires SizeName(s.name)
    ensures r.name == s.name
    ensures width >= 0 ==> r.x <= width as real
    ensures var moved := s.x + delta * (SizeOf(s.name) as real) * 0.2;
            r.x == (if moved > width as real then 0.0 else moved)
  {
    var moved := s.x + delta * (SizeOf(s.name) as real) * 0.2;
    if moved > width as real then s.(x := 0.0) else s.(x := moved)
  }

  /** A star that starts at x >= 0 stays there when the frame delta is not negative. */
  lemma AdvancedStaysNonNegative(s: Star, delta: real, width: int)
    requires SizeName(s.name) && s.x >= 0.0 && delta >= 0.0
    ensures Advanced(s, delta, width).x >= 0.0
  {
    var size := SizeOf(s.name) as real;
    assert size >= 1.0;
    assert delta * size >= 0.0 by { NonNegativeProduct(delta, size); }
    NonNegativeProduct(delta * size, 0.2);
  }

  /** The product of two non-negative reals is non-negative. */
  lemma NonNegativeProduct(a: real, b: real)
    requires a >= 0.0 && b >= 0.0
    ensures a * b >= 0.0
  {
  }

  class Starfield {
    /** `width.current`, the window width when the component mounted. */
    const width: int
    /** `stars.current`. */
    var stars: seq<Star>

    ghost predicate Valid()
      reads this
    {
      |stars| == StarCount && forall i :: 0 <= i < |stars| ==> SizeName(stars[i].name)
    }

    /**
     * The creation loop: star i gets `sizes[i]` from `randomInt(1, 4)` as its
     * name and `xs[i]` from `randomInt(5, width)` as its x, and is pushed.
     */
    constructor (width: int, sizes: seq<nat>, xs: seq<int>)
      requires |sizes| == StarCount && |xs| == StarCount
      requires forall i :: 0 <= i < StarCount ==> IsSize(sizes[i]) && RandomIntResult(5, width, xs[i])
      ensures Valid() && this.width == width
      ensures forall i :: 0 <= i < StarCount ==>
        stars[i] == Star(NatToString(sizes[i]), xs[i] as real) && SizeOf(stars[i].name) == sizes[i]
      ensures width > 5 ==> forall i :: 0 <= i < StarCount ==> stars[i].x >= 5.0
    {
      this.width := width;
      stars := [];
      new;
      for i := 0 to StarCount
        invariant |stars| == i
        invariant forall j :: 0 <= j < i ==>
          stars[j] == Star(NatToString(sizes[j]), xs[j] as real) && SizeName(stars[j].name) &&
          SizeOf(stars[j].name) == sizes[j]
      {
        var size := sizes[i];
        NameRoundTrip(size);
        stars := stars + [Star(NatToString(size), xs[i] as real)];
      }
    }

    /** `moveStars(delta)`: advance stars 0 to 99 in place, each by its own size. */
    method MoveStars(delta: real)
      requires Valid()
      modifies this
      ensures Valid()
      ensures |stars| == |old(stars)|
      ensures forall i :: 0 <= i < StarCount ==> stars[i] == Advanced(old(stars)[i], delta, width)
    {
      ghost var before := stars;
      for i := 0 to StarCount
        invariant |stars| == StarCount
        invariant forall j :: 0 <= j < StarCount ==> SizeName(before[j].name)
        invariant forall j :: 0 <= j < i ==> stars[j] == Advanced(before[j], delta, width)
        invariant forall j :: i <= j < StarCount ==> stars[j] == before[j]
      {
        var next := StepStar(stars[i], delta, width);
        stars := stars[i := next];
      }
    }
  }

  /** The body of the `moveStars` loop for one star: `x += delta * parseInt(name, 10) * 0.2`, then the wrap. */
  method StepStar(star: Star, delta: real, width: int) returns (next: Star)
    requires SizeName(star.name)
    ensures next == Advanced(star, delta, width)
  {
    ghost var known := SizeOf(star.name);
    var size := ParseInt(star.name).value;
    var x := star.x + delta * (size as real) * 0.2;
    if x > width as real {
      x := 0.0;
    }
    next := star.(x := x);
  }

  /** After any frame every star lies within the width, and a frame with delta >= 0 keeps every star at x >= 0. */
  lemma FrameBounds(before: seq<Star>, after: seq<Star>, delta: real, width: int)
    requires |before| == |after| && width >= 0
    requires forall i :: 0 <= i < |before| ==> SizeName(before[i].name) && after[i] == Advanced(before[i], delta, width)
    requires delta >= 0.0 && forall i :: 0 <= i < |before| ==> before[i].x >= 0.0
    ensures forall i :: 0 <= i < |after| ==> 0.0 <= after[i].x <= width as real
  {
    forall i | 0 <= i < |after|
      ensures 0.0 <= after[i].x <= width as real
    {
      AdvancedStaysNonNegative(before[i], delta, width);
    }
  }
}
