/**
 * The screen carousel of the display: eight screens in a fixed order, and a
 * touch in one of the two bottom corners moves to the previous or the next
 * screen, wrapping around at both ends.
 */
module Navigation {

  /** The `Screen` enumeration, in declaration order. */
  datatype Screen = Clock | Dx | Aprs | Bands | Propagation | Weather | Pota | Matrix

  const SCREEN_COUNT: nat := 8

  /** Width of the two corner hot spots and height of the bottom band, in pixels. */
  const NAV_MARGIN: int := 40

  /** The enumerator's integer value. */
  function Index(s: Screen): (i: nat)
    ensures i < SCREEN_COUNT
  {
    match s
    case Clock => 0
    case Dx => 1
    case Aprs => 2
    case Bands => 3
    case Propagation => 4
    case Weather => 5
    case Pota => 6
    case Matrix => 7
  }

  /** The cast `(Screen) i` for an in-range integer. */
  function FromIndex(i: nat): (s: Screen)
    requires i < SCREEN_COUNT
    ensures Index(s) == i
  {
    if i == 0 then Clock
    else if i == 1 then Dx
    else if i == 2 then Aprs
    else if i == 3 then Bands
    else if i == 4 then Propagation
    else if i == 5 then Weather
    else if i == 6 then Pota
    else Matrix
  }

  /** Distinct screens have distinct values, so the cast undoes `Index`. */
  lemma FromIndexOfIndex(s: Screen)
    ensures FromIndex(Index(s)) == s
  {
  }

  /** The enumerators have pairwise distinct values. */
  lemma IndexInjective(a: Screen, b: Screen)
    requires Index(a) == Index(b)
    ensures a == b
  {
    FromIndexOfIndex(a);
    FromIndexOfIndex(b);
  }

  /**
   * The "previous" gesture. Written as the successor table of the enumeration;
   * its contract is the firmware's formula `(currentScreen - 1 + 8) % 8`.
   */
  function Prev(s: Screen): (r: Screen)
    ensures Index(r) == (Index(s) - 1 + SCREEN_COUNT) % SCREEN_COUNT
  {
    match s
    case Clock => Matrix
    case Dx => Clock
    case Aprs => Dx
    case Bands => Aprs
    case Propagation => Bands
    case Weather => Propagation
    case Pota => Weather
    case Matrix => Pota
  }

  /** The "next" gesture; its contract is the formula `(currentScreen + 1) % 8`. */
  function Next(s: Screen): (r: Screen)
    ensures Index(r) == (Index(s) + 1) % SCREEN_COUNT
  {
    match s
    case Clock => Dx
    case Dx => Aprs
    case Aprs => Bands
    case Bands => Propagation
    case Propagation => Weather
    case Weather => Pota
    case Pota => Matrix
    case Matrix => Clock
  }

  /** Both tables agree with the casts the firmware performs. */
  lemma GesturesAreCasts(s: Screen)
    ensures Prev(s) == FromIndex((Index(s) - 1 + SCREEN_COUNT) % SCREEN_COUNT)
    ensures Next(s) == FromIndex((Index(s) + 1) % SCREEN_COUNT)
  {
    IndexInjective(Prev(s), FromIndex((Index(s) - 1 + SCREEN_COUNT) % SCREEN_COUNT));
    IndexInjective(Next(s), FromIndex((Index(s) + 1) % SCREEN_COUNT));
  }

  /** Both gestures wrap: before the clock comes the matrix clock, and after it the clock again. */
  lemma WrapAround()
    ensures Prev(Clock) == Matrix && Next(Matrix) == Clock
    ensures Index(Prev(Clock)) == SCREEN_COUNT - 1 && Index(Next(Matrix)) == 0
  {
  }

  /** "Previous" and "next" undo each other, from every screen. */
  lemma PrevNextInverse(s: Screen)
    ensures Next(Prev(s)) == s && Prev(Next(s)) == s
  {
    FromIndexOfIndex(s);
  }

  /** Either gesture always moves to another screen. */
  lemma GesturesMove(s: Screen)
    ensures Prev(s) != s && Next(s) != s
  {
  }

  /** The screen reached after `k` presses on "next". */
  function Forward(s: Screen, k: nat): Screen {
    if k == 0 then s else Next(Forward(s, k - 1))
  }

  /** Each press on "next" advances the index by one, modulo 8. */
  lemma {:induction false} ForwardIndex(s: Screen, k: nat)
    ensures Index(Forward(s, k)) == (Index(s) + k) % SCREEN_COUNT
  {
    if k > 0 {
      var p := Forward(s, k - 1);
      ForwardIndex(s, k - 1);
      assert Forward(s, k) == Next(p);
      var q, m := (Index(s) + k - 1) / SCREEN_COUNT, (Index(s) + k - 1) % SCREEN_COUNT;
      assert Index(s) + k - 1 == SCREEN_COUNT * q + m;
      if m < SCREEN_COUNT - 1 {
        assert Index(s) + k == SCREEN_COUNT * q + (m + 1);
      } else {
        assert Index(s) + k == SCREEN_COUNT * (q + 1);
      }
    }
  }

  /** Eight presses on "next" come back to the starting screen. */
  lemma FullCycle(s: Screen)
    ensures Forward(s, SCREEN_COUNT) == s
  {
    var r := Forward(s, SCREEN_COUNT);
    ForwardIndex(s, SCREEN_COUNT);
    IndexInjective(r, s);
  }

  /** The number of presses on "next" that leads from index `a` to index `b`. */
  lemma PressesBetween(a: nat, b: nat)
    requires a < SCREEN_COUNT && b < SCREEN_COUNT
    ensures var k := (b - a + SCREEN_COUNT) % SCREEN_COUNT; (a + k) % SCREEN_COUNT == b
  {
    if a <= b {
      assert (b - a + SCREEN_COUNT) % SCREEN_COUNT == b - a;
    } else {
      assert (b - a + SCREEN_COUNT) % SCREEN_COUNT == b - a + SCREEN_COUNT;
      assert (a + (b - a + SCREEN_COUNT)) % SCREEN_COUNT == b;
    }
  }

  /** Every screen is reachable from every other by fewer than eight presses. */
  lemma EveryScreenReachable(s: Screen, t: Screen)
    ensures var k := (Index(t) - Index(s) + SCREEN_COUNT) % SCREEN_COUNT;
      k < SCREEN_COUNT && Forward(s, k) == t
  {
    var k := (Index(t) - Index(s) + SCREEN_COUNT) % SCREEN_COUNT;
    var r := Forward(s, k);
    ForwardIndex(s, k);
    PressesBetween(Index(s), Index(t));
    IndexInjective(r, t);
  }

  /** Where a touch lands, for navigation purposes. */
  datatype Zone = PrevCorner | NextCorner | Elsewhere

  /**
   * The nested tests of the touch handler: inside the bottom band, the left
   * test wins over the right one.
   */
  function ZoneOf(x: int, y: int, width: int, height: int): (z: Zone)
    ensures z != Elsewhere ==> y > height - NAV_MARGIN
    ensures z == PrevCorner ==> x < NAV_MARGIN
    ensures z == NextCorner ==> NAV_MARGIN <= x && x > width - NAV_MARGIN
  {
    if y > height - NAV_MARGIN then
      if x < NAV_MARGIN then PrevCorner
      else if x > width - NAV_MARGIN then NextCorner
      else Elsewhere
    else Elsewhere
  }

  /** The screen shown after one press at the mapped point (x, y). */
  function Navigate(s: Screen, x: int, y: int, width: int, height: int): (r: Screen)
    ensures r == s || r == Prev(s) || r == Next(s)
    ensures y <= height - NAV_MARGIN ==> r == s
  {
    match ZoneOf(x, y, width, height)
    case PrevCorner => Prev(s)
    case NextCorner => Next(s)
    case Elsewhere => s
  }

  /**
   * A press changes the screen exactly when it lands in the bottom band and
   * in the left or right margin; the left margin goes back, the right one
   * forward, and the bottom-middle and everything above the band do nothing.
   */
  lemma NavigationZones(s: Screen, x: int, y: int, width: int, height: int)
    ensures Navigate(s, x, y, width, height) != s
      <==> y > height - NAV_MARGIN && (x < NAV_MARGIN || x > width - NAV_MARGIN)
    ensures y > height - NAV_MARGIN && x < NAV_MARGIN ==> Navigate(s, x, y, width, height) == Prev(s)
    ensures y > height - NAV_MARGIN && NAV_MARGIN <= x && x > width - NAV_MARGIN
      ==> Navigate(s, x, y, width, height) == Next(s)
  {
    GesturesMove(s);
  }

  /** On the 320 x 240 landscape panel the two corners are 40 x 40 squares. */
  lemma LandscapeCorners(s: Screen)
    ensures Navigate(s, 10, 230, 320, 240) == Prev(s)
    ensures Navigate(s, 300, 230, 320, 240) == Next(s)
    ensures Navigate(s, 160, 230, 320, 240) == s
    ensures Navigate(s, 10, 200, 320, 240) == s
  {
  }
}
