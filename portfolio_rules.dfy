/** The pure rules inside the `Portfolio` class of js/main.js: the wrap-around
    index of the image viewer, the scroll ratios that drive the theme, the
    navbar and the profile name, the stored theme value, and the choice of
    the section that contains the scroll position.  The class itself, which
    applies these rules to its fields, is in module PortfolioPage. */
module PortfolioRules {
  import opened Options

  // ----- JavaScript arithmetic -----

  /** JavaScript's `a % n` on integers with a positive divisor: the result
      truncates toward zero, so it carries the sign of `a` (Dafny's own `%`
      never returns a negative value). */
  function JsRem(a: int, n: int): (r: int)
    requires n > 0
    ensures a >= 0 ==> 0 <= r < n
    ensures a < 0 ==> -n < r <= 0
    ensures -n < a < n ==> r == a
  {
    if a >= 0 then ModOfNat(a, n); a % n
    else ModOfNat(-a, n); -((-a) % n)
  }

  /** Dafny's `%` on a natural number: below the divisor, and the number
      itself when it is already below. */
  lemma ModOfNat(a: nat, n: int)
    requires n > 0
    ensures 0 <= a % n < n
    ensures a < n ==> a % n == a
  {
    if a < n {
      ModUnique(a, n, 0, a);
    }
  }

  /** JavaScript's `Math.min` on two numbers (NaN is not modelled). */
  function Min(a: real, b: real): (m: real)
    ensures m <= a && m <= b
    ensures m == a || m == b
  {
    if a <= b then a else b
  }

  // ----- Image viewer index (js/main.js:276-290) -----

  /** The index `nextImage` moves to in a list of `n > 1` images. */
  function NextImageIndex(i: int, n: int): (r: int)
    requires n > 0
    ensures i >= -1 ==> 0 <= r < n
    ensures i < -1 ==> -n < r <= 0
  {
    JsRem(i + 1, n)
  }

  /** The index `previousImage` moves to in a list of `n > 1` images. */
  function PreviousImageIndex(i: int, n: int): (r: int)
    requires n > 0
    ensures i >= 1 - n ==> 0 <= r < n
    ensures i < 1 - n ==> -n < r <= 0
  {
    JsRem(i - 1 + n, n)
  }

  /** From any index in range (or from -1), `nextImage` steps forward by one
      and wraps from the last image to the first. */
  lemma NextImageWraps(i: int, n: int)
    requires n > 0 && -1 <= i < n
    ensures NextImageIndex(i, n) == if i == n - 1 then 0 else i + 1
  {
  }

  /** From any index in range, `previousImage` steps back by one and wraps from
      the first image to the last. */
  lemma PreviousImageWraps(i: int, n: int)
    requires n > 0 && 0 <= i < n
    ensures PreviousImageIndex(i, n) == if i == 0 then n - 1 else i - 1
  {
  }

  /** `nextImage` lands in range from every index that is not below -1, so an
      unclamped start index past the end is repaired by one step. */
  lemma NextImageInRange(i: int, n: int)
    requires n > 0 && i >= -1
    ensures 0 <= NextImageIndex(i, n) < n
  {
  }

  /** `previousImage` lands in range from every index not below `1 - n`. */
  lemma PreviousImageInRange(i: int, n: int)
    requires n > 0 && i >= 1 - n
    ensures 0 <= PreviousImageIndex(i, n) < n
  {
  }

  /** One press of `nextImage` need not repair a start index below -1:
      JavaScript's remainder keeps -3 in a list of 3 negative, so the viewer
      reads an `undefined` image. */
  lemma NegativeStartStaysOutOfRange()
    ensures NextImageIndex(-3, 3) == -2
  {
  }

  /** Next then previous, and previous then next, restore an in-range index. */
  lemma {:induction false} NextPreviousInverse(i: int, n: int)
    requires n > 0 && 0 <= i < n
    ensures PreviousImageIndex(NextImageIndex(i, n), n) == i
    ensures NextImageIndex(PreviousImageIndex(i, n), n) == i
  {
    NextImageWraps(i, n);
    PreviousImageWraps(i, n);
    PreviousImageWraps(NextImageIndex(i, n), n);
    NextImageWraps(PreviousImageIndex(i, n), n);
  }

  /** The index after pressing "next" `k` times from `i`. */
  function NextImageTimes(i: int, n: int, k: nat): int
    requires n > 0
  {
    if k == 0 then i else NextImageIndex(NextImageTimes(i, n, k - 1), n)
  }

  /** From a start index in [-n, 0), each press of `nextImage` adds one, so
      the index stays out of range for fewer than `-i` presses and is 0
      after exactly `-i` presses.  (A start below -n lands in (-n, 0] after
      one press, by `NextImageIndex`'s contract.) */
  lemma {:induction false} NegativeStartClimbs(i: int, n: int, k: nat)
    requires n > 0 && -n <= i < 0 && k <= -i
    ensures NextImageTimes(i, n, k) == i + k
  {
    if k > 0 {
      NegativeStartClimbs(i, n, k - 1);
      assert NextImageTimes(i, n, k) == JsRem(i + k, n);
    }
  }

  /** Dafny's `%` is determined by any quotient and remainder in range. */
  lemma ModUnique(a: int, n: int, q: int, r: int)
    requires n > 0 && 0 <= r < n && a == q * n + r
    ensures a % n == r
  {
    var q', r' := a / n, a % n;
    assert a == q' * n + r';
    assert (q - q') * n == r' - r;
    if q > q' {
      MulAtLeast(q - q', n);
      assert false;
    } else if q < q' {
      MulAtLeast(q' - q, n);
      assert false;
    }
  }

  /** A positive multiple of `n` is at least `n`. */
  lemma MulAtLeast(d: int, n: int)
    requires d >= 1 && n > 0
    ensures d * n >= n
  {
    assert d * n == (d - 1) * n + n;
  }

  /** One step of the remainder: adding one to `a` adds one to `a % n`, or wraps it to 0. */
  lemma ModSucc(a: nat, n: int)
    requires n > 0
    ensures (a + 1) % n == if a % n == n - 1 then 0 else a % n + 1
  {
    var q := a / n;
    assert a == q * n + a % n;
    if a % n == n - 1 {
      ModUnique(a + 1, n, q + 1, 0);
    } else {
      ModUnique(a + 1, n, q, a % n + 1);
    }
  }

  /** Pressing "next" `k` times from an in-range index shows image `(i + k) mod n`;
      in particular `n` presses come back to the image the viewer started on. */
  lemma {:induction false} NextImageTimesCycles(i: int, n: int, k: nat)
    requires n > 0 && 0 <= i < n
    ensures NextImageTimes(i, n, k) == (i + k) % n
  {
    if k > 0 {
      NextImageTimesCycles(i, n, k - 1);
      var j := (i + k - 1) % n;
      NextImageWraps(j, n);
      ModSucc(i + k - 1, n);
    }
  }

  // ----- Scroll ratios (js/main.js:621, 659-660, 716) -----

  /** `darkModeProgress`: the scroll position as a fraction of half the
      viewport height, capped at 1. */
  function DarkModeProgress(scroll: real, innerHeight: real): (p: real)
    requires innerHeight > 0.0
    ensures p <= 1.0
    ensures p == 1.0 <==> scroll >= innerHeight * 0.5
    ensures scroll >= 0.0 ==> p >= 0.0
  {
    var h := innerHeight * 0.5;
    var q := scroll / h;
    assert q * h == scroll;
    Min(q, 1.0)
  }

  /** Comparing a quotient with a constant is comparing the dividend with the
      constant times the (positive) divisor. */
  lemma DivCompare(x: real, d: real, c: real)
    requires d > 0.0
    ensures x / d > c <==> x > c * d
    ensures x / d >= c <==> x >= c * d
  {
    var q := x / d;
    assert q * d == x;
    assert (q - c) * d == x - c * d;
    if q > c {
      assert (q - c) * d > 0.0;
    } else {
      assert (c - q) * d >= 0.0;
    }
    if q >= c {
      assert (q - c) * d >= 0.0;
    } else {
      assert (c - q) * d > 0.0;
    }
  }

  /** `updateThemeTransition` forces dark mode exactly when the page has
      scrolled past 15% of the viewport height. */
  lemma DarkModeForcedPast(scroll: real, innerHeight: real)
    requires innerHeight > 0.0
    ensures DarkModeProgress(scroll, innerHeight) > 0.3 <==> scroll > innerHeight * 0.15
  {
    DivCompare(scroll, innerHeight * 0.5, 0.3);
  }

  /** `scrollRatio` of `updateProfileTransform`: the scroll position as a
      fraction of 80% of the viewport height, capped at 1. */
  function ScrollRatio(scroll: real, innerHeight: real): (r: real)
    requires innerHeight > 0.0
    ensures r <= 1.0
    ensures scroll >= 0.0 ==> r >= 0.0
  {
    var h := innerHeight * 0.8;
    var q := scroll / h;
    assert q * h == scroll;
    Min(q, 1.0)
  }

  /** The three placements of the profile name in `updateProfileTransform`. */
  datatype NamePhase = Centered | Rising | Docked

  /** The phase thresholds of `updateProfileTransform` (js/main.js:671-689). */
  function NamePhaseAt(ratio: real): (p: NamePhase)
    ensures p == Centered <==> ratio < 0.3
    ensures p == Rising <==> 0.3 <= ratio < 0.7
    ensures p == Docked <==> ratio >= 0.7
  {
    if ratio < 0.3 then Centered else if ratio < 0.7 then Rising else Docked
  }

  function PhaseRank(p: NamePhase): nat
  {
    match p
    case Centered => 0
    case Rising => 1
    case Docked => 2
  }

  /** The name docks in the top-left corner exactly from 56% of the viewport
      height on (0.7 of 0.8). */
  lemma NameDockedPast(scroll: real, innerHeight: real)
    requires innerHeight > 0.0
    ensures NamePhaseAt(ScrollRatio(scroll, innerHeight)) == Docked <==> scroll >= innerHeight * 0.56
  {
    DivCompare(scroll, innerHeight * 0.8, 0.7);
  }

  /** Scrolling further down never moves the name back to an earlier phase. */
  lemma NamePhaseMonotone(s1: real, s2: real, innerHeight: real)
    requires innerHeight > 0.0 && s1 <= s2
    ensures PhaseRank(NamePhaseAt(ScrollRatio(s1, innerHeight))) <= PhaseRank(NamePhaseAt(ScrollRatio(s2, innerHeight)))
  {
    var h := innerHeight * 0.8;
    var q1, q2 := s1 / h, s2 / h;
    assert q1 * h == s1 && q2 * h == s2;
    assert q1 <= q2;
  }

  /** `updateNavigationVisibility`: the navbar is shown past 80% of the viewport height. */
  predicate NavbarShown(scroll: real, innerHeight: real)
  {
    scroll > innerHeight * 0.8
  }

  /** Whenever the navbar is shown, the name is already docked and dark mode
      progress has reached 1, so dark mode has been forced. */
  lemma NavbarShownImpliesDockedAndDark(scroll: real, innerHeight: real)
    requires innerHeight > 0.0 && NavbarShown(scroll, innerHeight)
    ensures NamePhaseAt(ScrollRatio(scroll, innerHeight)) == Docked
    ensures DarkModeProgress(scroll, innerHeight) == 1.0
  {
    NameDockedPast(scroll, innerHeight);
  }

  // ----- Theme storage (js/main.js:729-747) -----

  /** The value the toggle writes under the storage key 'theme'. */
  function StoredThemeValue(dark: bool): (v: string)
    ensures v == "dark" <==> dark
    ensures v == "light" <==> !dark
  {
    if dark then "dark" else "light"
  }

  /** The icon class the toggle gives the theme button. */
  function ThemeIconClass(dark: bool): (c: string)
    ensures c == "fas fa-moon" <==> dark
    ensures c == "fas fa-sun" <==> !dark
  {
    if dark then "fas fa-moon" else "fas fa-sun"
  }

  /** At startup only a saved value of exactly 'dark' turns dark mode on. */
  predicate SavedThemeTurnsDark(saved: Option<string>)
  {
    saved == Some("dark")
  }

  /** What the toggle stores brings back the same mode on the next visit
      (which starts in light mode). */
  lemma ThemePersistenceRoundTrip(dark: bool)
    ensures SavedThemeTurnsDark(Some(StoredThemeValue(dark))) <==> dark
  {
  }

  // ----- Active section (js/main.js:786-802) -----

  /** A `section[id]` element with its layout. */
  datatype Section = Section(id: string, offsetTop: real, clientHeight: real)

  /** A section holds the scroll position when the position lies in its box
      shifted up by 150 pixels. */
  predicate SectionContains(s: Section, pos: real)
  {
    s.offsetTop - 150.0 <= pos < s.offsetTop - 150.0 + s.clientHeight
  }

  /** The last section in document order that holds `pos`: the one whose id
      the `forEach` leaves in `currentSection`. */
  function LastSectionContaining(sections: seq<Section>, pos: real): (r: Option<nat>)
    ensures r.Some? ==> r.value < |sections| && SectionContains(sections[r.value], pos)
    ensures r.Some? ==> forall j :: r.value < j < |sections| ==> !SectionContains(sections[j], pos)
    ensures r.None? ==> forall j :: 0 <= j < |sections| ==> !SectionContains(sections[j], pos)
  {
    if |sections| == 0 then None
    else if SectionContains(sections[|sections| - 1], pos) then Some(|sections| - 1)
    else LastSectionContaining(sections[..|sections| - 1], pos)
  }

  /** The id the scan ends with, '' when no section holds the position. */
  function CurrentSectionId(sections: seq<Section>, pos: real): (id: string)
    ensures forall k :: 0 <= k < |sections| && SectionContains(sections[k], pos)
                        && (forall j :: k < j < |sections| ==> !SectionContains(sections[j], pos))
                        ==> id == sections[k].id
    ensures (forall j :: 0 <= j < |sections| ==> !SectionContains(sections[j], pos)) ==> id == ""
    ensures id != "" ==>
              exists k :: 0 <= k < |sections| && sections[k].id == id && SectionContains(sections[k], pos)
                          && forall j :: k < j < |sections| ==> !SectionContains(sections[j], pos)
  {
    match LastSectionContaining(sections, pos)
    case Some(k) => sections[k].id
    case None => ""
  }
}
