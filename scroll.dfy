/** The scroll arithmetic of the landing reel: constants, the three scroll
    phases and the values the scroll handler derives from one scroll sample.
    Offsets in "vh" are hundredths of the viewport height. */
module Scroll {

  /** End of the intro phase, in vh. */
  const IntroPhaseEnd: real := 100.0
  /** End of the transition phase, in vh. */
  const TransitionPhaseEnd: real := 200.0
  /** Scroll given to each image after the transition, as a fraction of the viewport height. */
  const ScrollPerImage: real := 0.5
  /** Degrees per vh, so that intro plus transition make exactly one full turn. */
  const RotationSpeed: real := 360.0 / TransitionPhaseEnd

  datatype Phase = Intro | Transition | Normal

  function Min(a: real, b: real): real { if a <= b then a else b }
  function Max(a: real, b: real): real { if a <= b then b else a }
  function Abs(x: real): real { if x < 0.0 then -x else x }

  /** The rank of a phase in scroll order. */
  function Rank(p: Phase): nat
  {
    match p
    case Intro => 0
    case Transition => 1
    case Normal => 2
  }

  /** The scroll offset in vh; characterised without division. */
  function ScrollVh(scrollPosition: real, windowHeight: real): (v: real)
    requires windowHeight > 0.0
    ensures v * windowHeight == scrollPosition * 100.0
    ensures scrollPosition >= 0.0 ==> v >= 0.0
  {
    (scrollPosition / windowHeight) * 100.0
  }

  /** Larger offsets give larger vh offsets in the same viewport. */
  lemma ScrollVhMonotone(p1: real, p2: real, windowHeight: real)
    requires windowHeight > 0.0 && p1 <= p2
    ensures ScrollVh(p1, windowHeight) <= ScrollVh(p2, windowHeight)
  {
    var v1, v2 := ScrollVh(p1, windowHeight), ScrollVh(p2, windowHeight);
    assert (v2 - v1) * windowHeight == (p2 - p1) * 100.0;
    CancelPositive(v1, v2, windowHeight);
  }

  /** Multiplying by a positive factor keeps the order of two reals. */
  lemma CancelPositive(x: real, y: real, d: real)
    requires d > 0.0
    ensures x * d <= y * d <==> x <= y
    ensures x * d == y * d <==> x == y
  {
    if x < y {
      assert (y - x) * d > 0.0;
    } else if y < x {
      assert (x - y) * d > 0.0;
    }
  }

  /** The phase that contains a vh offset: three contiguous intervals. */
  function PhaseOf(v: real): (p: Phase)
    ensures p == Intro <==> v < 100.0
    ensures p == Transition <==> 100.0 <= v < 200.0
    ensures p == Normal <==> 200.0 <= v
  {
    if v < IntroPhaseEnd then Intro
    else if v < TransitionPhaseEnd then Transition
    else Normal
  }

  /** Scrolling further never goes back to an earlier phase. */
  lemma PhaseOfMonotone(v1: real, v2: real)
    requires v1 <= v2
    ensures Rank(PhaseOf(v1)) <= Rank(PhaseOf(v2))
  {
  }

  /** `Math.max(0, Math.min(1, x))`. */
  function Clamp01(x: real): (r: real)
    ensures 0.0 <= r <= 1.0
    ensures 0.0 <= x <= 1.0 ==> r == x
    ensures x < 0.0 ==> r == 0.0
    ensures x > 1.0 ==> r == 1.0
  {
    Max(0.0, Min(1.0, x))
  }

  /** Clamping never moves two values further apart, and keeps their order. */
  lemma Clamp01NonExpansive(x: real, y: real)
    ensures Abs(Clamp01(x) - Clamp01(y)) <= Abs(x - y)
    ensures x <= y ==> Clamp01(x) <= Clamp01(y)
  {
  }

  /** Text fade-in of the intro phase: starts at 10vh, complete at 50vh. */
  function IntroTextProgress(v: real): (r: real)
    ensures 0.0 <= r <= 1.0
    ensures v <= 10.0 ==> r == 0.0
    ensures v >= 50.0 ==> r == 1.0
    ensures 10.0 <= v <= 50.0 ==> r * 40.0 == v - 10.0
  {
    Clamp01((v - 10.0) / 40.0)
  }

  /** Text fade-out of the transition phase: starts at 150vh, complete at 200vh. */
  function TransitionTextProgress(v: real): (r: real)
    ensures 0.0 <= r <= 1.0
    ensures v <= 150.0 ==> r == 1.0
    ensures v >= 200.0 ==> r == 0.0
    ensures 150.0 <= v <= 200.0 ==> r * 50.0 == 200.0 - v
  {
    Clamp01(1.0 - (v - 150.0) / 50.0)
  }

  /** The text opacity the scroll handler sets for a vh offset, phase by phase. */
  function TextOpacity(v: real): (r: real)
    ensures 0.0 <= r <= 1.0
  {
    match PhaseOf(v)
    case Intro => IntroTextProgress(v)
    case Transition => TransitionTextProgress(v)
    case Normal => 0.0
  }

  /** The plateaus of the text opacity: hidden up to 10vh, fully shown
      from 50vh to 150vh, hidden again from 200vh on. */
  lemma TextOpacityShape(v: real)
    ensures v <= 10.0 ==> TextOpacity(v) == 0.0
    ensures 50.0 <= v <= 150.0 ==> TextOpacity(v) == 1.0
    ensures v >= 200.0 ==> TextOpacity(v) == 0.0
    ensures 0.0 < TextOpacity(v) ==> 10.0 < v < 200.0
  {
  }

  /** Whatever the phase, the text opacity is one trapezoid: the smaller of
      the intro fade-in and the transition fade-out. So the split into
      phases at 100vh and 200vh introduces no jump. */
  lemma TextOpacityIsTrapezoid(v: real)
    ensures TextOpacity(v) == Min(IntroTextProgress(v), TransitionTextProgress(v))
  {
    if v < 100.0 {
      assert TransitionTextProgress(v) == 1.0;
    } else if v < 200.0 {
      assert IntroTextProgress(v) == 1.0;
    } else {
      assert TransitionTextProgress(v) == 0.0;
    }
  }

  /** Taking the smaller of two values never moves two pairs further apart
      than their components are. */
  lemma MinNonExpansive(a1: real, b1: real, a2: real, b2: real, d: real)
    requires Abs(a1 - a2) <= d && Abs(b1 - b2) <= d
    ensures Abs(Min(a1, b1) - Min(a2, b2)) <= d
  {
  }

  /** Continuity of the text opacity across all phases: it changes by at
      most 1/40 per vh scrolled. */
  lemma {:induction false} TextOpacityLipschitz(v1: real, v2: real)
    ensures Abs(TextOpacity(v1) - TextOpacity(v2)) <= Abs(v1 - v2) / 40.0
  {
    TextOpacityIsTrapezoid(v1);
    TextOpacityIsTrapezoid(v2);
    Clamp01NonExpansive((v1 - 10.0) / 40.0, (v2 - 10.0) / 40.0);
    Clamp01NonExpansive(1.0 - (v1 - 150.0) / 50.0, 1.0 - (v2 - 150.0) / 50.0);
    assert Abs((v1 - 10.0) / 40.0 - (v2 - 10.0) / 40.0) == Abs(v1 - v2) / 40.0;
    assert Abs((1.0 - (v1 - 150.0) / 50.0) - (1.0 - (v2 - 150.0) / 50.0)) == Abs(v1 - v2) / 50.0;
    MinNonExpansive(IntroTextProgress(v1), TransitionTextProgress(v1),
                 IntroTextProgress(v2), TransitionTextProgress(v2), Abs(v1 - v2) / 40.0);
  }

  /** The text only fades in before 100vh and only fades out after it. */
  lemma {:induction false} TextOpacityRisesThenFalls(v1: real, v2: real)
    requires v1 <= v2
    ensures v2 <= 100.0 ==> TextOpacity(v1) <= TextOpacity(v2)
    ensures 100.0 <= v1 ==> TextOpacity(v2) <= TextOpacity(v1)
  {
    TextOpacityIsTrapezoid(v1);
    TextOpacityIsTrapezoid(v2);
    Clamp01NonExpansive((v1 - 10.0) / 40.0, (v2 - 10.0) / 40.0);
    Clamp01NonExpansive(1.0 - (v2 - 150.0) / 50.0, 1.0 - (v1 - 150.0) / 50.0);
  }

  /** The rotation angle the handler sets in intro and transition. */
  function RotationAt(v: real): (a: real)
    ensures a * 200.0 == v * 360.0
  {
    v * RotationSpeed
  }

  /** The rotation starts at 0, never decreases, stays below a full turn
      before 200vh and gets arbitrarily close to it. */
  lemma RotationShape(v1: real, v2: real, eps: real)
    requires v1 <= v2
    ensures RotationAt(0.0) == 0.0
    ensures RotationAt(v1) <= RotationAt(v2)
    ensures 0.0 <= v1 < 200.0 ==> 0.0 <= RotationAt(v1) < 360.0
    ensures eps > 0.0 ==> exists v :: 100.0 <= v < 200.0 && 360.0 - eps < RotationAt(v)
  {
    if eps > 0.0 {
      var w := Max(100.0, 200.0 - eps / 2.0);
      assert 100.0 <= w < 200.0 && 360.0 - eps < RotationAt(w);
    }
  }

  /** The exact ratio of scroll after the intro to scroll per image, in vh terms. */
  lemma SlotRatio(scrollPosition: real, windowHeight: real)
    requires windowHeight > 0.0
    ensures (scrollPosition - (TransitionPhaseEnd / 100.0) * windowHeight) / (windowHeight * ScrollPerImage)
            == (ScrollVh(scrollPosition, windowHeight) - 200.0) / 50.0
  {
    var v := ScrollVh(scrollPosition, windowHeight);
    var d := windowHeight * 0.5;
    var q := (scrollPosition - 2.0 * windowHeight) / d;
    var r := (v - 200.0) / 50.0;
    assert TransitionPhaseEnd / 100.0 == 2.0 && ScrollPerImage == 0.5;
    assert q * d == scrollPosition - 2.0 * windowHeight;
    assert r * d == (v * windowHeight - 200.0 * windowHeight) / 100.0;
    assert r * d == scrollPosition - 2.0 * windowHeight;
    CancelPositive(q, r, d);
  }

  /** The image shown in the normal phase: the 50vh slot after 200vh that
      holds the offset, capped at the last image. */
  function ImageIndex(scrollPosition: real, windowHeight: real, imageCount: int): (k: int)
    requires windowHeight > 0.0
    ensures k <= imageCount - 1
    ensures ScrollVh(scrollPosition, windowHeight) >= 200.0 && imageCount >= 1 ==> k >= 0
    ensures k < imageCount - 1 ==>
              200.0 + 50.0 * k as real <= ScrollVh(scrollPosition, windowHeight) < 250.0 + 50.0 * k as real
    ensures k == imageCount - 1 ==> 200.0 + 50.0 * k as real <= ScrollVh(scrollPosition, windowHeight)
  {
    var scrollAfterIntro := scrollPosition - (TransitionPhaseEnd / 100.0) * windowHeight;
    var scrollPerImage := windowHeight * ScrollPerImage;
    SlotRatio(scrollPosition, windowHeight);
    var slot := (scrollAfterIntro / scrollPerImage).Floor;
    if slot <= imageCount - 1 then slot else imageCount - 1
  }

  /** In one viewport the image index never decreases as the page scrolls down. */
  lemma ImageIndexMonotone(p1: real, p2: real, windowHeight: real, imageCount: int)
    requires windowHeight > 0.0 && p1 <= p2
    ensures ImageIndex(p1, windowHeight, imageCount) <= ImageIndex(p2, windowHeight, imageCount)
  {
    ScrollVhMonotone(p1, p2, windowHeight);
  }
}
