/** What the page renders from the scroll state: which image of the gallery
    is visible, which one rotates, and how tall the scroll spacer is. */
module Render {
  import opened Scroll

  /** The visibility rule applied to the image at `index`. */
  function IsVisible(phase: Phase, currentImageIndex: int, index: int): bool
  {
    if phase == Normal then currentImageIndex == index else index == 0
  }

  /** The rotation rule applied to the image at `index`. */
  function ShouldRotate(phase: Phase, index: int): bool
  {
    index == 0 && phase != Normal
  }

  /** The indices of the gallery of `imageCount` images that are visible. */
  function VisibleSet(phase: Phase, currentImageIndex: int, imageCount: int): set<int>
  {
    set index | 0 <= index < imageCount && IsVisible(phase, currentImageIndex, index)
  }

  /** Exactly one image is visible: the current one in the normal phase,
      the first one before it. */
  lemma {:induction false} ExactlyOneVisible(phase: Phase, currentImageIndex: int, imageCount: int)
    requires 0 <= currentImageIndex < imageCount
    ensures VisibleSet(phase, currentImageIndex, imageCount)
            == {if phase == Normal then currentImageIndex else 0}
    ensures |VisibleSet(phase, currentImageIndex, imageCount)| == 1
  {
    var k := if phase == Normal then currentImageIndex else 0;
    var s := VisibleSet(phase, currentImageIndex, imageCount);
    assert k in s;
    forall i | i in s ensures i == k {
    }
    assert s == {k};
  }

  /** Only the first image ever rotates, only outside the normal phase,
      and the rotating image is the visible one. */
  lemma RotatesOnlyVisibleFirst(phase: Phase, currentImageIndex: int, index: int)
    ensures ShouldRotate(phase, index) <==> index == 0 && phase in {Intro, Transition}
    ensures ShouldRotate(phase, index) ==> IsVisible(phase, currentImageIndex, index)
  {
  }

  /** Height of the scroll spacer, in vh: intro and transition, then 50vh per image. */
  function TotalHeight(imageCount: int): real
  {
    var introHeight := TransitionPhaseEnd;
    var normalScrollHeight := imageCount as real * ScrollPerImage * 100.0;
    introHeight + normalScrollHeight
  }

  /** The largest vh offset a browser can scroll to on a page whose content
      is `contentVh` tall: the content height less one viewport. This reads
      the spacer's CSS `vh` and the handler's `innerHeight / 100` as the same
      unit, which holds when the CSS viewport is the window's inner height. */
  function MaxScrollVh(contentVh: real): real
  {
    contentVh - 100.0
  }

  /** The image the visibility rule picks right after a sample at this offset. */
  function ShownImage(scrollPosition: real, windowHeight: real, imageCount: int): int
    requires windowHeight > 0.0
  {
    if PhaseOf(ScrollVh(scrollPosition, windowHeight)) == Normal
    then ImageIndex(scrollPosition, windowHeight, imageCount)
    else 0
  }

  /** With the spacer as written, no offset the page can reach shows the
      last image of a gallery of two or more. */
  lemma LastImageNeverShown(scrollPosition: real, windowHeight: real, imageCount: int)
    requires windowHeight > 0.0 && scrollPosition >= 0.0 && imageCount >= 2
    requires ScrollVh(scrollPosition, windowHeight) <= MaxScrollVh(TotalHeight(imageCount))
    ensures ShownImage(scrollPosition, windowHeight, imageCount) < imageCount - 1
  {
  }

  /** The spacer extended by the viewport that stays on screen at the bottom of the page. */
  function CorrectedTotalHeight(imageCount: int): real
  {
    TotalHeight(imageCount) + 100.0
  }

  /** With the corrected spacer, every image of the gallery is shown at some reachable offset. */
  lemma {:induction false} EveryImageShown(windowHeight: real, imageCount: int, k: int)
    requires windowHeight > 0.0 && 0 <= k < imageCount
    ensures exists p :: 0.0 <= p && ScrollVh(p, windowHeight) <= MaxScrollVh(CorrectedTotalHeight(imageCount))
                        && ShownImage(p, windowHeight, imageCount) == k
  {
    if k == 0 {
      assert ScrollVh(0.0, windowHeight) == 0.0 by {
        CancelPositive(ScrollVh(0.0, windowHeight), 0.0, windowHeight);
      }
      assert ShownImage(0.0, windowHeight, imageCount) == 0;
    } else {
      var v := 200.0 + 50.0 * k as real;
      var p := v * windowHeight / 100.0;
      assert ScrollVh(p, windowHeight) == v by {
        CancelPositive(ScrollVh(p, windowHeight), v, windowHeight);
      }
      assert ShownImage(p, windowHeight, imageCount) == k;
      assert 0.0 <= p;
    }
  }
}
