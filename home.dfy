/** The page component's scroll state and its scroll handler. */
module Home {
  import opened Scroll
  import opened Render

  /** One scroll event: the page offset and the viewport height, in pixels. */
  datatype Sample = Sample(scrollPosition: real, windowHeight: real)

  predicate ValidSample(x: Sample)
  {
    x.windowHeight > 0.0 && x.scrollPosition >= 0.0
  }

  /** The five state fields the scroll handler writes. */
  datatype PageState = PageState(
    showScrollIndicator: bool,
    currentImageIndex: int,
    scrollPhase: Phase,
    textOpacity: real,
    rotationAngle: real)

  /** The state before the first scroll event. */
  const Initial: PageState := PageState(true, 0, Intro, 0.0, 0.0)

  /** The bounds every state the page reaches keeps. */
  predicate Inv(imageCount: int, s: PageState)
  {
    0 <= s.currentImageIndex < imageCount
    && 0.0 <= s.textOpacity <= 1.0
    && 0.0 <= s.rotationAngle < 360.0
  }

  /** The effect of one scroll event on the state. */
  function Step(s: PageState, imageCount: int, x: Sample): (t: PageState)
    requires ValidSample(x)
    ensures t.scrollPhase == PhaseOf(ScrollVh(x.scrollPosition, x.windowHeight))
    ensures t.textOpacity == TextOpacity(ScrollVh(x.scrollPosition, x.windowHeight))
    ensures t.scrollPhase != Normal ==>
              t.rotationAngle == RotationAt(ScrollVh(x.scrollPosition, x.windowHeight))
              && t.currentImageIndex == s.currentImageIndex
    ensures t.scrollPhase == Normal ==>
              t.rotationAngle == s.rotationAngle
              && t.currentImageIndex == ImageIndex(x.scrollPosition, x.windowHeight, imageCount)
    ensures t.showScrollIndicator == (s.showScrollIndicator && x.scrollPosition <= 50.0)
  {
    var scrollVh := ScrollVh(x.scrollPosition, x.windowHeight);
    var t :=
      if scrollVh < IntroPhaseEnd then
        s.(scrollPhase := Intro,
           textOpacity := IntroTextProgress(scrollVh),
           rotationAngle := RotationAt(scrollVh))
      else if scrollVh < TransitionPhaseEnd then
        s.(scrollPhase := Transition,
           textOpacity := TransitionTextProgress(scrollVh),
           rotationAngle := RotationAt(scrollVh))
      else
        s.(scrollPhase := Normal,
           textOpacity := 0.0,
           currentImageIndex := ImageIndex(x.scrollPosition, x.windowHeight, imageCount));
    if x.scrollPosition > 50.0 then t.(showScrollIndicator := false) else t
  }

  /** The state after a sequence of scroll events, handled in order. */
  function Run(s: PageState, imageCount: int, xs: seq<Sample>): PageState
    requires forall i :: 0 <= i < |xs| ==> ValidSample(xs[i])
  {
    if |xs| == 0 then s
    else Step(Run(s, imageCount, xs[..|xs| - 1]), imageCount, xs[|xs| - 1])
  }

  /** One event keeps the bounds. */
  lemma StepKeepsInv(s: PageState, imageCount: int, x: Sample)
    requires ValidSample(x) && Inv(imageCount, s)
    ensures Inv(imageCount, Step(s, imageCount, x))
  {
  }

  /** Every state reached from the initial one keeps the bounds: the image
      index stays in the gallery, the opacity in [0,1], the angle below a turn. */
  lemma {:induction false} RunKeepsInv(imageCount: int, xs: seq<Sample>)
    requires imageCount >= 1
    requires forall i :: 0 <= i < |xs| ==> ValidSample(xs[i])
    ensures Inv(imageCount, Run(Initial, imageCount, xs))
  {
    if |xs| > 0 {
      RunKeepsInv(imageCount, xs[..|xs| - 1]);
      StepKeepsInv(Run(Initial, imageCount, xs[..|xs| - 1]), imageCount, xs[|xs| - 1]);
    }
  }

  /** The scroll indicator is a latch: it is still shown exactly when it was
      shown before and no event went past 50 pixels. */
  lemma {:induction false} RunLatchesIndicator(s: PageState, imageCount: int, xs: seq<Sample>)
    requires forall i :: 0 <= i < |xs| ==> ValidSample(xs[i])
    ensures Run(s, imageCount, xs).showScrollIndicator
            == (s.showScrollIndicator && forall i :: 0 <= i < |xs| ==> xs[i].scrollPosition <= 50.0)
  {
    if |xs| > 0 {
      var ys := xs[..|xs| - 1];
      RunLatchesIndicator(s, imageCount, ys);
      assert forall i :: 0 <= i < |ys| ==> ys[i] == xs[i];
    }
  }

  /** Once hidden, the indicator stays hidden whatever events follow. */
  lemma {:induction false} IndicatorNeverReturns(s: PageState, imageCount: int, xs: seq<Sample>, ys: seq<Sample>)
    requires forall i :: 0 <= i < |xs| ==> ValidSample(xs[i])
    requires forall i :: 0 <= i < |ys| ==> ValidSample(ys[i])
    requires !Run(s, imageCount, xs).showScrollIndicator
    ensures !Run(s, imageCount, xs + ys).showScrollIndicator
  {
    var zs := xs + ys;
    assert forall i :: 0 <= i < |xs| ==> zs[i] == xs[i];
    RunLatchesIndicator(s, imageCount, xs);
    RunLatchesIndicator(s, imageCount, zs);
  }

  /** Outside the normal phase the stored image index is left as it was. */
  lemma {:induction false} IndexFrozenOutsideNormal(s: PageState, imageCount: int, xs: seq<Sample>)
    requires forall i :: 0 <= i < |xs| ==>
               ValidSample(xs[i]) && PhaseOf(ScrollVh(xs[i].scrollPosition, xs[i].windowHeight)) != Normal
    ensures Run(s, imageCount, xs).currentImageIndex == s.currentImageIndex
  {
    if |xs| > 0 {
      IndexFrozenOutsideNormal(s, imageCount, xs[..|xs| - 1]);
    }
  }

  /** The image the visibility rule shows after an event, from any earlier
      state, is the one `ShownImage` names for that event's sample. */
  lemma ShownImageIsVisible(s: PageState, imageCount: int, x: Sample, index: int)
    requires ValidSample(x)
    ensures var t := Step(s, imageCount, x);
            IsVisible(t.scrollPhase, t.currentImageIndex, index)
            == (index == ShownImage(x.scrollPosition, x.windowHeight, imageCount))
  {
  }

  /** What is rendered after an event depends on that event alone, not on
      the scroll history: the visible image, the rotating image and its
      angle, and the text opacity. Only the indicator latch remembers. */
  lemma StepForgetsHistory(s1: PageState, s2: PageState, imageCount: int, x: Sample, index: int)
    requires ValidSample(x)
    ensures var t1, t2 := Step(s1, imageCount, x), Step(s2, imageCount, x);
            IsVisible(t1.scrollPhase, t1.currentImageIndex, index)
              == IsVisible(t2.scrollPhase, t2.currentImageIndex, index)
            && ShouldRotate(t1.scrollPhase, index) == ShouldRotate(t2.scrollPhase, index)
            && (ShouldRotate(t1.scrollPhase, index) ==> t1.rotationAngle == t2.rotationAngle)
            && t1.textOpacity == t2.textOpacity
  {
  }

  /** Self-contained form of the above: scrolling anywhere and then back to
      the same offset renders the same frame as arriving there directly. */
  lemma {:induction false} ReturnRendersSame(imageCount: int, xs: seq<Sample>, ys: seq<Sample>, x: Sample, index: int)
    requires forall i :: 0 <= i < |xs| ==> ValidSample(xs[i])
    requires forall i :: 0 <= i < |ys| ==> ValidSample(ys[i])
    requires ValidSample(x)
    ensures var t1, t2 := Run(Initial, imageCount, xs + [x]), Run(Initial, imageCount, ys + [x]);
            IsVisible(t1.scrollPhase, t1.currentImageIndex, index)
              == IsVisible(t2.scrollPhase, t2.currentImageIndex, index)
            && ShouldRotate(t1.scrollPhase, index) == ShouldRotate(t2.scrollPhase, index)
            && (ShouldRotate(t1.scrollPhase, index) ==> t1.rotationAngle == t2.rotationAngle)
            && t1.textOpacity == t2.textOpacity
  {
    assert (xs + [x])[..|xs|] == xs;
    assert (ys + [x])[..|ys|] == ys;
    StepForgetsHistory(Run(Initial, imageCount, xs), Run(Initial, imageCount, ys), imageCount, x, index);
  }

  /** The page component: its state fields and the scroll handler that updates them. */
  class Home {
    /** Number of images in the gallery. */
    const imageCount: int
    var showScrollIndicator: bool
    var currentImageIndex: int
    var scrollPhase: Phase
    var textOpacity: real
    var rotationAngle: real

    function State(): PageState
      reads this
    {
      PageState(showScrollIndicator, currentImageIndex, scrollPhase, textOpacity, rotationAngle)
    }

    ghost predicate Valid()
      reads this
    {
      Inv(imageCount, State())
    }

    /** The state the fields start in. */
    constructor (imageCount: int)
      requires imageCount >= 1
      ensures this.imageCount == imageCount
      ensures State() == Initial && Valid()
    {
      this.imageCount := imageCount;
      showScrollIndicator := true;
      currentImageIndex := 0;
      scrollPhase := Intro;
      textOpacity := 0.0;
      rotationAngle := 0.0;
    }

    /** Handles one scroll event. */
    method HandleScroll(scrollPosition: real, windowHeight: real)
      requires Valid() && windowHeight > 0.0 && scrollPosition >= 0.0
      modifies this
      ensures Valid()
      ensures State() == Step(old(State()), imageCount, Sample(scrollPosition, windowHeight))
      ensures scrollPhase == PhaseOf(ScrollVh(scrollPosition, windowHeight))
      ensures scrollPhase != Normal ==> currentImageIndex == old(currentImageIndex)
      ensures showScrollIndicator == (old(showScrollIndicator) && scrollPosition <= 50.0)
    {
      var scrollVh := (scrollPosition / windowHeight) * 100.0;
      if scrollVh < IntroPhaseEnd {
        scrollPhase := Intro;
        var textProgress := Max(0.0, Min(1.0, (scrollVh - 10.0) / 40.0));
        textOpacity := textProgress;
        rotationAngle := scrollVh * RotationSpeed;
      } else if scrollVh < TransitionPhaseEnd {
        scrollPhase := Transition;
        var textProgress := Max(0.0, Min(1.0, 1.0 - (scrollVh - 150.0) / 50.0));
        textOpacity := textProgress;
        rotationAngle := scrollVh * RotationSpeed;
      } else {
        scrollPhase := Normal;
        textOpacity := 0.0;
        var scrollAfterIntro := scrollPosition - (TransitionPhaseEnd / 100.0) * windowHeight;
        var scrollPerImage := windowHeight * ScrollPerImage;
        var slot := (scrollAfterIntro / scrollPerImage).Floor;
        var imageIndex := if slot <= imageCount - 1 then slot else imageCount - 1;
        currentImageIndex := imageIndex;
      }
      if scrollPosition > 50.0 {
        showScrollIndicator := false;
      }
      StepKeepsInv(old(State()), imageCount, Sample(scrollPosition, windowHeight));
    }
  }
}
