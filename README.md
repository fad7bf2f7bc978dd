# Voyager scroll reel: a Dafny model of the scroll handler

The page `src/app/page.tsx` shows a gallery of overlaid images driven by the
vertical scroll offset. One scroll handler turns each sample
`(scrollPosition, windowHeight)` into a scroll offset in viewport-height
units (vh). It puts that offset into one of three contiguous phases: `intro`
below 100vh, `transition` from 100vh to 200vh, and `normal` from 200vh on.
It then updates five state fields:

- the phase;
- a text opacity that fades in from 10vh to 50vh and out from 150vh to 200vh;
- a rotation angle that reaches a full turn at 200vh;
- the index of the current image, one image per 50vh after 200vh, written only in `normal`;
- a scroll indicator that is hidden for good once the offset passes 50 pixels.

The render applies two per-image rules to that state. The first says which single image is visible. The second says whether the image rotates. The height of the scroll spacer is a third pure expression.

The model has three modules, all for `src/app/page.tsx`:

- `Scroll` (`scroll.dfy`): the constants, the phases, the text fades, the rotation and the image index. All are pure functions over exact `real` arithmetic, with lemmas about them.
- `Render` (`render.dfy`): the visibility and rotation rules, the spacer height, and the lemmas about them.
- `Home` (`home.dfy`): the state as a value `PageState`, the effect of one event as a function `Step`, and a sequence of events as `Run`. It also holds the lemmas over any scroll history, and the component as a class `Home` whose `HandleScroll` method updates its fields in place and is proved to follow `Step`.

The number of images, `imageConfigs.length`, is the parameter `imageCount`. The gallery in `src/app/imageConfig.ts` has nine entries. `Math.floor` is `.Floor`. `window.scrollY` and `window.innerHeight` are the method's arguments. The model requires `windowHeight > 0` and `scrollPosition >= 0`.

## Model

| member | source | states |
|---|---|---|
| Scroll.ScrollVh | src/app/page.tsx:25 | the vh offset `v` satisfies `v * windowHeight == scrollPosition * 100`, and is non-negative for a non-negative offset |
| Scroll.ScrollVhMonotone | src/app/page.tsx:25 | for a fixed viewport the vh offset never decreases as the pixel offset grows |
| Scroll.PhaseOf | src/app/page.tsx:27-43 | intro iff `v < 100`, transition iff `100 <= v < 200`, normal iff `200 <= v`, so exactly one phase holds for every offset |
| Scroll.PhaseOfMonotone | src/app/page.tsx:27-43 | scrolling further never moves to an earlier phase |
| Scroll.Clamp01 | src/app/page.tsx:31 | the result is in [0,1]; it is the input when the input lies in [0,1] and the nearest endpoint otherwise |
| Scroll.IntroTextProgress | src/app/page.tsx:30-32 | in [0,1]; 0 up to 10vh, 1 from 50vh, and linear in between (`r * 40 == v - 10`) |
| Scroll.TransitionTextProgress | src/app/page.tsx:37-39 | in [0,1]; 1 up to 150vh, 0 from 200vh, and linear in between (`r * 50 == 200 - v`) |
| Scroll.TextOpacity | src/app/page.tsx:28-44 | the opacity set for any offset is in [0,1] |
| Scroll.TextOpacityShape | src/app/page.tsx:28-44 | 0 for `v <= 10`, 1 for `50 <= v <= 150`, 0 for `v >= 200`; it is positive only strictly between 10vh and 200vh |
| Scroll.TextOpacityIsTrapezoid | src/app/page.tsx:28-44 | across all three phases the opacity equals the minimum of the fade-in and the fade-out, one trapezoid with no jump at 100vh or 200vh |
| Scroll.TextOpacityLipschitz | src/app/page.tsx:28-44 | continuity across the phase boundaries: two offsets give opacities at most `|v1 - v2| / 40` apart |
| Scroll.TextOpacityRisesThenFalls | src/app/page.tsx:28-44 | the opacity never decreases up to 100vh and never increases from 100vh on |
| Scroll.RotationAt | src/app/page.tsx:8-12 | the angle is `v * 360 / 200`: one full turn over intro plus transition |
| Scroll.RotationShape | src/app/page.tsx:33-41 | the angle is 0 at offset 0, never decreases, stays in [0,360) below 200vh, and comes within any `eps > 0` of 360 inside the transition |
| Scroll.SlotRatio | src/app/page.tsx:46-49 | the pixel ratio `scrollAfterIntro / scrollPerImage` equals `(v - 200) / 50` |
| Scroll.ImageIndex | src/app/page.tsx:45-51 | the index is at most `imageCount - 1` and at least 0 from 200vh on; an index below the cap is the 50vh slot `[200 + 50k, 250 + 50k)` holding the offset; the capped index has offset at least `200 + 50k` |
| Scroll.ImageIndexMonotone | src/app/page.tsx:46-52 | for a fixed viewport the image index never decreases as the offset grows |
| Render.IsVisible | src/app/page.tsx:80-82 | the visibility rule per image; its meaning is stated by `Render.ExactlyOneVisible` |
| Render.ShouldRotate | src/app/page.tsx:85 | the rotation rule per image; its meaning is stated by `Render.RotatesOnlyVisibleFirst` |
| Render.TotalHeight | src/app/page.tsx:68-70 | the spacer height in vh; what it lets the page reach is stated by `Render.LastImageNeverShown` |
| Render.ExactlyOneVisible | src/app/page.tsx:79-82 | with the current index in the gallery, the visible set is exactly the current index in `normal` and exactly `{0}` otherwise, so its size is 1 |
| Render.RotatesOnlyVisibleFirst | src/app/page.tsx:84-88 | an image rotates iff it is image 0 in intro or transition, and a rotating image is the visible one |
| Render.LastImageNeverShown | src/app/page.tsx:67-70 | with the spacer as written, no reachable offset shows image `imageCount - 1` once there are at least two images |
| Render.EveryImageShown | src/app/page.tsx:67-70 | with the corrected spacer, every image index has a reachable offset that shows it |
| Home.Step | src/app/page.tsx:22-59 | one event sets the phase, the opacity and (outside `normal`) the angle from the pure functions of its vh offset; outside `normal` it keeps the image index, in `normal` it keeps the angle and writes `ImageIndex`; the indicator stays shown iff it was shown and the offset is at most 50 |
| Home.StepKeepsInv | src/app/page.tsx:22-59 | one event keeps the index in the gallery, the opacity in [0,1] and the angle in [0,360) |
| Home.RunKeepsInv | src/app/page.tsx:15-59 | every state reachable from the initial one by any sequence of events keeps those bounds |
| Home.RunLatchesIndicator | src/app/page.tsx:55-58 | after any sequence of events the indicator is shown iff it was shown before and no event's offset exceeded 50 pixels |
| Home.IndicatorNeverReturns | src/app/page.tsx:55-58 | once hidden, the indicator stays hidden whatever events follow |
| Home.IndexFrozenOutsideNormal | src/app/page.tsx:28-53 | a run of events none of which is in `normal` leaves the image index unchanged |
| Home.ShownImageIsVisible | src/app/page.tsx:22-82 | after any event from any state, an image is visible by the render rule iff it is the image `ShownImage` names for that sample, so the spacer lemmas speak of the rendered image |
| Home.StepForgetsHistory | src/app/page.tsx:22-88 | after an event, the visible image, the rotating image, its angle and the text opacity depend only on that event, not on the earlier state |
| Home.ReturnRendersSame | src/app/page.tsx:22-88 | two scroll histories that end at the same sample render the same visible image, rotate the same image by the same angle, and show the same text opacity |
| Home.Home.constructor | src/app/page.tsx:15-19 | the fields start as indicator shown, index 0, phase intro, opacity 0 and angle 0, which satisfies the bounds |
| Home.Home.HandleScroll | src/app/page.tsx:22-59 | updates the five fields exactly as `Step` of the old state, keeps the bounds, sets the phase of the offset, leaves the index alone outside `normal`, and only ever clears the indicator |

## Left out

- React wiring is not modelled: `useState`/`useEffect`, adding and removing the scroll listener, and the extra `handleScroll()` call on mount. That call is one more sample, and `Run` covers any sequence of samples.
- `window.scrollY` and `window.innerHeight` are passed in as arguments. The model assumes the viewport height is positive and the offset is non-negative; it does not model the negative offset a browser can report during overscroll.
- JSX presentation is not modelled: the `Image` elements, framer-motion transitions, CSS positioning and scale, the `transform` string, the red guide circle, and the text and overlay shown while `textOpacity > 0`.
- Floating-point rounding is not modelled: arithmetic is exact `real`.
- `src/app/imageConfig.ts` is not part of this model. Only its length is used, as `imageCount`.
- `src/app/LandingPage.tsx` and `src/app/layout.tsx` are not part of this model: they hold a splash screen and page metadata.
- Home.Home.constructor: requires `imageCount >= 1`. The gallery is a fixed, non-empty list, and with no images the code would store index -1.
- Render.LastImageNeverShown: models how far a browser can scroll as the spacer height less one viewport (`MaxScrollVh`). This assumes the document is exactly as tall as the spacer, and that CSS `100vh` equals `window.innerHeight`. The second assumption fails on mobile browsers whose `vh` is sized on the viewport without toolbars: with `100vh` = 1.1 × `innerHeight` and nine images, the page reaches 615 handler-vh and does show image 8.

## Findings

| source | as written | input that shows it | evidently intended | confidence | as-written member | corrected member |
|---|---|---|---|---|---|---|
| src/app/page.tsx:67-70 | the spacer is `200 + 50 * N` vh tall, so the page can scroll to at most `100 + 50 * N` vh | N = 9, the gallery's size: the spacer is 650vh, the deepest offset is 550vh, giving index `floor((550 - 200) / 50) = 7`; image 8 is never shown | every image gets its 50vh slot after 200vh, so the last image shows at `200 + 50 * (N - 1)` vh; this needs one more viewport of spacer | medium: it assumes the page is exactly as tall as the spacer and that CSS `100vh` equals `window.innerHeight` (not so on mobile browsers with visible toolbars); `globals.css` is not part of this model; not executed | Render.LastImageNeverShown | Render.EveryImageShown |

The corrected spacer is `Render.CorrectedTotalHeight`. No other part of the model depends on the spacer height.
