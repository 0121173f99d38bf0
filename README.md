# Lab-grown diamond landing page: interaction state, in Dafny

This project models the two pieces of interaction state of the landing page's front end and the
pure helpers around them, and proves what their handlers promise.

- **Collection viewer** (`client/src/components/Collection.tsx`, module `Collection`). The state is
  `selectedDiamond` (nothing, or the id 1..5 of one diamond) and `showDetails`. A click runs the
  React handlers on its bubbling path, innermost first, until one calls `stopPropagation`. Every
  handler reads the state of the render that created it, and the writes of one click are batched.
  `Path` gives each clickable element's handlers, `Run` runs one handler, `Dispatch` bubbles a
  click and `Click` is the state after it. The class `Viewer` holds the two state fields. It has
  one method per clickable element, written as the handlers run, and each method is proved equal
  to `Click`. The Close button does not stop propagation, so the overlay's handler runs after
  `handleBack`, with the render's `showDetails`. From `(k, hidden)` Close therefore ends in
  `(nothing, shown)`, and the next card opens with its details already showing. The model keeps
  this behaviour (`ClickEffects`, `CloseThenSelectOpensWithDetails`). The pure helpers are the V
  layout offset `YOffset`, the edge-scroll zone `EdgeZone` and the progress indicator `BarLit`.
- **AI-visual panel** (`client/src/pages/home.tsx`, module `Home`). This is a most-recent-first
  list of image URLs, cut to three, with the re-entry guard `isGenerating`. The asynchronous
  `onGenerate` is split into its press half (up to the `await`) and its completion half, which
  takes the generator's URL as a parameter. `Step`/`Replay` give the pure transition system, and
  the class `AiVisuals` holds the two state fields. `AiVisible` is the `aiVisible` derivation. The
  class `SplineEmbed` holds the one-way `hasError` flag of the 3D embed.

Mouse geometry, which is floating point in the browser, is modelled with Dafny's `real`.

## Model

| member | source | states |
|---|---|---|
| `Collection.NextId` | client/src/components/Collection.tsx:134 | Next moves to a diamond id in 1..5 that differs from the current one and is its cyclic successor: (r - 1) equals k mod 5, so 5 wraps to 1 |
| `Collection.NextTimesAdvances` | client/src/components/Collection.tsx:131-138 | n successive Next steps (handleNext with a diamond selected) advance the selection by n places modulo the five diamonds: it is diamond ((k - 1 + n) mod 5) + 1 |
| `Collection.NextReachesEveryDiamond` | client/src/components/Collection.tsx:131-138 | from any diamond, successive Next steps reach every diamond; `StepsBetween` gives the number of steps, which is below five |
| `Collection.NextReturnsIffMultipleOfFive` | client/src/components/Collection.tsx:131-138 | successive Next steps return to the starting diamond exactly when their number is a multiple of five |
| `Collection.Rendered` | client/src/components/Collection.tsx:153-199 | a card is in the document exactly while nothing is selected, the overlay and Close only while something is, and the details panel and Next only while the details are shown |
| `Collection.Path` | client/src/components/Collection.tsx:180-230 | every click meets at least one handler. Only a click on the overlay itself meets the overlay's handler first. Every click inside the overlay ends at the overlay's handler, and card clicks never do. Exactly the details panel and its Next button carry the panel's handler. A Close click meets handleBack and then the overlay's handler |
| `Collection.Run` | client/src/components/Collection.tsx:131-143 | a handler keeps the queued state valid, and only the details panel's handler and handleNext stop propagation |
| `Collection.Dispatch` | client/src/components/Collection.tsx:185 | bubbling a click whose card handlers select real ids leaves a valid selection |
| `Collection.Reached` | client/src/components/Collection.tsx:204 | the handlers that run are a prefix of the bubbling path, none of them except the last stops propagation, and either the whole path runs or the last one run is the details panel's handler or handleNext |
| `Collection.DispatchAppliesReached` | client/src/components/Collection.tsx:131-143 | the state after a click is exactly the writes of the handlers `Reached` runs, each applied on top of the previous ones: handlers past a stopPropagation write nothing |
| `Collection.Click` | client/src/components/Collection.tsx:158-230 | every click on a rendered element leaves the selection empty or one of the ids 1..5 |
| `Collection.ClickEffects` | client/src/components/Collection.tsx:131-230 | card k selects k and keeps showDetails. Overlay with details hidden shows them and keeps the selection. Overlay with details shown equals Close and resets both. Details panel changes nothing. Next selects the successor and hides details. Close clears the selection and flips showDetails: (k,false) gives (null,true) and (k,true) gives (null,false) |
| `Collection.HandlerFacts` | client/src/components/Collection.tsx:131-143 | handleNext writes nothing when nothing is selected. handleBack resets both fields whatever the prior state. The overlay handler with details shown is exactly handleBack |
| `Collection.PropagationStops` | client/src/components/Collection.tsx:185-230 | clicks on the details panel or its Next button never reach the overlay handler; a Close click runs handleBack and then the overlay handler |
| `Collection.Replay` | client/src/components/Collection.tsx:45-46 | after any sequence of clicks on rendered elements the selection is empty or one of the ids 1..5 |
| `Collection.NextThenBackdropReopens` | client/src/components/Collection.tsx:131-138 | from diamond k with details shown, Next then a click on the overlay is a playable click sequence, and it ends on the successor with details shown again |
| `Collection.NextRoundsAdvance` | client/src/components/Collection.tsx:131-186 | n rounds of Next followed by an overlay click are playable from diamond k with details shown, and end on the diamond n steps on with details shown |
| `Collection.CloseThenSelectOpensWithDetails` | client/src/components/Collection.tsx:225-230 | from the initial state, card, Close, card opens the second diamond with its details already shown |
| `Collection.YOffset` | client/src/components/Collection.tsx:55-59 | the V offset is a non-negative multiple of 60 and is zero exactly for the centre card |
| `Collection.YOffsetShape` | client/src/components/Collection.tsx:55-59 | the offset is symmetric about the centre card. Cards 1 and 3 get 60 and cards 0 and 4 get 120. The offset grows strictly with the distance from the centre |
| `Collection.GroupOffsetsMatchCards` | client/src/components/Collection.tsx:68-89 | the right-hand callback (i + 3 over cards 3, 4) and the left-hand callback (1 - i over cards 1, 0) each give every card its own V offset |
| `Collection.EdgeZone` | client/src/components/Collection.tsx:95-113 | the zone is left iff x < 150. It is right iff x >= 150 and x > width - 150. Otherwise it is none |
| `Collection.EdgeBandsOverlapIffNarrow` | client/src/components/Collection.tsx:99-113 | some x lies in both edge bands iff width < 300, and at any such x the left edge wins |
| `Collection.MiddleExistsIffWide` | client/src/components/Collection.tsx:99-113 | some mouse position leaves scrolling stopped iff width >= 300 |
| `Collection.BarLit` | client/src/components/Collection.tsx:238 | bar i is lit iff a diamond is selected and it is the diamond of card i |
| `Collection.IndicatorMarksSelection` | client/src/components/Collection.tsx:236-240 | the lit bars are exactly bar k-1 when diamond k is selected, and none when nothing is |
| `Collection.AtMostOneBarLit` | client/src/components/Collection.tsx:238 | no two bars are lit at once |
| `Collection.Viewer.constructor` | client/src/components/Collection.tsx:45-46 | initially nothing is selected and details are hidden |
| `Collection.Viewer.HandleBack` | client/src/components/Collection.tsx:140-143 | clears the selection and hides details |
| `Collection.Viewer.HandleNext` | client/src/components/Collection.tsx:131-138 | with nothing selected in the render nothing changes; otherwise selects the successor and hides details |
| `Collection.Viewer.OnOverlay` | client/src/components/Collection.tsx:185 | with the render's details hidden, shows them and keeps the selection; otherwise acts as handleBack |
| `Collection.Viewer.ClickCard` | client/src/components/Collection.tsx:158-162 | equals `Click` on the card: selects id index+1 and leaves showDetails as it was |
| `Collection.Viewer.ClickBackdrop` | client/src/components/Collection.tsx:180-186 | equals `Click` on the overlay: shows the details, or closes when they are shown |
| `Collection.Viewer.ClickDetailsPanel` | client/src/components/Collection.tsx:199-205 | a click inside the details panel leaves the state as it is |
| `Collection.Viewer.ClickNext` | client/src/components/Collection.tsx:215-216 | equals `Click` on Next: successor selected, details hidden |
| `Collection.Viewer.ClickClose` | client/src/components/Collection.tsx:225-230 | equals `Click` on Close: selection cleared and showDetails flipped |
| `Home.Take` | client/src/pages/home.tsx:335 | `slice(0, n)`: the result has min(length, n) entries and they are the list's first entries in order |
| `Home.PushRecent` | client/src/pages/home.tsx:334-337 | a completion puts the new URL at index 0, followed by the previous URLs in their order. The new length is min(old length + 1, 3) |
| `Home.PushRecentDropsOldest` | client/src/pages/home.tsx:335 | on a full list a completion drops exactly the oldest URL |
| `Home.AfterCompletionsIsMostRecentFirst` | client/src/pages/home.tsx:334-337 | after any completions the list is the completed URLs newest first, then the earlier list, cut to three |
| `Home.GallerySize` | client/src/pages/home.tsx:144 | from the initial two images the length is min(completions + 2, 3): one completion fills the list |
| `Home.Step` | client/src/pages/home.tsx:329-340 | a press while generating changes nothing. A press otherwise sets the flag and keeps the list. A completion clears the flag and pushes its URL |
| `Home.ReplayUrls` | client/src/pages/home.tsx:329-340 | presses never touch the list: after any events it depends on the completed URLs alone |
| `Home.PanelFromStart` | client/src/pages/home.tsx:144-145 | from the initial state, after any events the list holds at most three URLs: the latest completions newest first, then the initial images |
| `Home.ButtonDisabledIffLastWasPress` | client/src/pages/home.tsx:512-519 | from the initial state, after any events the Generate button is disabled exactly when the last event was a press: from a press to its completion |
| `Home.At` | client/src/pages/home.tsx:342 | `a[i]` is defined exactly for an index within the list, and then it is the entry at that index |
| `Home.Truthy` | client/src/pages/home.tsx:342 | `undefined` and the empty string are falsy, every other string is truthy |
| `Home.KeepTruthy` | client/src/pages/home.tsx:342 | `filter(Boolean)` keeps only defined non-empty entries, and keeps all of them exactly when all are truthy |
| `Home.NonEmptyOf` | client/src/pages/home.tsx:342 | the non-empty entries of a list: no more of them than entries, and none empty |
| `Home.SlotsFilterToFirstThree` | client/src/pages/home.tsx:342 | filtering the three slots a[0], a[1], a[2] gives the non-empty entries among the first three URLs, in order, also when the list is shorter than three |
| `Home.AiVisible` | client/src/pages/home.tsx:342 | the visible images are exactly the non-empty entries among the first three URLs, in their order, so at most three |
| `Home.VisibleIsFirstThree` | client/src/pages/home.tsx:342 | with no empty URL, the visible images are the first three URLs in order |
| `Home.PanelShowsWholeList` | client/src/pages/home.tsx:529-538 | when every delivered URL is non-empty, image i renders URL i of the list, for every entry of the list |
| `Home.AiVisuals.constructor` | client/src/pages/home.tsx:144-145 | starts with the two bundled images and no generation in flight |
| `Home.AiVisuals.OnGenerateStart` | client/src/pages/home.tsx:329-331 | starts a generation iff none is in flight; either way the flag is then set and the list unchanged |
| `Home.AiVisuals.OnGenerateComplete` | client/src/pages/home.tsx:333-339 | the URL goes to index 0, followed by the two newest previous URLs, and the flag is cleared |
| `Home.SplineEmbed.constructor` | client/src/pages/home.tsx:101 | hasError starts false and the iframe is shown |
| `Home.SplineEmbed.OnError` | client/src/pages/home.tsx:115 | an iframe error sets hasError; no operation clears it |
| `Home.SplineEmbed.View` | client/src/pages/home.tsx:108-126 | the fallback image is rendered exactly when hasError holds |

## Left out

- The GSAP scroll timelines of the home page (`client/src/pages/home.tsx:165-327`) and the
  entrance timeline of the collection: tweening, pinning and easing happen inside the animation
  library. Only the offsets the collection's timeline is given (`YOffset`) are modelled.
- The Lenis smooth-scroll loop (`requestAnimationFrame`): timer and rendering plumbing.
- The `setInterval` that scrolls the strip by 5 pixels every 10 ms, and the wiring of the
  `mousemove`/`mouseleave` listeners. Only the zone classification is modelled. Pixel geometry is a
  `real`, so rounding and NaN are not modelled.
- The mock generator's 650 ms delay and its random choice between the two bundled images. Its URL
  is the parameter of the completion. The prompt text box (`aiPrompt`) only feeds that generator,
  which ignores it.
- `client/src/components/Hero.tsx` and `client/src/components/Transformation.tsx` are not part of
  this model: they hold animation configuration and markup only.
- framer-motion animations, styling, copy, and the diamond data apart from the ids 1..5. The
  `diamonds.find` lookup for the displayed name and image is not modelled.
- Two presses within one render: each event is assumed to see the state re-rendered after the
  previous event, so `isGenerating` is never read stale.
- `Home.KeepTruthy`: its own contract does not state the order of the kept entries. The order of
  what the page shows is stated by `Home.AiVisible` through `Home.NonEmptyOf`.
- `Collection.Viewer` click methods require the clicked element to be rendered in the current
  state. A click on an absent element cannot happen.
