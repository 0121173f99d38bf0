/**
 * The collection viewer of the landing page (client/src/components/Collection.tsx).
 *
 * The component keeps two pieces of React state: `selectedDiamond`, nothing or
 * the id of one of the five diamonds, and `showDetails`. A click runs the
 * handlers on its bubbling path from the clicked element outwards until one of
 * them stops propagation; every handler reads the state of the render that
 * created it, and the state writes of one click are batched, later writes
 * replacing earlier ones.
 */
module Collection {
  import opened Wrappers

  /** Length of the component's data array; the diamond at position i has id i + 1. */
  const DiamondCount: int := 5
  /** Distance, in pixels, from either edge of the card strip that starts edge scrolling. */
  const EdgeSize: real := 150.0
  /** Index of the card at the point of the V layout. */
  const CentreIndex: int := 2
  /** Vertical drop of the V layout, in pixels per card away from the centre. */
  const VStep: int := 60

  predicate IsDiamondId(k: int) {
    1 <= k <= DiamondCount
  }

  /** Id of the diamond whose card sits at position `index` of the strip. */
  function CardId(index: int): int {
    index + 1
  }

  /** The diamond "Next" moves to: the one after `k`, wrapping from the last to the first. */
  function NextId(k: int): (r: int)
    requires IsDiamondId(k)
    ensures IsDiamondId(r) && r != k
    ensures r - 1 == k % DiamondCount
  {
    if k == DiamondCount then 1 else k + 1
  }

  /** `n` successive Next steps starting from diamond `k`. (Each press of the Next button hides
      the details and with them the button, so in the page the steps are separated by overlay
      clicks that show the details again: see `NextThenBackdropReopens`.) */
  function NextTimes(k: int, n: nat): (r: int)
    requires IsDiamondId(k)
    ensures IsDiamondId(r)
  {
    if n == 0 then k else NextId(NextTimes(k, n - 1))
  }

  lemma {:induction false} ModOfMultiplePlus(q: nat, r: int)
    requires 0 <= r < DiamondCount
    ensures (DiamondCount * q + r) % DiamondCount == r
  {
    if q > 0 {
      ModOfMultiplePlus(q - 1, r);
      assert DiamondCount * q + r == (DiamondCount * (q - 1) + r) + DiamondCount;
    }
  }

  lemma ModSucc(a: nat)
    ensures (a + 1) % DiamondCount == if a % DiamondCount == DiamondCount - 1 then 0 else a % DiamondCount + 1
  {
    var q := a / DiamondCount;
    assert a == DiamondCount * q + a % DiamondCount;
    if a % DiamondCount == DiamondCount - 1 {
      assert a + 1 == DiamondCount * (q + 1) + 0;
      ModOfMultiplePlus(q + 1, 0);
    } else {
      assert a + 1 == DiamondCount * q + (a % DiamondCount + 1);
      ModOfMultiplePlus(q, a % DiamondCount + 1);
    }
  }

  /** n successive Next steps advance the selection by n places, cyclically. */
  lemma {:induction false} NextTimesAdvances(k: int, n: nat)
    requires IsDiamondId(k)
    ensures NextTimes(k, n) - 1 == (k - 1 + n) % DiamondCount
  {
    if n > 0 {
      NextTimesAdvances(k, n - 1);
      var prev := NextTimes(k, n - 1);
      assert NextTimes(k, n) == NextId(prev);
      ModSucc(k - 1 + (n - 1));
      if prev == DiamondCount {
        assert NextId(prev) == 1;
      } else {
        assert NextId(prev) == prev + 1;
      }
    }
  }

  /** How many Next steps lead from diamond `k` to diamond `target`. */
  function StepsBetween(k: int, target: int): nat
    requires IsDiamondId(k) && IsDiamondId(target)
  {
    if target >= k then target - k else target - k + DiamondCount
  }

  lemma StepsBetweenArithmetic(k: int, target: int)
    requires IsDiamondId(k) && IsDiamondId(target)
    ensures StepsBetween(k, target) < DiamondCount
    ensures (k - 1 + StepsBetween(k, target)) % DiamondCount == target - 1
  {
    if target >= k {
      ModOfMultiplePlus(0, target - 1);
    } else {
      ModOfMultiplePlus(1, target - 1);
    }
  }

  lemma NextTimesLandsOn(k: int, target: int, n: nat)
    requires IsDiamondId(k) && IsDiamondId(target)
    requires (k - 1 + n) % DiamondCount == target - 1
    ensures NextTimes(k, n) == target
  {
    NextTimesAdvances(k, n);
  }

  /** Next steps reach every diamond from every diamond, in fewer than five steps. */
  lemma NextReachesEveryDiamond(k: int, target: int)
    requires IsDiamondId(k) && IsDiamondId(target)
    ensures StepsBetween(k, target) < DiamondCount
    ensures NextTimes(k, StepsBetween(k, target)) == target
  {
    StepsBetweenArithmetic(k, target);
    NextTimesLandsOn(k, target, StepsBetween(k, target));
  }

  /** Next steps come back to where they started exactly after a multiple of five steps. */
  lemma NextReturnsIffMultipleOfFive(k: int, n: nat)
    requires IsDiamondId(k)
    ensures NextTimes(k, n) == k <==> n % DiamondCount == 0
  {
    NextTimesAdvances(k, n);
    var q, m := n / DiamondCount, n % DiamondCount;
    assert n == DiamondCount * q + m;
    if k - 1 + m < DiamondCount {
      assert k - 1 + n == DiamondCount * q + (k - 1 + m);
      ModOfMultiplePlus(q, k - 1 + m);
    } else {
      assert k - 1 + n == DiamondCount * (q + 1) + (k - 1 + m - DiamondCount);
      ModOfMultiplePlus(q + 1, k - 1 + m - DiamondCount);
    }
  }

  // ---------------------------------------------------------------------------
  // Selection and details state

  datatype ViewState = ViewState(selected: Option<int>, showDetails: bool)

  /** Both `useState` initialisers: nothing selected, details hidden. */
  const Initial: ViewState := ViewState(None, false)

  predicate ValidView(s: ViewState) {
    s.selected.Some? ==> IsDiamondId(s.selected.value)
  }

  /** The clickable elements of the component. */
  datatype Target =
    | Card(index: int)   // a card of the strip
    | Backdrop           // the full-screen overlay itself, or its large image
    | DetailsPanel       // the details panel, outside its button
    | NextButton         // "Next Masterpiece", inside the details panel
    | CloseButton        // "Close", directly inside the overlay

  /** Whether target `t` is in the document in state `s`: the strip exists only while nothing is
      selected, the overlay only while something is, and the details panel only when it is shown. */
  predicate Rendered(s: ViewState, t: Target)
    ensures Rendered(s, t) ==> (t.Card? <==> s.selected.None?)
    ensures Rendered(s, t) && (t == DetailsPanel || t == NextButton) ==> s.showDetails
  {
    match t
    case Card(index) => s.selected.None? && 0 <= index < DiamondCount
    case Backdrop => s.selected.Some?
    case CloseButton => s.selected.Some?
    case DetailsPanel => s.selected.Some? && s.showDetails
    case NextButton => s.selected.Some? && s.showDetails
  }

  /** The click handlers of the component. */
  datatype Handler =
    | SelectHandler(id: int)   // a card's onClick
    | OverlayHandler           // the overlay's onClick
    | PanelHandler             // the details panel's onClick, which only stops propagation
    | NextHandler              // handleNext
    | BackHandler              // handleBack

  /** The handlers a click on `t` meets while it bubbles, innermost first. */
  function Path(t: Target): (r: seq<Handler>)
    ensures r != [] && (r[0] == OverlayHandler <==> t == Backdrop)
    ensures r[|r| - 1] == OverlayHandler <==> !t.Card?
    ensures PanelHandler in r <==> t == DetailsPanel || t == NextButton
    ensures t == CloseButton ==> r == [BackHandler, OverlayHandler]
  {
    match t
    case Card(index) => [SelectHandler(CardId(index))]
    case Backdrop => [OverlayHandler]
    case DetailsPanel => [PanelHandler, OverlayHandler]
    case NextButton => [NextHandler, PanelHandler, OverlayHandler]
    case CloseButton => [BackHandler, OverlayHandler]
  }

  /** What one handler leaves behind: the queued state and whether it stopped propagation. */
  datatype Effect = Effect(queued: ViewState, stop: bool)

  /** Runs handler `h` created in the render of state `render`, on top of the writes `queued`
      so far in the same click. */
  function Run(h: Handler, render: ViewState, queued: ViewState): (e: Effect)
    requires ValidView(render)
    ensures ValidView(queued) && (h.SelectHandler? ==> IsDiamondId(h.id)) ==> ValidView(e.queued)
    ensures e.stop <==> h.PanelHandler? || h.NextHandler?
  {
    match h
    case SelectHandler(id) => Effect(queued.(selected := Some(id)), false)
    case OverlayHandler =>
      if !render.showDetails then Effect(queued.(showDetails := true), false)
      else Effect(ViewState(None, false), false)
    case PanelHandler => Effect(queued, true)
    case NextHandler =>
      if render.selected.Some? then Effect(ViewState(Some(NextId(render.selected.value)), false), true)
      else Effect(queued, true)
    case BackHandler => Effect(ViewState(None, false), false)
  }

  predicate SelectsOnlyDiamonds(path: seq<Handler>) {
    forall i :: 0 <= i < |path| && path[i].SelectHandler? ==> IsDiamondId(path[i].id)
  }

  /** Bubbles a click along `path`: the state once the batched writes are flushed. */
  function Dispatch(path: seq<Handler>, render: ViewState, queued: ViewState): (r: ViewState)
    requires ValidView(render)
    ensures ValidView(queued) && SelectsOnlyDiamonds(path) ==> ValidView(r)
  {
    if path == [] then queued
    else
      var e := Run(path[0], render, queued);
      assert SelectsOnlyDiamonds(path) ==> SelectsOnlyDiamonds(path[1..]) by {
        if SelectsOnlyDiamonds(path) {
          forall i | 0 <= i < |path[1..]| && path[1..][i].SelectHandler?
            ensures IsDiamondId(path[1..][i].id)
          {
            assert path[1..][i] == path[i + 1];
          }
        }
      }
      if e.stop then e.queued else Dispatch(path[1..], render, e.queued)
  }

  /** The handlers that actually run for a click along `path`: those before the first one that
      stops propagation, and that one. */
  function Reached(path: seq<Handler>, render: ViewState, queued: ViewState): (r: seq<Handler>)
    requires ValidView(render)
    ensures |r| <= |path| && r == path[..|r|]
    ensures forall i :: 0 <= i < |r| - 1 ==> !r[i].PanelHandler? && !r[i].NextHandler?
    ensures r == path || (r != [] && (r[|r| - 1].PanelHandler? || r[|r| - 1].NextHandler?))
  {
    if path == [] then []
    else
      var e := Run(path[0], render, queued);
      if e.stop then [path[0]]
      else
        var rest := Reached(path[1..], render, e.queued);
        assert [path[0]] + rest == path[..1 + |rest|] by {
          assert rest == path[1..][..|rest|];
        }
        [path[0]] + rest
  }

  /** The writes of the handlers `hs`, all run, each on top of the previous one's. */
  function Apply(hs: seq<Handler>, render: ViewState, queued: ViewState): ViewState
    requires ValidView(render)
  {
    if hs == [] then queued else Apply(hs[1..], render, Run(hs[0], render, queued).queued)
  }

  /** Bubbling leaves exactly the writes of the handlers it reaches: a handler past the one
      that stops propagation writes nothing. */
  lemma {:induction false} DispatchAppliesReached(path: seq<Handler>, render: ViewState, queued: ViewState)
    requires ValidView(render)
    ensures Dispatch(path, render, queued) == Apply(Reached(path, render, queued), render, queued)
  {
    if path != [] {
      var e := Run(path[0], render, queued);
      var r := Reached(path, render, queued);
      if e.stop {
        assert r == [path[0]] && r[1..] == [];
      } else {
        DispatchAppliesReached(path[1..], render, e.queued);
        assert r == [path[0]] + Reached(path[1..], render, e.queued);
        assert r[1..] == Reached(path[1..], render, e.queued);
      }
    }
  }

  /** The state after the user clicks `t` in state `s`. */
  function Click(s: ViewState, t: Target): (r: ViewState)
    requires ValidView(s) && Rendered(s, t)
    ensures ValidView(r)
  {
    assert SelectsOnlyDiamonds(Path(t));
    Dispatch(Path(t), s, s)
  }

  /** What each click does once its handlers have run and their writes are flushed:
      - a card selects its diamond and leaves the details flag as it was;
      - the overlay shows the details when they are hidden, and acts as Close when they show;
      - the details panel changes nothing;
      - Next moves to the next diamond and hides the details;
      - Close clears the selection, but flips the details flag rather than clearing it,
        because it does not stop propagation and the overlay's handler runs after it with
        the details flag of the render. */
  lemma ClickEffects(s: ViewState, t: Target)
    requires ValidView(s) && Rendered(s, t)
    ensures t.Card? ==> Click(s, t) == ViewState(Some(t.index + 1), s.showDetails)
    ensures t == Backdrop && !s.showDetails ==> Click(s, t) == ViewState(s.selected, true)
    ensures t == Backdrop && s.showDetails ==> Click(s, t) == Initial
    ensures t == DetailsPanel ==> Click(s, t) == s
    ensures t == NextButton ==> Click(s, t) == ViewState(Some(NextId(s.selected.value)), false)
    ensures t == CloseButton ==> Click(s, t) == ViewState(None, !s.showDetails)
  {
    var p := Path(t);
    match t
    case Card(index) =>
      assert p == [SelectHandler(index + 1)];
      var e := Run(p[0], s, s);
      assert Dispatch(p, s, s) == Dispatch(p[1..], s, e.queued);
      assert p[1..] == [];
    case Backdrop =>
      assert p == [OverlayHandler];
      var e := Run(p[0], s, s);
      assert Dispatch(p, s, s) == Dispatch(p[1..], s, e.queued);
      assert p[1..] == [];
    case DetailsPanel =>
      assert p[0] == PanelHandler;
    case NextButton =>
      assert p[0] == NextHandler;
    case CloseButton =>
      assert p == [BackHandler, OverlayHandler];
      var e1 := Run(p[0], s, s);
      assert e1.queued == Initial;
      assert Dispatch(p, s, s) == Dispatch(p[1..], s, Initial);
      assert p[1..] == [OverlayHandler];
      var e2 := Run(OverlayHandler, s, Initial);
      assert Dispatch(p[1..], s, Initial) == Dispatch(p[1..][1..], s, e2.queued);
      assert p[1..][1..] == [];
  }

  /** Handler-level facts: Next does nothing when nothing is selected; Back clears everything
      whatever it finds; the overlay with details shown acts exactly as Back. */
  lemma HandlerFacts(render: ViewState, queued: ViewState)
    requires ValidView(render)
    ensures render.selected.None? ==> Run(NextHandler, render, queued) == Effect(queued, true)
    ensures Run(BackHandler, render, queued).queued == Initial
    ensures render.showDetails ==> Run(OverlayHandler, render, queued) == Run(BackHandler, render, queued)
  {
  }

  /** Clicks inside the details panel never reach the overlay handler; a click on Close does. */
  lemma PropagationStops(s: ViewState, t: Target)
    requires ValidView(s) && Rendered(s, t)
    ensures (t == DetailsPanel || t == NextButton) ==> OverlayHandler !in Reached(Path(t), s, s)
    ensures t == CloseButton ==> Reached(Path(t), s, s) == [BackHandler, OverlayHandler]
  {
  }

  /** A sequence of clicks each on an element present at the moment of the click. */
  predicate Playable(s: ViewState, ts: seq<Target>)
    requires ValidView(s)
    decreases |ts|
  {
    ts == [] || (Rendered(s, ts[0]) && Playable(Click(s, ts[0]), ts[1..]))
  }

  /** The state after the clicks `ts`; the selection always stays one of the five diamonds. */
  function Replay(s: ViewState, ts: seq<Target>): (r: ViewState)
    requires ValidView(s) && Playable(s, ts)
    ensures ValidView(r)
    decreases |ts|
  {
    if ts == [] then s else Replay(Click(s, ts[0]), ts[1..])
  }

  /** Consequence of Close's missing stopPropagation: open a card, close it without looking at
      the details, open another card, and the details are already showing. */
  lemma CloseThenSelectOpensWithDetails(first: int, second: int)
    requires 0 <= first < DiamondCount && 0 <= second < DiamondCount
    ensures Playable(Initial, [Card(first), CloseButton, Card(second)])
    ensures Replay(Initial, [Card(first), CloseButton, Card(second)]) == ViewState(Some(second + 1), true)
  {
    var ts := [Card(first), CloseButton, Card(second)];
    var s1 := Click(Initial, Card(first));
    ClickEffects(Initial, Card(first));
    var s2 := Click(s1, CloseButton);
    ClickEffects(s1, CloseButton);
    var s3 := Click(s2, Card(second));
    ClickEffects(s2, Card(second));
    assert s1 == ViewState(Some(first + 1), false);
    assert s2 == ViewState(None, true);
    assert s3 == ViewState(Some(second + 1), true);
    assert ts[1..] == [CloseButton, Card(second)];
    assert ts[1..][1..] == [Card(second)];
    assert ts[1..][1..][1..] == [];
    assert Playable(s3, []) && Replay(s3, []) == s3;
    assert Playable(s2, ts[1..][1..]) && Replay(s2, ts[1..][1..]) == s3;
    assert Playable(s1, ts[1..]) && Replay(s1, ts[1..]) == s3;
  }

  /** One round of "Next" as the page allows it: the Next button, which hides the details and
      with them the button, then a click on the overlay, which shows the details again. */
  lemma NextThenBackdropReopens(k: int)
    requires IsDiamondId(k)
    ensures Playable(ViewState(Some(k), true), [NextButton, Backdrop])
    ensures Replay(ViewState(Some(k), true), [NextButton, Backdrop]) == ViewState(Some(NextId(k)), true)
  {
    var s0 := ViewState(Some(k), true);
    var ts := [NextButton, Backdrop];
    ClickEffects(s0, NextButton);
    var s1 := Click(s0, NextButton);
    ClickEffects(s1, Backdrop);
    var s2 := Click(s1, Backdrop);
    assert ts[1..] == [Backdrop] && ts[1..][1..] == [];
    assert Playable(s2, []) && Replay(s2, []) == s2;
    assert Playable(s1, ts[1..]) && Replay(s1, ts[1..]) == s2;
  }

  /** `n` rounds of Next followed by an overlay click. */
  function NextRounds(n: nat): (ts: seq<Target>)
    ensures |ts| == 2 * n
  {
    if n == 0 then [] else [NextButton, Backdrop] + NextRounds(n - 1)
  }

  lemma {:induction false} NextTimesShift(k: int, n: nat)
    requires IsDiamondId(k)
    ensures NextTimes(NextId(k), n) == NextTimes(k, n + 1)
  {
    if n > 0 {
      NextTimesShift(k, n - 1);
    }
  }

  lemma ReplayTwoThenRest(s: ViewState, a: Target, b: Target, rest: seq<Target>)
    requires ValidView(s) && Rendered(s, a) && Rendered(Click(s, a), b)
    requires Playable(Click(Click(s, a), b), rest)
    ensures Playable(s, [a, b] + rest)
    ensures Replay(s, [a, b] + rest) == Replay(Click(Click(s, a), b), rest)
  {
    var ts := [a, b] + rest;
    assert ts[0] == a && ts[1..][0] == b && ts[1..][1..] == rest;
  }

  /** n presses of the Next button, each followed by the overlay click that brings the button
      back, move the selection n steps on and leave the details shown. */
  lemma {:induction false} NextRoundsAdvance(k: int, n: nat)
    requires IsDiamondId(k)
    ensures Playable(ViewState(Some(k), true), NextRounds(n))
    ensures Replay(ViewState(Some(k), true), NextRounds(n)) == ViewState(Some(NextTimes(k, n)), true)
    decreases n
  {
    var s0 := ViewState(Some(k), true);
    if n > 0 {
      ClickEffects(s0, NextButton);
      var s1 := Click(s0, NextButton);
      ClickEffects(s1, Backdrop);
      NextRoundsAdvance(NextId(k), n - 1);
      NextTimesShift(k, n - 1);
      ReplayTwoThenRest(s0, NextButton, Backdrop, NextRounds(n - 1));
    }
  }

  // ---------------------------------------------------------------------------
  // Pure helpers of the strip

  function Abs(n: int): nat {
    if n < 0 then -n else n
  }

  /** The vertical offset of card `index` in the V layout. */
  function YOffset(index: int): (r: int)
    ensures r >= 0 && r % VStep == 0
    ensures r == 0 <==> index == CentreIndex
  {
    Abs(index - CentreIndex) * VStep
  }

  lemma YOffsetShape(i: int, j: int, d: int)
    ensures YOffset(CentreIndex - d) == YOffset(CentreIndex + d)
    ensures YOffset(1) == YOffset(3) == 60 && YOffset(0) == YOffset(4) == 120
    ensures Abs(i - CentreIndex) < Abs(j - CentreIndex) ==> YOffset(i) < YOffset(j)
  {
  }

  /** The cards of the right-hand and left-hand groups of the entrance animation, in the order
      the animation is given them. */
  const RightGroup: seq<int> := [3, 4]
  const LeftGroup: seq<int> := [1, 0]

  /** The offset the right-hand group's callback gives its i-th target. */
  function RightGroupOffset(i: int): int {
    YOffset(i + 3)
  }

  /** The offset the left-hand group's callback gives its i-th target. */
  function LeftGroupOffset(i: int): int {
    YOffset(1 - i)
  }

  /** Both group callbacks place each of their cards at that card's own V offset. */
  lemma GroupOffsetsMatchCards(i: int)
    requires 0 <= i < 2
    ensures RightGroupOffset(i) == YOffset(RightGroup[i])
    ensures LeftGroupOffset(i) == YOffset(LeftGroup[i])
  {
  }

  datatype Zone = LeftEdge | RightEdge | Middle

  predicate InLeftBand(x: real) {
    x < EdgeSize
  }

  predicate InRightBand(x: real, width: real) {
    x > width - EdgeSize
  }

  /** Where the mouse is, `x` pixels from the left of a strip `width` pixels wide. */
  function EdgeZone(x: real, width: real): (z: Zone)
    ensures z == LeftEdge <==> InLeftBand(x)
    ensures z == RightEdge <==> !InLeftBand(x) && InRightBand(x, width)
    ensures z == Middle <==> !InLeftBand(x) && !InRightBand(x, width)
  {
    if x < EdgeSize then LeftEdge
    else if x > width - EdgeSize then RightEdge
    else Middle
  }

  /** The two edge bands overlap exactly when the strip is narrower than two bands, and then the
      left edge wins. */
  lemma EdgeBandsOverlapIffNarrow(width: real)
    ensures (exists x :: InLeftBand(x) && InRightBand(x, width)) <==> width < 2.0 * EdgeSize
    ensures forall x :: InLeftBand(x) && InRightBand(x, width) ==> EdgeZone(x, width) == LeftEdge
  {
    if width < 2.0 * EdgeSize {
      var x := width / 2.0;
      assert InLeftBand(x) && InRightBand(x, width);
    }
  }

  /** There is a place where the mouse scrolls nothing exactly when the strip is at least two
      bands wide. */
  lemma MiddleExistsIffWide(width: real)
    ensures (exists x :: EdgeZone(x, width) == Middle) <==> width >= 2.0 * EdgeSize
  {
    if width >= 2.0 * EdgeSize {
      assert EdgeZone(EdgeSize, width) == Middle;
    }
  }

  /** Whether bar `i` of the progress indicator is lit: exactly when the diamond of card `i` is
      the selected one. */
  predicate BarLit(selected: Option<int>, i: int)
    ensures BarLit(selected, i) <==> selected.Some? && selected.value == CardId(i)
  {
    selected == Some(i + 1)
  }

  /** The lit bars are exactly the bar of the selected diamond: none when nothing is selected. */
  lemma IndicatorMarksSelection(s: ViewState)
    requires ValidView(s)
    ensures (set i | 0 <= i < DiamondCount && BarLit(s.selected, i)) ==
            (if s.selected.None? then {} else {s.selected.value - 1})
  {
  }

  lemma AtMostOneBarLit(selected: Option<int>, i: int, j: int)
    requires BarLit(selected, i) && BarLit(selected, j)
    ensures i == j
  {
  }

  // ---------------------------------------------------------------------------
  // The component's state

  /** The `selectedDiamond` / `showDetails` state of one mounted Collection. */
  class Viewer {
    var selectedDiamond: Option<int>
    var showDetails: bool

    function State(): ViewState
      reads this
    {
      ViewState(selectedDiamond, showDetails)
    }

    predicate Valid()
      reads this
    {
      ValidView(State())
    }

    constructor ()
      ensures State() == Initial
    {
      selectedDiamond := None;
      showDetails := false;
    }

    /** handleBack: clears the selection and hides the details. */
    method HandleBack()
      modifies this
      ensures State() == Initial
    {
      selectedDiamond := None;
      showDetails := false;
    }

    /** handleNext, created in a render whose selection was `rendered`. */
    method HandleNext(rendered: Option<int>)
      requires rendered.Some? ==> IsDiamondId(rendered.value)
      modifies this
      ensures rendered.None? ==> State() == old(State())
      ensures rendered.Some? ==> State() == ViewState(Some(NextId(rendered.value)), false)
    {
      if rendered.Some? {
        var k := rendered.value;
        var nextId := if k == DiamondCount then 1 else k + 1;
        selectedDiamond := Some(nextId);
        showDetails := false;
      }
    }

    /** The overlay's handler, created in a render whose details flag was `renderedShowDetails`. */
    method OnOverlay(renderedShowDetails: bool)
      modifies this
      ensures !renderedShowDetails ==> State() == old(State()).(showDetails := true)
      ensures renderedShowDetails ==> State() == Initial
    {
      if !renderedShowDetails {
        showDetails := true;
      } else {
        HandleBack();
      }
    }

    method ClickCard(index: int)
      requires Valid() && Rendered(State(), Card(index))
      modifies this
      ensures Valid() && State() == Click(old(State()), Card(index))
      ensures selectedDiamond == Some(index + 1) && showDetails == old(showDetails)
    {
      ClickEffects(State(), Card(index));
      selectedDiamond := Some(CardId(index));
    }

    method ClickBackdrop()
      requires Valid() && Rendered(State(), Backdrop)
      modifies this
      ensures Valid() && State() == Click(old(State()), Backdrop)
      ensures old(showDetails) ==> State() == Initial
      ensures !old(showDetails) ==> selectedDiamond == old(selectedDiamond) && showDetails
    {
      ClickEffects(State(), Backdrop);
      OnOverlay(showDetails);
    }

    method ClickDetailsPanel()
      requires Valid() && Rendered(State(), DetailsPanel)
      ensures Click(State(), DetailsPanel) == State()
    {
      // The panel's handler stops propagation and writes nothing.
      ClickEffects(State(), DetailsPanel);
    }

    method ClickNext()
      requires Valid() && Rendered(State(), NextButton)
      modifies this
      ensures Valid() && State() == Click(old(State()), NextButton)
      ensures selectedDiamond == Some(NextId(old(selectedDiamond).value)) && !showDetails
    {
      ClickEffects(State(), NextButton);
      HandleNext(selectedDiamond);
      // handleNext stops propagation: neither the panel's nor the overlay's handler runs.
    }

    method ClickClose()
      requires Valid() && Rendered(State(), CloseButton)
      modifies this
      ensures Valid() && State() == Click(old(State()), CloseButton)
      ensures selectedDiamond == None && showDetails == !old(showDetails)
    {
      ClickEffects(State(), CloseButton);
      var renderedShowDetails := showDetails;
      HandleBack();
      // The button does not stop propagation, so the overlay's handler runs next, with the
      // details flag of the render in which both handlers were created.
      OnOverlay(renderedShowDetails);
    }
  }
}
