/**
 * The home page's "AI visuals" panel and its 3D embed (client/src/pages/home.tsx).
 *
 * The panel keeps a most-recent-first list of image URLs, at most three long,
 * and a flag `isGenerating` that guards against starting a second generation
 * while one is in flight. The asynchronous `onGenerate` is split into its two
 * halves: the press, which runs up to the `await`, and the completion, which
 * runs when the generator hands back a URL.
 */
module Home {
  import opened Wrappers

  /** Length to which `onGenerate` truncates the list. */
  const Capacity: nat := 3
  const DiamondVisual1: string := "@/assets/images/diamond-visual-1.png"
  const DiamondVisual2: string := "@/assets/images/diamond-visual-2.png"
  /** The list's initial value. */
  const InitialUrls: seq<string> := [DiamondVisual1, DiamondVisual2]

  function Min(a: int, b: int): int {
    if a < b then a else b
  }

  /** JavaScript's `s.slice(0, n)`: the first `n` elements, or all of them when there are fewer. */
  function Take<T>(s: seq<T>, n: nat): (r: seq<T>)
    ensures |r| == Min(|s|, n)
    ensures forall i :: 0 <= i < |r| ==> r[i] == s[i]
  {
    s[..Min(|s|, n)]
  }

  /** The list after a generation completes with `url`: the new URL first, then the previous
      URLs in their order, cut to the capacity. */
  function PushRecent(url: string, prev: seq<string>): (next: seq<string>)
    ensures |next| == Min(|prev| + 1, Capacity)
    ensures next[0] == url
    ensures next[1..] == Take(prev, Capacity - 1)
  {
    Take([url] + prev, Capacity)
  }

  /** A full list loses exactly its oldest entry. */
  lemma PushRecentDropsOldest(url: string, prev: seq<string>)
    requires |prev| == Capacity
    ensures PushRecent(url, prev) == [url] + prev[..Capacity - 1]
  {
  }

  /** `s` from its last element to its first. */
  function Reversed<T>(s: seq<T>): (r: seq<T>)
    ensures |r| == |s|
  {
    if s == [] then [] else [s[|s| - 1]] + Reversed(s[..|s| - 1])
  }

  /** The list after generations complete with `urls[0]`, `urls[1]`, ... in turn. */
  function AfterCompletions(init: seq<string>, urls: seq<string>): seq<string> {
    if urls == [] then init
    else PushRecent(urls[|urls| - 1], AfterCompletions(init, urls[..|urls| - 1]))
  }

  /** Cutting `s` before prepending `x` changes nothing if the cut keeps the part that survives. */
  lemma TakeAfterPrepend<T>(x: T, s: seq<T>, m: nat, n: nat)
    requires m >= n
    ensures Take([x] + Take(s, m), n + 1) == Take([x] + s, n + 1)
  {
  }

  /** The list always holds the latest completed URLs, newest first, followed by what was there
      before, cut to the capacity. */
  lemma {:induction false} AfterCompletionsIsMostRecentFirst(init: seq<string>, urls: seq<string>)
    requires |init| <= Capacity
    ensures AfterCompletions(init, urls) == Take(Reversed(urls) + init, Capacity)
  {
    if urls != [] {
      var last, earlier := urls[|urls| - 1], urls[..|urls| - 1];
      AfterCompletionsIsMostRecentFirst(init, earlier);
      calc {
        AfterCompletions(init, urls);
        PushRecent(last, Take(Reversed(earlier) + init, Capacity));
        Take([last] + Take(Reversed(earlier) + init, Capacity), Capacity);
        { TakeAfterPrepend(last, Reversed(earlier) + init, Capacity, Capacity - 1); }
        Take([last] + (Reversed(earlier) + init), Capacity);
        { assert [last] + (Reversed(earlier) + init) == Reversed(urls) + init; }
        Take(Reversed(urls) + init, Capacity);
      }
    }
  }

  /** From the initial two images, the first completion fills the list and every later one
      replaces the oldest entry. */
  lemma GallerySize(urls: seq<string>)
    ensures |AfterCompletions(InitialUrls, urls)| == Min(|urls| + |InitialUrls|, Capacity)
  {
    AfterCompletionsIsMostRecentFirst(InitialUrls, urls);
  }

  // ---------------------------------------------------------------------------
  // The panel's state

  datatype AiPanel = AiPanel(urls: seq<string>, generating: bool)

  const InitialPanel: AiPanel := AiPanel(InitialUrls, false)

  /** The two halves of one `onGenerate` call. */
  datatype GenEvent =
    | Press                 // the button press, up to the await
    | Resolve(url: string)  // the completion, with the URL the generator returned

  /** The panel after one event. */
  function Step(p: AiPanel, e: GenEvent): (r: AiPanel)
    ensures e.Press? && p.generating ==> r == p
    ensures e.Press? ==> r.generating && r.urls == p.urls
    ensures e.Resolve? ==> !r.generating && r.urls == PushRecent(e.url, p.urls)
  {
    match e
    case Press => if p.generating then p else p.(generating := true)
    case Resolve(url) => AiPanel(PushRecent(url, p.urls), false)
  }

  /** The panel after the events `es`, in order. */
  function Replay(p: AiPanel, es: seq<GenEvent>): AiPanel {
    if es == [] then p else Step(Replay(p, es[..|es| - 1]), es[|es| - 1])
  }

  /** The URLs the completions among `es` delivered, in order. */
  function Completed(es: seq<GenEvent>): (urls: seq<string>)
    ensures |urls| <= |es|
  {
    if es == [] then []
    else
      var rest := Completed(es[..|es| - 1]);
      match es[|es| - 1]
      case Press => rest
      case Resolve(url) => rest + [url]
  }

  /** Presses change only the guard flag: the list depends on the completions alone. */
  lemma {:induction false} ReplayUrls(p: AiPanel, es: seq<GenEvent>)
    ensures Replay(p, es).urls == AfterCompletions(p.urls, Completed(es))
  {
    if es != [] {
      var rest := es[..|es| - 1];
      ReplayUrls(p, rest);
      match es[|es| - 1]
      case Press =>
      case Resolve(url) =>
        var done := Completed(rest) + [url];
        assert done[..|done| - 1] == Completed(rest);
    }
  }

  /** Whatever the presses and completions, the list never holds more than three URLs, and it
      is the latest completed URLs, newest first, followed by the initial images. */
  lemma PanelFromStart(es: seq<GenEvent>)
    ensures Replay(InitialPanel, es).urls == Take(Reversed(Completed(es)) + InitialUrls, Capacity)
    ensures |Replay(InitialPanel, es).urls| <= Capacity
  {
    ReplayUrls(InitialPanel, es);
    AfterCompletionsIsMostRecentFirst(InitialUrls, Completed(es));
  }

  /** The Generate button's `disabled` attribute; its label reads "Generating…" under the same
      condition. */
  predicate ButtonDisabled(p: AiPanel) {
    p.generating
  }

  /** The Generate button is disabled exactly when the last event was a press: from a press to
      the completion that follows it, and never before the first press. */
  lemma ButtonDisabledIffLastWasPress(es: seq<GenEvent>)
    ensures ButtonDisabled(Replay(InitialPanel, es)) <==> es != [] && es[|es| - 1].Press?
  {
  }

  // ---------------------------------------------------------------------------
  // The images shown

  /** `s[i]` in JavaScript: the element, or `undefined` past the end. */
  function At(s: seq<string>, i: nat): (o: Option<string>)
    ensures o.Some? <==> i < |s|
    ensures o.Some? ==> o.value == s[i]
  {
    if i < |s| then Some(s[i]) else None
  }

  /** JavaScript truthiness of a possibly undefined string: `undefined` and the empty string are
      falsy, every other string is truthy. */
  predicate Truthy(o: Option<string>)
    ensures o == None ==> !Truthy(o)
    ensures o == Some("") ==> !Truthy(o)
    ensures o.Some? && o.value != "" ==> Truthy(o)
  {
    o.Some? && o.value != ""
  }

  /** `filter(Boolean)`: the truthy entries of `xs`, in order. */
  function KeepTruthy(xs: seq<Option<string>>): (r: seq<string>)
    ensures |r| <= |xs|
    ensures forall i :: 0 <= i < |r| ==> r[i] != "" && Some(r[i]) in xs
    ensures |r| == |xs| <==> forall i :: 0 <= i < |xs| ==> Truthy(xs[i])
  {
    if xs == [] then []
    else if Truthy(xs[0]) then [xs[0].value] + KeepTruthy(xs[1..])
    else KeepTruthy(xs[1..])
  }

  predicate NoEmptyUrl(s: seq<string>) {
    forall i :: 0 <= i < |s| ==> s[i] != ""
  }

  /** The non-empty strings of `s`, in order: the reference the shown images are compared with. */
  function NonEmptyOf(s: seq<string>): (r: seq<string>)
    ensures |r| <= |s| && NoEmptyUrl(r)
  {
    if s == [] then []
    else if s[0] != "" then [s[0]] + NonEmptyOf(s[1..])
    else NonEmptyOf(s[1..])
  }

  lemma {:induction false} NonEmptyOfKeepsAll(s: seq<string>)
    requires NoEmptyUrl(s)
    ensures NonEmptyOf(s) == s
  {
    if s != [] {
      NonEmptyOfKeepsAll(s[1..]);
    }
  }

  lemma {:induction false} KeepTruthyCons(o: Option<string>, rest: seq<Option<string>>)
    ensures KeepTruthy([o] + rest) == (if Truthy(o) then [o.value] else []) + KeepTruthy(rest)
  {
    assert ([o] + rest)[1..] == rest;
  }

  lemma {:induction false} NonEmptyOfCons(u: string, rest: seq<string>)
    ensures NonEmptyOf([u] + rest) == (if u != "" then [u] else []) + NonEmptyOf(rest)
  {
    assert ([u] + rest)[1..] == rest;
  }

  /** The three slots `[a[0], a[1], a[2]]` that `aiVisible` filters. */
  function Slots(urls: seq<string>): seq<Option<string>> {
    [At(urls, 0), At(urls, 1), At(urls, 2)]
  }

  /** Filtering the slots once the values in them are known. */
  lemma {:induction false} KeepTruthyOfThree(a: Option<string>, b: Option<string>, c: Option<string>)
    ensures KeepTruthy([a, b, c]) ==
            (if Truthy(a) then [a.value] else []) + (if Truthy(b) then [b.value] else []) +
            (if Truthy(c) then [c.value] else [])
  {
    assert [a, b, c] == [a] + ([b] + ([c] + []));
    KeepTruthyCons(a, [b] + ([c] + []));
    KeepTruthyCons(b, [c] + []);
    KeepTruthyCons(c, []);
  }

  function IfNonEmpty(u: string): seq<string> {
    if u != "" then [u] else []
  }

  lemma {:induction false} NonEmptyOfThree(a: string, b: string, c: string)
    ensures NonEmptyOf([a, b, c]) == IfNonEmpty(a) + IfNonEmpty(b) + IfNonEmpty(c)
  {
    assert [a, b, c] == [a] + ([b] + ([c] + []));
    NonEmptyOfCons(a, [b] + ([c] + []));
    NonEmptyOfCons(b, [c] + []);
    NonEmptyOfCons(c, []);
  }

  lemma {:induction false} NonEmptyOfTwo(a: string, b: string)
    ensures NonEmptyOf([a, b]) == IfNonEmpty(a) + IfNonEmpty(b)
  {
    assert [a, b] == [a] + ([b] + []);
    NonEmptyOfCons(a, [b] + []);
    NonEmptyOfCons(b, []);
  }

  lemma {:induction false} NonEmptyOfOne(a: string)
    ensures NonEmptyOf([a]) == IfNonEmpty(a)
  {
    assert [a] == [a] + [];
    NonEmptyOfCons(a, []);
  }

  lemma {:induction false} SlotsFilterToFirstThree(urls: seq<string>)
    ensures KeepTruthy(Slots(urls)) == NonEmptyOf(Take(urls, Capacity))
  {
    KeepTruthyOfThree(At(urls, 0), At(urls, 1), At(urls, 2));
    var t := Take(urls, Capacity);
    if |urls| >= 3 {
      assert t == [urls[0], urls[1], urls[2]];
      NonEmptyOfThree(urls[0], urls[1], urls[2]);
    } else if |urls| == 2 {
      assert t == [urls[0], urls[1]];
      NonEmptyOfTwo(urls[0], urls[1]);
    } else if |urls| == 1 {
      assert t == [urls[0]];
      NonEmptyOfOne(urls[0]);
    } else {
      assert t == [];
    }
  }

  /** `aiVisible`: the URLs the frame shows, image i showing entry i. They are the non-empty
      entries among the first three URLs, in order. */
  function AiVisible(urls: seq<string>): (v: seq<string>)
    ensures v == NonEmptyOf(Take(urls, Capacity))
    ensures |v| <= Capacity
  {
    SlotsFilterToFirstThree(urls);
    KeepTruthy(Slots(urls))
  }

  /** When no URL is empty, the frame shows the first three URLs of the list, in order. */
  lemma {:induction false} VisibleIsFirstThree(urls: seq<string>)
    requires NoEmptyUrl(urls)
    ensures AiVisible(urls) == Take(urls, Capacity)
  {
    NonEmptyOfKeepsAll(Take(urls, Capacity));
  }

  lemma {:induction false} CompletedNonEmpty(es: seq<GenEvent>)
    requires forall i :: 0 <= i < |es| && es[i].Resolve? ==> es[i].url != ""
    ensures NoEmptyUrl(Completed(es))
  {
    if es != [] {
      CompletedNonEmpty(es[..|es| - 1]);
    }
  }

  lemma {:induction false} ReversedNonEmpty(s: seq<string>)
    requires NoEmptyUrl(s)
    ensures NoEmptyUrl(Reversed(s))
  {
    if s != [] {
      ReversedNonEmpty(s[..|s| - 1]);
    }
  }

  /** Every URL the generator delivers is non-empty (it returns one of the two bundled
      images), so from the start the frame always shows the whole list. */
  lemma {:induction false} PanelShowsWholeList(es: seq<GenEvent>)
    requires forall i :: 0 <= i < |es| && es[i].Resolve? ==> es[i].url != ""
    ensures AiVisible(Replay(InitialPanel, es).urls) == Replay(InitialPanel, es).urls
  {
    var c := Completed(es);
    PanelFromStart(es);
    CompletedNonEmpty(es);
    ReversedNonEmpty(c);
    var all := Reversed(c) + InitialUrls;
    assert NoEmptyUrl(all);
    var urls := Take(all, Capacity);
    VisibleIsFirstThree(urls);
    assert Take(urls, Capacity) == urls;
  }

  // ---------------------------------------------------------------------------
  // Mutable state

  /** The `aiUrls` / `isGenerating` state of the mounted home page. */
  class AiVisuals {
    var aiUrls: seq<string>
    var isGenerating: bool

    function State(): AiPanel
      reads this
    {
      AiPanel(aiUrls, isGenerating)
    }

    constructor ()
      ensures State() == InitialPanel
    {
      aiUrls := InitialUrls;
      isGenerating := false;
    }

    /** The first half of `onGenerate`: returns at once while a generation is in flight,
        otherwise marks one as started. */
    method OnGenerateStart() returns (started: bool)
      modifies this
      ensures started == !old(isGenerating)
      ensures State() == Step(old(State()), Press)
      ensures isGenerating && aiUrls == old(aiUrls)
    {
      if isGenerating {
        return false;
      }
      isGenerating := true;
      started := true;
    }

    /** The second half of `onGenerate`, run when the generator returns `url`. */
    method OnGenerateComplete(url: string)
      requires isGenerating
      modifies this
      ensures State() == Step(old(State()), Resolve(url))
      ensures !isGenerating && aiUrls[0] == url && aiUrls[1..] == Take(old(aiUrls), Capacity - 1)
    {
      aiUrls := Take([url] + aiUrls, Capacity);
      isGenerating := false;
    }
  }

  // ---------------------------------------------------------------------------
  // The 3D embed

  datatype EmbedView = SplineFrame | FallbackImage

  /** The `hasError` state of one SplineIframe. */
  class SplineEmbed {
    var hasError: bool

    constructor ()
      ensures !hasError && View() == SplineFrame
    {
      hasError := false;
    }

    /** The iframe's error handler; nothing ever clears the flag again. */
    method OnError()
      modifies this
      ensures hasError && View() == FallbackImage
    {
      hasError := true;
    }

    /** What the wrapper renders: the fallback image exactly when the iframe failed. */
    function View(): (v: EmbedView)
      reads this
      ensures v == FallbackImage <==> hasError
    {
      if !hasError then SplineFrame else FallbackImage
    }
  }
}
