/** The product image carousel: which image is shown, and how the previous,
    next and dot controls move the current index. */
module Carousel {
  import opened Wrappers
  import Formatters

  /** `goToNext`'s update of `prevIndex` over `n` images: from the last
      image to the first, otherwise one forward, that is `(i + 1) % n`. */
  function Next(i: int, n: int): (r: int)
    ensures 0 <= i < n ==> 0 <= r < n && r == (i + 1) % n
  {
    if i == n - 1 then 0 else i + 1
  }

  /** `goToPrevious`'s update of `prevIndex` over `n` images: from the first
      image to the last, otherwise one back, that is `(i + n - 1) % n`. */
  function Previous(i: int, n: int): (r: int)
    ensures 0 <= i < n ==> 0 <= r < n && r == (i + n - 1) % n
  {
    if i == 0 then n - 1 else i - 1
  }

  /** Next then previous, and previous then next, come back to `i`. */
  lemma NextPreviousInverse(i: int, n: int)
    requires 0 <= i < n
    ensures Previous(Next(i, n), n) == i
    ensures Next(Previous(i, n), n) == i
  {
  }

  /** A click on a control. */
  datatype Move = Back | Forward | Slide(k: int)

  /** A move is possible: a dot exists only for an image index. */
  predicate Available(m: Move, n: int)
  {
    m.Slide? ==> 0 <= m.k < n
  }

  /** The index after one move. */
  function Step(i: int, n: int, m: Move): int
  {
    match m
    case Back => Previous(i, n)
    case Forward => Next(i, n)
    case Slide(k) => k
  }

  /** The index after a sequence of moves, first move first. */
  function Run(i: int, n: int, moves: seq<Move>): int
    decreases |moves|
  {
    if moves == [] then i else Run(Step(i, n, moves[0]), n, moves[1..])
  }

  /** Starting inside `[0, n)`, no sequence of clicks leaves it. */
  lemma {:induction false} RunInRange(i: int, n: int, moves: seq<Move>)
    requires 0 <= i < n
    requires forall j :: 0 <= j < |moves| ==> Available(moves[j], n)
    ensures 0 <= Run(i, n, moves) < n
    decreases |moves|
  {
    if moves != [] {
      assert Available(moves[0], n);
      var i' := Step(i, n, moves[0]);
      assert 0 <= i' < n;
      assert forall j :: 0 <= j < |moves[1..]| ==> moves[1..][j] == moves[j + 1];
      RunInRange(i', n, moves[1..]);
    }
  }

  /** `k` clicks on next. */
  function Forwards(i: int, n: int, k: nat): int
    decreases k
  {
    if k == 0 then i else Next(Forwards(i, n, k - 1), n)
  }

  /** Up to `n` clicks on next go forward from `i`, wrapping past the last
      image once: `(i + k) % n` for these `k`. */
  lemma {:induction false} ForwardsWrap(i: int, n: int, k: nat)
    requires 0 <= i < n && k <= n
    ensures Forwards(i, n, k) == if i + k < n then i + k else i + k - n
    decreases k
  {
    if k > 0 {
      ForwardsWrap(i, n, k - 1);
    }
  }

  /** `n` clicks on next go once round the images. */
  lemma FullCircle(i: int, n: int)
    requires 0 <= i < n
    ensures Forwards(i, n, n) == i
  {
    ForwardsWrap(i, n, n);
  }

  /** What the component renders. */
  datatype View =
    | Placeholder
    | Single(src: string)
    | Gallery(src: string, position: int, controls: bool, dots: seq<bool>)

  /** The render of `images` at `currentIndex`; `dots[k]` marks the active dot.
      An index outside the images (possible only when `images` shrinks between
      renders) yields `images[i] === undefined` and so the empty source. */
  function Render(images: seq<string>, currentIndex: int, showControls: bool, showDots: bool,
                  env: Option<string>): (v: View)
    ensures |images| == 0 <==> v == Placeholder
    ensures |images| == 1 <==> v.Single?
    ensures |images| == 1 ==> v.src == Formatters.GetImageUrl(Some(images[0]), env)
    ensures |images| > 1 ==>
      && v.Gallery? && v.position == currentIndex + 1
      && v.controls == showControls && (v.dots == [] <==> !showDots)
    ensures |images| > 1 && 0 <= currentIndex < |images| ==>
      && v.src == Formatters.GetImageUrl(Some(images[currentIndex]), env)
      && (showDots ==> |v.dots| == |images| && forall k :: 0 <= k < |images| ==> (v.dots[k] <==> k == currentIndex))
  {
    if |images| == 0 then Placeholder
    else if |images| == 1 then Single(Formatters.GetImageUrl(Some(images[0]), env))
    else
      var shown := if 0 <= currentIndex < |images| then Some(images[currentIndex]) else None;
      Gallery(
        Formatters.GetImageUrl(shown, env),
        currentIndex + 1,
        showControls,
        if showDots then seq(|images|, k => k == currentIndex) else [])
  }

  /** One mounted carousel: its images and its `currentIndex` state. */
  class ImageCarousel {
    const images: seq<string>
    var currentIndex: int

    /** The index names an image, or is the initial 0 when there is none. */
    ghost predicate Valid()
      reads this
    {
      currentIndex == 0 || 0 <= currentIndex < |images|
    }

    /** `useState(0)`. */
    constructor (images: seq<string>)
      ensures this.images == images && currentIndex == 0 && Valid()
    {
      this.images := images;
      currentIndex := 0;
    }

    /** The previous-control handler; the control exists only for two or more images. */
    method GoToPrevious()
      requires |images| > 1 && Valid()
      modifies this
      ensures currentIndex == Previous(old(currentIndex), |images|)
      ensures Valid()
    {
      currentIndex := if currentIndex == 0 then |images| - 1 else currentIndex - 1;
    }

    /** The next-control handler; the control exists only for two or more images. */
    method GoToNext()
      requires |images| > 1 && Valid()
      modifies this
      ensures currentIndex == Next(old(currentIndex), |images|)
      ensures Valid()
    {
      currentIndex := if currentIndex == |images| - 1 then 0 else currentIndex + 1;
    }

    /** The handler of dot `index`; there is one dot per image. */
    method GoToSlide(index: int)
      requires |images| > 1 && 0 <= index < |images|
      modifies this
      ensures currentIndex == index
      ensures Valid()
    {
      currentIndex := index;
    }

    /** The current render. */
    function View(showControls: bool, showDots: bool, env: Option<string>): (v: View)
      reads this
      ensures Valid() && |images| > 1 ==>
        v.Gallery? && v.src == Formatters.GetImageUrl(Some(images[currentIndex]), env)
    {
      Render(images, currentIndex, showControls, showDots, env)
    }
  }
}
