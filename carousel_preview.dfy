/** The carousel preview (components/CarouselPreview.tsx): a slide index that
    the previous/next buttons and the arrow keys move with wrap-around. */
module CarouselPreview {
  import opened Wrappers
  import opened GeminiService

  /** `goToNext`: from the last slide back to the first, otherwise one ahead. */
  function NextIndex(i: int, n: int): (j: int)
    ensures 0 <= i < n ==> 0 <= j < n
  {
    if i == n - 1 then 0 else i + 1
  }

  /** `goToPrevious`: from the first slide to the last, otherwise one back. */
  function PrevIndex(i: int, n: int): (j: int)
    ensures 0 <= i < n ==> 0 <= j < n
  {
    if i == 0 then n - 1 else i - 1
  }

  /** Within range both steps are addition modulo the slide count. */
  lemma StepsAreModular(i: int, n: int)
    requires 0 <= i < n
    ensures NextIndex(i, n) == (i + 1) % n
    ensures PrevIndex(i, n) == (i - 1) % n
  {
  }

  /** Next and previous undo each other, in either order. */
  lemma NextPrevInverse(i: int, n: int)
    requires 0 <= i < n
    ensures PrevIndex(NextIndex(i, n), n) == i
    ensures NextIndex(PrevIndex(i, n), n) == i
  {
  }

  /** The keydown handler: ArrowLeft goes back, ArrowRight forward, any other key
      leaves the index alone. */
  function KeyStep(i: int, n: int, key: string): int
  {
    if key == "ArrowLeft" then PrevIndex(i, n)
    else if key == "ArrowRight" then NextIndex(i, n)
    else i
  }

  /** The index after a sequence of key presses. */
  function Walk(i: int, n: int, keys: seq<string>): int
    decreases |keys|
  {
    if keys == [] then i else Walk(KeyStep(i, n, keys[0]), n, keys[1..])
  }

  /** For a non-empty carousel the index never leaves [0, n), whatever keys are pressed. */
  lemma {:induction false} WalkStaysInRange(i: int, n: int, keys: seq<string>)
    requires 0 <= i < n
    ensures 0 <= Walk(i, n, keys) < n
    decreases |keys|
  {
    if keys != [] {
      WalkStaysInRange(KeyStep(i, n, keys[0]), n, keys[1..]);
    }
  }

  function Repeat(key: string, k: nat): (keys: seq<string>)
    ensures |keys| == k && forall j :: 0 <= j < k ==> keys[j] == key
  {
    seq(k, _ => key)
  }

  /** A non-zero multiple of n is at least n away from zero. */
  lemma MultipleBounds(d: int, n: int)
    requires n > 0
    ensures d >= 1 ==> d * n >= n
    ensures d <= -1 ==> d * n <= -n
  {
    if d >= 1 {
      assert d * n == (d - 1) * n + n;
    } else if d <= -1 {
      assert d * n == -((-d - 1) * n) - n;
    }
  }

  /** Adding the slide count does not change a position modulo the slide count. */
  lemma AddPeriod(k: int, n: int)
    requires n > 0
    ensures (n + k) % n == k % n
  {
    var q, r := k / n, k % n;
    var q', r' := (n + k) / n, (n + k) % n;
    assert k == q * n + r && 0 <= r < n;
    assert n + k == q' * n + r' && 0 <= r' < n;
    var d := q + 1 - q';
    assert d * n == (q + 1) * n - q' * n;
    assert (q + 1) * n == q * n + n;
    MultipleBounds(d, n);
  }

  /** Pressing ArrowRight k times advances by k slides modulo the slide count. */
  lemma {:induction false} RightPressesAdvance(i: int, n: int, k: nat)
    requires 0 <= i < n
    ensures Walk(i, n, Repeat("ArrowRight", k)) == (i + k) % n
    decreases k
  {
    if k > 0 {
      var keys := Repeat("ArrowRight", k);
      assert keys[1..] == Repeat("ArrowRight", k - 1);
      assert Walk(i, n, keys) == Walk(NextIndex(i, n), n, Repeat("ArrowRight", k - 1));
      RightPressesAdvance(NextIndex(i, n), n, k - 1);
      if i == n - 1 {
        AddPeriod(k - 1, n);
      }
    } else {
      assert Repeat("ArrowRight", 0) == [];
    }
  }

  /** Number of `true` flags. */
  function CountTrue(flags: seq<bool>): nat
  {
    if flags == [] then 0
    else CountTrue(flags[..|flags| - 1]) + (if flags[|flags| - 1] then 1 else 0)
  }

  /** The `isActive` flag of each slide: its position equals the current index. */
  function ActiveFlags(i: int, n: nat): (flags: seq<bool>)
    ensures |flags| == n && forall k :: 0 <= k < n ==> (flags[k] <==> k == i)
  {
    seq(n, k => k == i)
  }

  /** Exactly one slide is active when the index is in range, none otherwise. */
  lemma {:induction false} OneActiveFlag(i: int, n: nat)
    ensures CountTrue(ActiveFlags(i, n)) == if 0 <= i < n then 1 else 0
  {
    if n > 0 {
      assert ActiveFlags(i, n)[..n - 1] == ActiveFlags(i, n - 1);
      OneActiveFlag(i, n - 1);
    }
  }

  /** What the preview shows: which slide is active, and the "position / total" counter. */
  datatype Frame = Frame(active: seq<bool>, position: int, total: nat)

  class Preview {
    /** The slides received from the controller, unchecked. */
    const slides: seq<Json>
    /** `currentIndex`, starting at 0. */
    var currentIndex: int

    /** For a non-empty carousel the index is a valid slide position. With no
        slides nothing is shown, and the handlers may move the index anywhere. */
    ghost predicate Valid()
      reads this
    {
      |slides| > 0 ==> 0 <= currentIndex < |slides|
    }

    constructor (slides: seq<Json>)
      ensures this.slides == slides && currentIndex == 0 && Valid()
    {
      this.slides := slides;
      currentIndex := 0;
    }

    method GoToPrevious()
      requires Valid()
      modifies this
      ensures Valid()
      ensures currentIndex == PrevIndex(old(currentIndex), |slides|)
    {
      var isFirstSlide := currentIndex == 0;
      currentIndex := if isFirstSlide then |slides| - 1 else currentIndex - 1;
    }

    method GoToNext()
      requires Valid()
      modifies this
      ensures Valid()
      ensures currentIndex == NextIndex(old(currentIndex), |slides|)
    {
      var isLastSlide := currentIndex == |slides| - 1;
      currentIndex := if isLastSlide then 0 else currentIndex + 1;
    }

    /** `handleKeyDown`. */
    method HandleKeyDown(key: string)
      requires Valid()
      modifies this
      ensures Valid()
      ensures currentIndex == KeyStep(old(currentIndex), |slides|, key)
      ensures key != "ArrowLeft" && key != "ArrowRight" ==> currentIndex == old(currentIndex)
    {
      if key == "ArrowLeft" {
        GoToPrevious();
      } else if key == "ArrowRight" {
        GoToNext();
      }
    }

    /** The rendered preview: nothing for an empty slide list; otherwise exactly
        one active slide, the one at `currentIndex`, and the counter
        `currentIndex + 1` of `slides.length`. */
    function Render(): (v: Option<Frame>)
      reads this
      ensures v.None? <==> |slides| == 0
      ensures v.Some? ==> |v.value.active| == |slides| && v.value.total == |slides|
                          && v.value.position == currentIndex + 1
      ensures v.Some? && Valid() ==>
        CountTrue(v.value.active) == 1 && v.value.active[currentIndex]
        && 1 <= v.value.position <= v.value.total
    {
      if |slides| == 0 then None
      else
        OneActiveFlag(currentIndex, |slides|);
        Some(Frame(ActiveFlags(currentIndex, |slides|), currentIndex + 1, |slides|))
    }
  }
}
