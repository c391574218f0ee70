/**
 * PatureStackLayout: the swipe-card stack. It shows at most three adapter positions,
 * starting at `topPosition`; child 0 is the bottom card and the last child the top card.
 * A child view is identified here by the adapter position it was created for.
 */
module StackLayout {
  import opened Wrappers

  const MaxVisible: int := 3

  datatype Direction = Left | Right

  /** What the swipe listener is told: the position that left the stack and the direction. */
  datatype Swipe = Swipe(position: int, direction: Direction)

  /** The positions hi-1, hi-2, ..., lo: a run of cards listed bottom to top. */
  function Run(lo: int, hi: int): (r: seq<int>)
    ensures |r| == if hi <= lo then 0 else hi - lo
    ensures forall j :: 0 <= j < |r| ==> r[j] == hi - 1 - j
    decreases hi - lo
  {
    if hi <= lo then [] else [hi - 1] + Run(lo, hi - 1)
  }

  function Min(a: int, b: int): int { if a <= b then a else b }

  /** The children the stack should hold: positions top .. min(count, top+3)-1, top card last. */
  function Window(top: int, count: int): (r: seq<int>)
    ensures |r| <= MaxVisible
    ensures forall j :: 0 <= j < |r| ==> top <= r[j] < count
    ensures r == [] <==> top >= count
    ensures r != [] ==> r[|r| - 1] == top
  {
    Run(top, Min(count, top + MaxVisible))
  }

  /** What `fillStackIfNeeded` does to `children`: add position top+|children| at the bottom while room and cards remain. */
  function Filled(children: seq<int>, top: int, count: int): seq<int>
    decreases MaxVisible - |children|
  {
    if |children| < MaxVisible && top + |children| < count then Filled([top + |children|] + children, top, count)
    else children
  }

  /** Filling never goes past three children. */
  lemma {:induction false} FilledBounded(children: seq<int>, top: int, count: int)
    ensures |Filled(children, top, count)| <= if |children| > MaxVisible then |children| else MaxVisible
    decreases MaxVisible - |children|
  {
    if |children| < MaxVisible && top + |children| < count {
      FilledBounded([top + |children|] + children, top, count);
    }
  }

  /** Filling a top-part of the window completes the window. */
  lemma {:induction false} FilledCompletesWindow(top: int, count: int, k: int)
    requires 0 <= k <= MaxVisible && (k == 0 || top + k <= count)
    ensures Filled(Run(top, top + k), top, count) == Window(top, count)
    decreases MaxVisible - k
  {
    var c := Run(top, top + k);
    if k < MaxVisible && top + k < count {
      assert [top + k] + c == Run(top, top + k + 1);
      FilledCompletesWindow(top, count, k + 1);
    } else {
      assert c == Run(top, Min(count, top + MaxVisible));
    }
  }

  /** Removing the top card of a window and filling gives the window one position further. */
  lemma PopThenFillIsNextWindow(top: int, count: int)
    requires top < count
    ensures var w := Window(top, count);
      Filled(w[..|w| - 1], top + 1, count) == Window(top + 1, count)
  {
    var w := Window(top, count);
    var hi := Min(count, top + MaxVisible);
    assert w[..|w| - 1] == Run(top + 1, hi);
    FilledCompletesWindow(top + 1, count, hi - (top + 1));
  }

  /** The first occurrence of `v` taken out, as `ViewGroup.removeView` does; unchanged if absent. */
  function Without(s: seq<int>, v: int): (r: seq<int>)
    ensures v !in s ==> r == s
    ensures v in s ==> |r| == |s| - 1
    ensures forall x :: x in r ==> x in s
  {
    if s == [] then []
    else if s[0] == v then s[1..]
    else [s[0]] + Without(s[1..], v)
  }

  class PatureStackLayout {
    /** The adapter's item count, or None while no adapter is set. */
    var adapterCount: Option<int>
    var topPosition: int
    /** Child views, bottom to top, as adapter positions. */
    var children: seq<int>

    /** The stack shows exactly the window at `topPosition`. */
    ghost predicate Valid()
      reads this
    {
      topPosition >= 0 &&
      (adapterCount.Some? ==> adapterCount.value >= 0 && children == Window(topPosition, adapterCount.value)) &&
      (adapterCount.None? ==> children == [])
    }

    constructor ()
      ensures Valid() && adapterCount.None? && topPosition == 0 && children == []
    {
      adapterCount := None;
      topPosition := 0;
      children := [];
    }

    function TopAdapterPosition(): int
      reads this
    {
      topPosition
    }

    /** `hasCards`: an adapter is set and positions remain from `topPosition` on. */
    function HasCards(): (r: bool)
      reads this
      ensures Valid() ==> (r <==> children != [])
    {
      adapterCount.Some? && topPosition < adapterCount.value
    }

    /** `getTopCardView`: the last child. */
    function TopCard(): (r: Option<int>)
      reads this
      ensures r.None? <==> children == []
      ensures Valid() && r.Some? ==> r.value == topPosition
    {
      if |children| == 0 then None else Some(children[|children| - 1])
    }

    /** `getSecondCardView`: the child under the top one, when there are two. */
    function SecondCard(): (r: Option<int>)
      reads this
      ensures r.None? <==> |children| < 2
      ensures Valid() && r.Some? ==> r.value == topPosition + 1
    {
      if |children| < 2 then None else Some(children[|children| - 2])
    }

    /** `setAdapter`: back to position 0 and a rebuilt stack. */
    method SetAdapter(count: int)
      requires count >= 0
      modifies this
      ensures Valid()
      ensures adapterCount == Some(count) && topPosition == 0
      ensures children == Window(0, count)
    {
      adapterCount := Some(count);
      topPosition := 0;
      BuildInitialStack();
    }

    /** `buildInitialStack`: adds positions end-1 down to `topPosition`, each on top of the previous. */
    method BuildInitialStack()
      requires topPosition >= 0 && (adapterCount.Some? ==> adapterCount.value >= 0)
      modifies this`children
      ensures Valid()
    {
      children := [];
      if adapterCount.None? {
        return;
      }
      var count := adapterCount.value;
      if topPosition >= count {
        return;
      }
      var end := Min(count, topPosition + MaxVisible);
      var i := end - 1;
      while i >= topPosition
        invariant topPosition - 1 <= i < end
        invariant children == Run(i + 1, end)
      {
        assert Run(i, end) == Run(i + 1, end) + [i];
        children := children + [i];
        i := i - 1;
      }
    }

    /** `fillStackIfNeeded`: inserts the next position at the bottom while fewer than three children. */
    method FillStackIfNeeded()
      modifies this`children
      ensures adapterCount.None? ==> children == old(children)
      ensures adapterCount.Some? ==> children == Filled(old(children), topPosition, adapterCount.value)
    {
      if adapterCount.None? {
        return;
      }
      while |children| < MaxVisible
        invariant Filled(children, topPosition, adapterCount.value) == Filled(old(children), topPosition, adapterCount.value)
        decreases MaxVisible - |children|
      {
        var nextIndex := topPosition + |children|;
        if nextIndex >= adapterCount.value {
          break;
        }
        children := [nextIndex] + children;
      }
    }

    /** What the stack holds once `fillStackIfNeeded` has run on `left` at the current position. */
    ghost function Refilled(left: seq<int>): seq<int>
      reads this
    {
      if adapterCount.Some? then Filled(left, topPosition, adapterCount.value) else left
    }

    /**
     * `popCard()`: takes the top card off without notifying anyone. `removeFails` stands
     * for `removeView` throwing, which leaves the stack as it was. It runs in any state,
     * including one a failed `onCardRemoved` left; from a valid stack it keeps it valid.
     */
    method PopCard(removeFails: bool) returns (popped: Option<int>)
      modifies this
      ensures adapterCount == old(adapterCount)
      ensures old(children) == [] || removeFails ==>
        popped.None? && topPosition == old(topPosition) && children == old(children)
      ensures old(children) != [] && !removeFails ==>
        popped == Some(old(children)[|old(children)| - 1]) && topPosition == old(topPosition) + 1 &&
        children == Refilled(old(children)[..|old(children)| - 1])
      ensures old(Valid()) ==> Valid()
      ensures old(Valid()) && old(children) != [] && !removeFails ==> popped == Some(old(topPosition))
    {
      if |children| == 0 {
        return None;
      }
      var top := children[|children| - 1];
      if removeFails {
        return None;
      }
      if Valid() {
        PopThenFillIsNextWindow(topPosition, adapterCount.value);
      }
      children := children[..|children| - 1];
      topPosition := topPosition + 1;
      FillStackIfNeeded();
      popped := Some(top);
    }

    /** `popCard(direction)`: as `popCard()`, then tells the listener the pre-pop position. */
    method PopCardInDirection(direction: Direction, removeFails: bool) returns (popped: Option<int>, notified: Option<Swipe>)
      modifies this
      ensures adapterCount == old(adapterCount)
      ensures old(children) == [] || removeFails ==>
        popped.None? && notified.None? && topPosition == old(topPosition) && children == old(children)
      ensures old(children) != [] && !removeFails ==>
        popped == Some(old(children)[|old(children)| - 1]) && topPosition == old(topPosition) + 1 &&
        children == Refilled(old(children)[..|old(children)| - 1]) &&
        notified == Some(Swipe(old(topPosition), direction))
      ensures old(Valid()) ==> Valid()
      ensures old(Valid()) && old(children) != [] && !removeFails ==> popped == Some(old(topPosition))
    {
      if |children| == 0 {
        return None, None;
      }
      var top := children[|children| - 1];
      var swipedPosition := topPosition;
      if removeFails {
        return None, None;
      }
      if Valid() {
        PopThenFillIsNextWindow(topPosition, adapterCount.value);
      }
      children := children[..|children| - 1];
      topPosition := topPosition + 1;
      FillStackIfNeeded();
      popped, notified := Some(top), Some(Swipe(swipedPosition, direction));
    }

    /**
     * `onCardRemoved`, run when the fly-out animation of `card` ends. A failing
     * `removeView` is only logged: the position still advances, so the stack then
     * keeps a card that is no longer in the window. The same happens when `card` is
     * no longer a child, as after a second programmatic swipe of the same card.
     */
    method OnCardRemoved(card: int, direction: Direction, removeFails: bool) returns (notified: Swipe)
      modifies this
      ensures notified == Swipe(old(topPosition), direction)
      ensures topPosition == old(topPosition) + 1 && adapterCount == old(adapterCount)
      ensures children == Refilled(if removeFails then old(children) else Without(old(children), card))
      ensures old(Valid()) && !removeFails && old(TopCard()) == Some(card) ==> Valid()
    {
      var swipedPosition := topPosition;
      if !removeFails {
        if Valid() && |children| > 0 && children[|children| - 1] == card {
          RemoveTopThenFillIsNextWindow(topPosition, adapterCount.value);
        }
        children := Without(children, card);
      }
      topPosition := topPosition + 1;
      FillStackIfNeeded();
      notified := Swipe(swipedPosition, direction);
    }
  }

  /** The top card of a window occurs nowhere below it. */
  lemma TopOccursOnce(top: int, count: int)
    requires top < count
    ensures var w := Window(top, count); w[..|w| - 1] + [top] == w && top !in w[..|w| - 1]
  {
    var w := Window(top, count);
    assert w[..|w| - 1] + [w[|w| - 1]] == w;
    var below := w[..|w| - 1];
    forall j | 0 <= j < |below|
      ensures below[j] != top
    {
      assert below[j] == w[j];
    }
  }

  /** Removing the top card's view by identity and filling gives the window one position further. */
  lemma RemoveTopThenFillIsNextWindow(top: int, count: int)
    requires top < count
    ensures Filled(Without(Window(top, count), top), top + 1, count) == Window(top + 1, count)
  {
    var w := Window(top, count);
    TopOccursOnce(top, count);
    WithoutAppended(w[..|w| - 1], top);
    PopThenFillIsNextWindow(top, count);
  }

  /** Taking out a card that was appended to a stack without it gives back that stack. */
  lemma {:induction false} WithoutAppended(s: seq<int>, v: int)
    requires v !in s
    ensures Without(s + [v], v) == s
    decreases |s|
  {
    if s != [] {
      assert (s + [v])[1..] == s[1..] + [v];
      WithoutAppended(s[1..], v);
      assert [s[0]] + s[1..] == s;
    }
  }
}
