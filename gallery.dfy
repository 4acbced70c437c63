/**
 * The work-item gallery (components/Gallery.tsx): a carousel over WORK_ITEMS with
 * previous/next buttons that wrap around, one dot per item that jumps to it, a
 * zero-padded "NN / NN" counter and a "LOGBOOK #<100 + id>" label.
 */
module Gallery {
  import Constants

  // ---------------------------------------------------------------------------
  // The index updaters passed to setCurrentIndex
  // ---------------------------------------------------------------------------

  /** The `next` updater: the last index wraps to 0, every other index moves up by one. */
  function NextIndex(i: int, n: nat): (r: int)
    requires 0 <= i < n
    ensures 0 <= r < n
    ensures r == (i + 1) % n
  {
    if i == n - 1 then 0 else i + 1
  }

  /** The `prev` updater: index 0 wraps to the last index, every other index moves down by one. */
  function PrevIndex(i: int, n: nat): (r: int)
    requires 0 <= i < n
    ensures 0 <= r < n
    ensures r == (i - 1) % n
  {
    if i == 0 then n - 1 else i - 1
  }

  lemma PrevUndoesNext(i: int, n: nat)
    requires 0 <= i < n
    ensures PrevIndex(NextIndex(i, n), n) == i
  {
  }

  lemma NextUndoesPrev(i: int, n: nat)
    requires 0 <= i < n
    ensures NextIndex(PrevIndex(i, n), n) == i
  {
  }

  /** The index after `k` presses of the next button, starting from `i`. */
  function NextTimes(i: int, n: nat, k: nat): (r: int)
    requires 0 <= i < n
    ensures 0 <= r < n
  {
    if k == 0 then i else NextIndex(NextTimes(i, n, k - 1), n)
  }

  /** Before reaching the last item, each press moves exactly one item on. */
  lemma {:induction false} NextTimesNoWrap(i: int, n: nat, k: nat)
    requires 0 <= i && i + k < n
    ensures NextTimes(i, n, k) == i + k
  {
    if k > 0 {
      NextTimesNoWrap(i, n, k - 1);
    }
  }

  /** Pressing `a` times and then `b` times is pressing `a + b` times. */
  lemma {:induction false} NextTimesAdd(i: int, n: nat, a: nat, b: nat)
    requires 0 <= i < n
    ensures NextTimes(NextTimes(i, n, a), n, b) == NextTimes(i, n, a + b)
  {
    if b > 0 {
      NextTimesAdd(i, n, a, b - 1);
    }
  }

  /** Pressing next once per item brings the gallery back to where it started. */
  lemma NextCycle(i: int, n: nat)
    requires 0 <= i < n
    ensures NextTimes(i, n, n) == i
  {
    var toLast := n - 1 - i;
    NextTimesNoWrap(i, n, toLast);
    assert NextTimes(i, n, toLast + 1) == 0;
    NextTimesNoWrap(0, n, i);
    NextTimesAdd(i, n, toLast + 1, i);
  }

  // ---------------------------------------------------------------------------
  // Progress dots
  // ---------------------------------------------------------------------------

  /** The dot test `idx === currentIndex` that widens and colours the active dot. */
  predicate IsActiveDot(idx: int, current: int)
  {
    idx == current
  }

  /** Among the dots 0..n-1, exactly the current one is active. */
  lemma ExactlyOneActiveDot(current: int, n: nat)
    requires 0 <= current < n
    ensures (set idx | 0 <= idx < n && IsActiveDot(idx, current)) == {current}
    ensures |set idx | 0 <= idx < n && IsActiveDot(idx, current)| == 1
  {
    assert forall idx :: 0 <= idx < n && IsActiveDot(idx, current) <==> idx in {current};
    assert (set idx | 0 <= idx < n && IsActiveDot(idx, current)) == {current};
  }

  // ---------------------------------------------------------------------------
  // Counter and label text
  // ---------------------------------------------------------------------------

  function DigitChar(d: nat): (c: char)
    requires d < 10
    ensures '0' <= c <= '9'
    ensures (c as int) - ('0' as int) == d
  {
    ('0' as int + d) as char
  }

  predicate IsDigits(s: string)
  {
    forall k :: 0 <= k < |s| ==> '0' <= s[k] <= '9'
  }

  /** The decimal value of a string of digits, read most significant first. */
  function DigitsValue(s: string): nat
    requires IsDigits(s)
  {
    if s == [] then 0 else DigitsValue(s[..|s| - 1]) * 10 + ((s[|s| - 1] as int) - ('0' as int))
  }

  /** `String(k)` for a non-negative integer: its decimal digits without leading zeros. */
  function NatToString(k: nat): (s: string)
    ensures IsDigits(s) && DigitsValue(s) == k
    ensures |s| >= 1 && (|s| == 1 <==> k < 10)
    ensures |s| > 1 ==> s[0] != '0'
  {
    if k < 10 then [DigitChar(k)]
    else
      var prefix := NatToString(k / 10);
      var s := prefix + [DigitChar(k % 10)];
      assert s[..|s| - 1] == prefix;
      s
  }

  /** `s.padStart(width, fill)`: fill characters are prepended until the length is at least `width`. */
  function PadStart(s: string, width: nat, fill: char): (r: string)
    ensures |r| == if |s| >= width then |s| else width
    ensures r[|r| - |s|..] == s
    ensures forall k :: 0 <= k < |r| - |s| ==> r[k] == fill
  {
    if |s| >= width then s else seq(width - |s|, _ => fill) + s
  }

  /** `String(k).padStart(2, '0')`: a single digit gets one leading zero, longer numbers are unchanged. */
  lemma PadTwoDigits(k: nat)
    ensures k < 10 ==> PadStart(NatToString(k), 2, '0') == ['0', DigitChar(k)]
    ensures k >= 10 ==> PadStart(NatToString(k), 2, '0') == NatToString(k)
  {
    if k < 10 {
      var s := NatToString(k);
      assert s == [DigitChar(k)];
      var r := PadStart(s, 2, '0');
      assert |r| == 2 && r[0] == '0' && r[1..] == s;
    }
  }

  /** The image counter text: position and item count, each padded to two digits. */
  function CounterText(current: int, n: nat): string
    requires 0 <= current < n
  {
    PadStart(NatToString(current + 1), 2, '0') + " / " + PadStart(NatToString(n), 2, '0')
  }

  lemma CounterOfFirstOfFour()
    ensures CounterText(0, 4) == "01 / 04"
  {
    PadTwoDigits(1);
    PadTwoDigits(4);
  }

  /** The logbook label: "LOGBOOK #" followed by the item id plus 100. */
  function LogbookLabel(id: nat): (r: string)
    ensures |r| > 9 && r[..9] == "LOGBOOK #"
    ensures IsDigits(r[9..]) && DigitsValue(r[9..]) == 100 + id
    ensures r[9..] == NatToString(100 + id)
  {
    var r := "LOGBOOK #" + NatToString(100 + id);
    assert r[9..] == NatToString(100 + id);
    r
  }

  // ---------------------------------------------------------------------------
  // The component state
  // ---------------------------------------------------------------------------

  /** The gallery's `currentIndex` state over a fixed, non-empty list of work items. */
  class Carousel {
    const itemIds: seq<nat>
    var currentIndex: int

    ghost predicate Valid()
      reads this
    {
      |itemIds| >= 1 && 0 <= currentIndex < |itemIds|
    }

    /** `useState(0)`: the gallery opens on the first item. */
    constructor (ids: seq<nat>)
      requires |ids| >= 1
      ensures Valid() && itemIds == ids && currentIndex == 0
    {
      itemIds := ids;
      currentIndex := 0;
    }

    /** The next button. */
    method Next()
      requires Valid()
      modifies this
      ensures Valid()
      ensures currentIndex == NextIndex(old(currentIndex), |itemIds|)
    {
      currentIndex := NextIndex(currentIndex, |itemIds|);
    }

    /** The previous button. */
    method Prev()
      requires Valid()
      modifies this
      ensures Valid()
      ensures currentIndex == PrevIndex(old(currentIndex), |itemIds|)
    {
      currentIndex := PrevIndex(currentIndex, |itemIds|);
    }

    /** A click on dot `idx` (one dot is rendered per work item). */
    method SelectDot(idx: int)
      requires Valid() && 0 <= idx < |itemIds|
      modifies this
      ensures Valid() && currentIndex == idx
      ensures forall d :: 0 <= d < |itemIds| ==> (IsActiveDot(d, currentIndex) <==> d == idx)
    {
      currentIndex := idx;
    }

    function Counter(): string
      reads this
      requires Valid()
    {
      CounterText(currentIndex, |itemIds|)
    }

    function Label(): string
      reads this
      requires Valid()
    {
      LogbookLabel(itemIds[currentIndex])
    }
  }

  /** Three presses of previous from the first of four items visit 3, 2 and 1. */
  method PrevFromFirstOfFour()
  {
    var g := new Carousel(Constants.WorkItemIds);
    g.Prev();
    assert g.currentIndex == 3;
    g.Prev();
    assert g.currentIndex == 2;
    g.Prev();
    assert g.currentIndex == 1;
    g.Next();
    assert g.currentIndex == 2;
  }
}
