/**
 * The FAQ accordion: a list of questions, each with an `aria-expanded` flag and
 * an answer that is either open (its measured height and a 25px bottom padding)
 * or collapsed (height and padding 0). Clicking a question toggles it, and
 * opening one closes the others; the keyboard moves the focus round the list;
 * Escape and a click outside every item close everything.
 */
module Faq {
  import opened Wrappers
  import opened Keys

  /** No question expanded among `count`. */
  function Collapsed(count: nat): seq<bool>
  {
    seq(count, k => false)
  }

  /** At most one question is expanded. */
  predicate AtMostOne(s: seq<bool>)
  {
    forall j, k :: 0 <= j < |s| && 0 <= k < |s| && s[j] && s[k] ==> j == k
  }

  /**
   * The `aria-expanded` flags after question `i` is clicked: an expanded question
   * collapses alone; a collapsed one expands and every other one collapses.
   */
  function AfterClick(s: seq<bool>, i: nat): (r: seq<bool>)
    requires i < |s|
    ensures |r| == |s| && r[i] == !s[i]
    ensures s[i] ==> forall k :: 0 <= k < |s| && k != i ==> r[k] == s[k]
    ensures !s[i] ==> forall k :: 0 <= k < |s| && k != i ==> !r[k]
    ensures !s[i] ==> AtMostOne(r)
    ensures AtMostOne(s) ==> AtMostOne(r)
  {
    if s[i] then s[i := false] else seq(|s|, k => k == i)
  }

  /** Focus target of ArrowDown on question `i` of `n`: the next one, wrapping to the first. */
  function FocusDown(i: int, n: int): (r: int)
    requires 0 <= i < n
    ensures 0 <= r < n
    ensures r == if i == n - 1 then 0 else i + 1
  {
    (i + 1) % n
  }

  /** Focus target of ArrowUp on question `i` of `n`: the previous one, wrapping to the last. */
  function FocusUp(i: int, n: int): (r: int)
    requires 0 <= i < n
    ensures 0 <= r < n
    ensures r == if i == 0 then n - 1 else i - 1
  {
    (i - 1 + n) % n
  }

  /** ArrowUp undoes ArrowDown and ArrowDown undoes ArrowUp. */
  lemma FocusMovesUndo(i: int, n: int)
    requires 0 <= i < n
    ensures FocusUp(FocusDown(i, n), n) == i
    ensures FocusDown(FocusUp(i, n), n) == i
  {
  }

  /**
   * The flags after a click on the page: unchanged inside an FAQ item, all
   * collapsed outside every item.
   */
  function Dismissed(s: seq<bool>, insideItem: bool): (r: seq<bool>)
    ensures |r| == |s|
    ensures forall k :: 0 <= k < |s| ==> (r[k] <==> s[k] && insideItem)
  {
    if insideItem then s else Collapsed(|s|)
  }

  /** A second click at the same place changes nothing more. */
  lemma DismissedIdempotent(s: seq<bool>, insideItem: bool)
    ensures Dismissed(Dismissed(s, insideItem), insideItem) == Dismissed(s, insideItem)
  {
  }

  /** The questions of the FAQ section with their flags, answers and keyboard focus. */
  class Accordion {
    /** `aria-expanded` of each question. */
    var expanded: seq<bool>
    /** Each question's answer is open rather than collapsed. */
    var answerOpen: seq<bool>
    /** The question the keyboard handler last focused. */
    var focus: Option<nat>

    /** An open answer always belongs to an expanded question. */
    ghost predicate Valid()
      reads this
    {
      |answerOpen| == |expanded| &&
      (forall k :: 0 <= k < |expanded| && answerOpen[k] ==> expanded[k]) &&
      (focus.Some? ==> focus.value < |expanded|)
    }

    /**
     * Collapses every answer; the `aria-expanded` flags are left as the markup
     * has them.
     */
    constructor (initialExpanded: seq<bool>)
      ensures Valid()
      ensures expanded == initialExpanded && answerOpen == Collapsed(|initialExpanded|)
      ensures focus == None
    {
      expanded := initialExpanded;
      answerOpen := [];
      focus := None;
      new;
      var k := 0;
      while k < |expanded|
        modifies this`answerOpen
        invariant 0 <= k <= |expanded| && answerOpen == Collapsed(k)
      {
        answerOpen := answerOpen + [false];
        k := k + 1;
      }
    }

    /** Question `i` was clicked. */
    method Click(i: nat)
      requires Valid() && i < |expanded|
      modifies this`expanded, this`answerOpen
      ensures Valid()
      ensures expanded == AfterClick(old(expanded), i)
      ensures answerOpen == if old(expanded[i]) then old(answerOpen)[i := false] else expanded
    {
      var isExpanded := expanded[i];
      expanded := expanded[i := !isExpanded];
      if isExpanded {
        answerOpen := answerOpen[i := false];
      } else {
        answerOpen := answerOpen[i := true];
        var k := 0;
        while k < |expanded|
          invariant 0 <= k <= |expanded| == |answerOpen| == |old(expanded)|
          invariant expanded[i] && answerOpen[i]
          invariant forall j :: 0 <= j < k && j != i ==> !expanded[j] && !answerOpen[j]
          invariant forall j :: k <= j < |expanded| && j != i ==>
            expanded[j] == old(expanded[j]) && answerOpen[j] == old(answerOpen[j])
        {
          if k != i && expanded[k] {
            expanded := expanded[k := false];
            answerOpen := answerOpen[k := false];
          }
          k := k + 1;
        }
      }
    }

    /** Escape: clicks every expanded question in order, each click collapsing only itself. */
    method CloseAllByClicking()
      requires Valid()
      modifies this`expanded, this`answerOpen
      ensures Valid()
      ensures expanded == Collapsed(|old(expanded)|) && answerOpen == Collapsed(|old(expanded)|)
    {
      var k := 0;
      while k < |expanded|
        invariant Valid() && 0 <= k <= |expanded| == |old(expanded)|
        invariant forall j :: 0 <= j < k ==> !expanded[j]
        invariant forall j :: k <= j < |expanded| ==>
          expanded[j] == old(expanded[j]) && answerOpen[j] == old(answerOpen[j])
      {
        if expanded[k] {
          Click(k);
        }
        k := k + 1;
      }
    }

    /** A keydown on question `i`. */
    method KeyDown(i: nat, key: Key)
      requires Valid() && i < |expanded|
      modifies this
      ensures Valid() && |expanded| == |old(expanded)|
      ensures (key == Enter || key == Space) ==> expanded == AfterClick(old(expanded), i) && focus == old(focus)
      ensures (key == Enter || key == Space) ==>
        answerOpen == if old(expanded[i]) then old(answerOpen)[i := false] else expanded
      ensures key == ArrowDown ==> focus == Some(FocusDown(i, |old(expanded)|))
      ensures key == ArrowUp ==> focus == Some(FocusUp(i, |old(expanded)|))
      ensures key == Home ==> focus == Some(0)
      ensures key == End ==> focus == Some(|old(expanded)| - 1)
      ensures key in {ArrowDown, ArrowUp, Home, End} ==>
        expanded == old(expanded) && answerOpen == old(answerOpen)
      ensures key == Escape ==>
        expanded == Collapsed(|old(expanded)|) && answerOpen == Collapsed(|old(expanded)|) && focus == old(focus)
      ensures key in {ArrowLeft, ArrowRight, Other} ==> unchanged(this)
    {
      var n := |expanded|;
      if key == Enter || key == Space {
        Click(i);
      } else if key == ArrowDown || key == ArrowUp {
        var nextIndex;
        if key == ArrowDown {
          nextIndex := (i + 1) % n;
        } else {
          nextIndex := (i - 1 + n) % n;
        }
        focus := Some(nextIndex);
      } else if key == Home {
        focus := Some(0);
      } else if key == End {
        focus := Some(n - 1);
      } else if key == Escape {
        CloseAllByClicking();
      }
    }

    /** A click anywhere on the page; outside every FAQ item it collapses all questions. */
    method DocumentClick(insideItem: bool)
      requires Valid()
      modifies this`expanded, this`answerOpen
      ensures Valid()
      ensures expanded == Dismissed(old(expanded), insideItem)
      ensures answerOpen == Dismissed(old(answerOpen), insideItem)
    {
      if insideItem {
        return;
      }
      var k := 0;
      while k < |expanded|
        invariant Valid() && 0 <= k <= |expanded| == |old(expanded)|
        invariant forall j :: 0 <= j < k ==> !expanded[j]
        invariant forall j :: k <= j < |expanded| ==>
          expanded[j] == old(expanded[j]) && answerOpen[j] == old(answerOpen[j])
      {
        if expanded[k] {
          expanded := expanded[k := false];
          answerOpen := answerOpen[k := false];
        }
        k := k + 1;
      }
    }
  }
}
