/**
 * The read-more / read-less paragraph of a post. Its state is the displayed
 * `text` and the two link flags `isShowMore` ("Read More" is shown) and
 * `isShowLess` ("Read Less" is shown). Mounting truncates long content;
 * clicking either link toggles between the full and the truncated text.
 */
module ToggleTruncateText {
  import opened Sequences

  /** The marker put after a truncated prefix. */
  const Ellipsis: string := "... "

  /** The end index JavaScript's `s.slice(0, end)` uses for a string of length `len`. */
  function SliceEnd(len: nat, end: int): (k: nat)
    ensures k <= len
    ensures 0 <= end ==> k == if end < len then end else len
    ensures end < 0 ==> k == if len + end > 0 then len + end else 0
  {
    if end < 0 then (if len + end > 0 then len + end else 0)
    else if end < len then end else len
  }

  /** `s.slice(0, end)`: a negative `end` counts back from the end of `s`. */
  function Slice(s: string, end: int): (r: string)
    ensures IsPrefix(r, s)
    ensures |r| == SliceEnd(|s|, end)
  {
    s[..SliceEnd(|s|, end)]
  }

  /** The truncated text: `${text.slice(0, maxLength)}... `. */
  function Collapse(text: string, maxLength: int): (r: string)
    ensures IsPrefix(Slice(text, maxLength), r)
    ensures r[|Slice(text, maxLength)|..] == Ellipsis
    ensures 0 <= maxLength <= |text| ==> |r| == maxLength + |Ellipsis|
  {
    Slice(text, maxLength) + Ellipsis
  }

  /** The component's state: the text shown and whether each link is shown. */
  datatype View = View(text: string, isShowMore: bool, isShowLess: bool)

  /** At most one of "Read More" and "Read Less" is shown. */
  predicate Exclusive(v: View) {
    !(v.isShowMore && v.isShowLess)
  }

  /** A link is shown, so the user can click it and toggle. */
  predicate CanToggle(v: View) {
    v.isShowMore || v.isShowLess
  }

  /** The state before the mount effect, from the initial `useState` values:
      the full content, and no link to click. */
  function Initial(content: string): (v: View)
    ensures v.text == content
    ensures Exclusive(v) && !CanToggle(v)
  {
    View(content, false, false)
  }

  /** The mount effect, applied to the current state. */
  function MountStep(v: View, maxLength: int): (r: View)
    ensures r.isShowLess == v.isShowLess
    ensures Exclusive(r) <==> Exclusive(v) && (r.isShowMore ==> !v.isShowLess)
  {
    if |v.text| > maxLength then v.(text := Collapse(v.text, maxLength), isShowMore := true) else v
  }

  /** `handleToggle`, applied to the current state. */
  function ToggleStep(v: View, content: string, maxLength: int): (r: View)
    ensures Exclusive(r) && CanToggle(r)
    ensures r.isShowLess == v.isShowMore
  {
    if v.isShowMore then View(content, false, true)
    else View(Collapse(v.text, maxLength), true, false)
  }

  /** The state right after mounting with `content`. */
  function Mounted(content: string, maxLength: int): View {
    MountStep(Initial(content), maxLength)
  }

  /** The fully expanded state, reached by clicking "Read More". */
  function Expanded(content: string): View {
    View(content, false, true)
  }

  /** The state after mounting and then `n` clicks on whichever link is shown. */
  function AfterClicks(content: string, maxLength: int, n: nat): View
    decreases n
  {
    if n == 0 then Mounted(content, maxLength)
    else ToggleStep(AfterClicks(content, maxLength, n - 1), content, maxLength)
  }

  /** Content that fits is shown whole, with neither link. */
  lemma MountShortContent(content: string, maxLength: int)
    requires |content| <= maxLength
    ensures Mounted(content, maxLength) == View(content, false, false)
    ensures !CanToggle(Mounted(content, maxLength))
  {
  }

  /** Content that does not fit is shown truncated, with "Read More". */
  lemma MountLongContent(content: string, maxLength: int)
    requires |content| > maxLength
    ensures Mounted(content, maxLength) == View(Slice(content, maxLength) + Ellipsis, true, false)
    ensures 0 <= maxLength ==> Mounted(content, maxLength).text == content[..maxLength] + Ellipsis
  {
  }

  /** The collapsed text starts with the first `maxLength` characters and is
      `maxLength + 4` characters long. */
  lemma CollapsedShape(content: string, maxLength: int)
    requires 0 <= maxLength < |content|
    ensures |Mounted(content, maxLength).text| == maxLength + 4
    ensures Mounted(content, maxLength).text[..maxLength] == content[..maxLength]
  {
    var t := Mounted(content, maxLength).text;
    assert t == content[..maxLength] + Ellipsis;
    assert t[..maxLength] == content[..maxLength];
  }

  /** Clicking "Read More" shows the whole content and only "Read Less". */
  lemma ToggleWhileCollapsed(v: View, content: string, maxLength: int)
    requires v.isShowMore
    ensures ToggleStep(v, content, maxLength).text == content
    ensures ToggleStep(v, content, maxLength).isShowLess && !ToggleStep(v, content, maxLength).isShowMore
  {
  }

  /** Clicking "Read Less" truncates the text shown and shows only "Read More". */
  lemma ToggleWhileExpanded(v: View, content: string, maxLength: int)
    requires !v.isShowMore
    ensures ToggleStep(v, content, maxLength).text == Slice(v.text, maxLength) + Ellipsis
    ensures ToggleStep(v, content, maxLength).isShowMore && !ToggleStep(v, content, maxLength).isShowLess
  {
  }

  /** Expanding and then collapsing returns exactly to the mounted state,
      because the collapse slices `text`, which by then is `content`. */
  lemma ExpandCollapseRoundTrip(content: string, maxLength: int)
    requires |content| > maxLength
    ensures ToggleStep(Mounted(content, maxLength), content, maxLength) == Expanded(content)
    ensures ToggleStep(Expanded(content), content, maxLength) == Mounted(content, maxLength)
  {
  }

  /** Clicks alternate between the mounted (collapsed) state and the expanded
      state; so exactly one link is shown after every click. */
  lemma {:induction false} ClicksAlternate(content: string, maxLength: int, n: nat)
    requires |content| > maxLength
    ensures AfterClicks(content, maxLength, n) ==
              if n % 2 == 0 then Mounted(content, maxLength) else Expanded(content)
    ensures Exclusive(AfterClicks(content, maxLength, n)) && CanToggle(AfterClicks(content, maxLength, n))
    decreases n
  {
    if n > 0 {
      ClicksAlternate(content, maxLength, n - 1);
      ExpandCollapseRoundTrip(content, maxLength);
    }
  }

  /** At most one link is shown in every state a user can reach. */
  lemma {:induction false} ReachableExclusive(content: string, maxLength: int, n: nat)
    requires n > 0 ==> |content| > maxLength
    ensures Exclusive(AfterClicks(content, maxLength, n))
  {
    if n > 0 {
      ClicksAlternate(content, maxLength, n);
    }
  }

  /** The mounted component: `content` and `maxLength` are its props. */
  class ToggleTruncateTextTypography {
    const content: string
    const maxLength: int
    var text: string
    var isShowMore: bool
    var isShowLess: bool

    function State(): View
      reads this
    {
      View(text, isShowMore, isShowLess)
    }

    /** The first render: `text` is `content`, neither link is shown. */
    constructor (content: string, maxLength: int)
      ensures this.content == content && this.maxLength == maxLength
      ensures State() == Initial(content)
    {
      this.content := content;
      this.maxLength := maxLength;
      text := content;
      isShowMore := false;
      isShowLess := false;
    }

    /** The effect run once the component has mounted. */
    method MountEffect()
      modifies this
      ensures State() == MountStep(old(State()), maxLength)
      ensures old(State()) == Initial(content) ==> State() == Mounted(content, maxLength)
    {
      if |text| > maxLength {
        isShowMore := true;
        text := Collapse(text, maxLength);
      }
    }

    /** `handleToggle`, run when "Read More" or "Read Less" is clicked. */
    method HandleToggle()
      modifies this
      ensures State() == ToggleStep(old(State()), content, maxLength)
      ensures old(isShowMore) ==> text == content && isShowLess && !isShowMore
      ensures !(isShowMore && isShowLess)
    {
      if isShowMore {
        text := content;
        isShowLess := true;
        isShowMore := false;
      } else {
        text := Collapse(text, maxLength);
        isShowMore := true;
        isShowLess := false;
      }
    }
  }

  /** Mount the component, click "Read More" and then "Read Less": the text and
      the links are those right after mounting. */
  method MountExpandCollapse(content: string, maxLength: int)
    returns (mounted: View, expanded: View, collapsed: View)
    requires |content| > maxLength
    ensures mounted.text == Slice(content, maxLength) + Ellipsis && mounted.isShowMore && !mounted.isShowLess
    ensures expanded == View(content, false, true)
    ensures collapsed == mounted
  {
    var c := new ToggleTruncateTextTypography(content, maxLength);
    c.MountEffect();
    mounted := c.State();
    c.HandleToggle();
    expanded := c.State();
    c.HandleToggle();
    collapsed := c.State();
  }
}
