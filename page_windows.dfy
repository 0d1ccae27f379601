/** The page-window arithmetic of NinjaPaginator: which page numbers the digg and
    filmfeed styles show, as values. `p` is the number of pages, `n` the current
    page and `f` the frame size. Python 2's `/` on these non-negative operands is
    floor division, which is what Dafny's `/` computes for a positive divisor. */
module PageWindows {
  import opened Wrappers

  /** Python 2's `range(lo, hi)`: the integers `lo, lo + 1, ..., hi - 1`, empty when `hi <= lo`. */
  function Range(lo: int, hi: int): (r: seq<int>)
    ensures |r| == if lo < hi then hi - lo else 0
    ensures forall i :: 0 <= i < |r| ==> r[i] == lo + i
    decreases hi - lo
  {
    if hi <= lo then [] else [lo] + Range(lo + 1, hi)
  }

  /** A strictly increasing run of consecutive integers. */
  predicate IsRun(s: seq<int>)
  {
    forall i :: 0 <= i < |s| ==> s[i] == s[0] + i
  }

  /** Every entry is a page that exists. */
  predicate WithinPages(s: seq<int>, p: int)
  {
    forall i :: 0 <= i < |s| ==> 1 <= s[i] <= p
  }

  /** Every entry of `a` is smaller than every entry of `b`: the two clusters are disjoint and in order. */
  predicate Precedes(a: seq<int>, b: seq<int>)
  {
    forall i, j :: 0 <= i < |a| && 0 <= j < |b| ==> a[i] < b[j]
  }

  /** Like Precedes, and at least one page lies strictly between the two clusters (an ellipsis gap). */
  predicate PrecedesWithGap(a: seq<int>, b: seq<int>)
  {
    forall i, j :: 0 <= i < |a| && 0 <= j < |b| ==> a[i] + 1 < b[j]
  }

  /** A cluster that is absent, or a run of existing pages. */
  predicate WellFormedCluster(c: Option<seq<int>>, p: int)
  {
    c.Some? ==> IsRun(c.value) && WithinPages(c.value, p)
  }

  predicate Shows(c: Option<seq<int>>, x: int)
  {
    c.Some? && x in c.value
  }

  /** What digg_style writes: the previous/next markers and up to three clusters. */
  datatype DiggView = DiggView(
    previous: Option<int>,
    next: Option<int>,
    left: Option<seq<int>>,
    middle: Option<seq<int>>,
    right: Option<seq<int>>)

  /** The digg style's five-branch decision, first match wins; when no branch
      matches (only when `p == f`) no cluster is written. PREVIOUS is given
      exactly when the current page is not the first, and names the page before;
      NEXT exactly when it is not the last, and names the page after. Once there
      are more than f + 2 pages the last three branches cover every current page. */
  function DiggWindow(p: nat, n: int, f: nat): (d: DiggView)
    ensures d.previous.Some? <==> n > 1
    ensures d.previous.Some? ==> d.previous.value == n - 1
    ensures d.next.Some? <==> n < p
    ensures d.next.Some? ==> d.next.value == n + 1
    ensures d.left.Some? <==> p != f
    ensures d.middle.Some? <==> p > f + 2 && n > f - 2
    ensures d.right.Some? <==> p > f + 2 && (n < f - 1 || p - f / 2 > n + 1)
  {
    var previous := if n > 1 then Some(n - 1) else None;
    var next := if n < p then Some(n + 1) else None;
    if f < p <= f + 2 then
      DiggView(previous, next, Some(Range(1, p + 1)), None, None)
    else if p < f then
      DiggView(previous, next, Some(Range(1, p + 1)), None, None)
    else if p > f && n < f - 1 then
      DiggView(previous, next, Some(Range(1, f + 1)), None, Some(Range(p - 1, p + 1)))
    else if p > f && n > f - 2 && p - f / 2 <= n + 1 then
      DiggView(previous, next, Some(Range(1, 3)), Some(Range(p - f + 1, p + 1)), None)
    else if p > f && n > f - 2 then
      DiggView(previous, next, Some(Range(1, 3)), Some(Range(n - f / 2 + 1, n + f / 2)), Some(Range(p - 1, p + 1)))
    else
      DiggView(previous, next, None, None, None)
  }

  /** The filmfeed style's single sliding window. The source's fourth branch
      repeats the negation of its second, so one of the four always applies.
      For a current page that exists, the window is a run of existing pages. */
  function FilmfeedWindow(p: nat, n: int, f: nat): (w: seq<int>)
    ensures 1 <= n <= p ==> IsRun(w) && WithinPages(w, p)
  {
    if p < f then Range(1, p + 1)
    else if n < f / 2 + 1 then Range(1, f + 1)
    else if p - f / 2 <= n then Range(p - f + 1, p + 1)
    else Range(n - f / 2, n + f / 2 + 1)
  }

  lemma InRange(lo: int, hi: int, x: int)
    requires lo <= x < hi
    ensures x in Range(lo, hi)
  {
    assert Range(lo, hi)[x - lo] == x;
  }

  // ---------------------------------------------------------------- digg

  /** Too few pages to truncate: all pages in the left cluster, nothing else. */
  lemma DiggUntruncated(p: nat, n: int, f: nat)
    requires f < p <= f + 2 || p < f
    ensures DiggWindow(p, n, f).left == Some(Range(1, p + 1))
    ensures DiggWindow(p, n, f).middle.None? && DiggWindow(p, n, f).right.None?
    ensures |DiggWindow(p, n, f).left.value| == p
  {
  }

  /** When the page count equals the frame size no branch applies and no cluster is written. */
  lemma DiggFrameEqualsPages(p: nat, n: int, f: nat)
    requires p == f
    ensures DiggWindow(p, n, f).left.None?
    ensures DiggWindow(p, n, f).middle.None?
    ensures DiggWindow(p, n, f).right.None?
  {
  }

  /** Near the start: the first f pages and the last two, separated by a gap. */
  lemma DiggNearStart(p: nat, n: int, f: nat)
    requires p > f + 2 && n < f - 1
    ensures DiggWindow(p, n, f).left == Some(Range(1, f + 1))
    ensures DiggWindow(p, n, f).middle.None?
    ensures DiggWindow(p, n, f).right == Some([p - 1, p])
    ensures PrecedesWithGap(DiggWindow(p, n, f).left.value, DiggWindow(p, n, f).right.value)
  {
    assert Range(p - 1, p + 1) == [p - 1, p];
  }

  /** Near the end: pages 1 and 2, then the last f pages, which start after a gap; no right cluster. */
  lemma DiggNearEnd(p: nat, n: int, f: nat)
    requires p > f + 2 && n > f - 2 && p - f / 2 <= n + 1
    ensures DiggWindow(p, n, f).left == Some([1, 2])
    ensures DiggWindow(p, n, f).middle == Some(Range(p - f + 1, p + 1))
    ensures DiggWindow(p, n, f).right.None?
    ensures |DiggWindow(p, n, f).middle.value| == f
    ensures PrecedesWithGap(DiggWindow(p, n, f).left.value, DiggWindow(p, n, f).middle.value)
    ensures f > 0 ==> DiggWindow(p, n, f).middle.value[f - 1] == p
  {
    assert Range(1, 3) == [1, 2];
  }

  /** In the middle: pages 1 and 2, a window around n, and the last two pages;
      the window ends two pages before the right cluster starts. */
  lemma DiggMiddle(p: nat, n: int, f: nat)
    requires p > f + 2 && n > f - 2 && p - f / 2 > n + 1
    ensures DiggWindow(p, n, f).left == Some([1, 2])
    ensures DiggWindow(p, n, f).middle == Some(Range(n - f / 2 + 1, n + f / 2))
    ensures DiggWindow(p, n, f).right == Some([p - 1, p])
    ensures f >= 2 ==> |DiggWindow(p, n, f).middle.value| == 2 * (f / 2) - 1
    ensures PrecedesWithGap(DiggWindow(p, n, f).middle.value, DiggWindow(p, n, f).right.value)
  {
    assert Range(1, 3) == [1, 2];
    assert Range(p - 1, p + 1) == [p - 1, p];
  }

  /** For a current page that exists, every cluster is a run of existing pages. */
  lemma DiggBounds(p: nat, n: int, f: nat)
    requires 1 <= n <= p
    ensures WellFormedCluster(DiggWindow(p, n, f).left, p)
    ensures WellFormedCluster(DiggWindow(p, n, f).middle, p)
    ensures WellFormedCluster(DiggWindow(p, n, f).right, p)
  {
  }

  /** With a frame of three or more, the current page appears in some cluster
      whenever any cluster is written (that is, unless the page count equals the frame size). */
  lemma DiggShowsCurrentPage(p: nat, n: int, f: nat)
    requires 1 <= n <= p && f >= 3 && p != f
    ensures Shows(DiggWindow(p, n, f).left, n) || Shows(DiggWindow(p, n, f).middle, n) || Shows(DiggWindow(p, n, f).right, n)
  {
    if f < p <= f + 2 || p < f {
      InRange(1, p + 1, n);
    } else if p > f && n < f - 1 {
      InRange(1, f + 1, n);
    } else if p > f && n > f - 2 && p - f / 2 <= n + 1 {
      InRange(p - f + 1, p + 1, n);
    } else if p > f && n > f - 2 {
      InRange(n - f / 2 + 1, n + f / 2, n);
    }
  }

  /** With a frame of five or more, the clusters are disjoint and in ascending order. */
  lemma DiggClustersOrdered(p: nat, n: int, f: nat)
    requires 1 <= n <= p && f >= 5
    ensures var d := DiggWindow(p, n, f);
      (d.left.Some? && d.middle.Some? ==> Precedes(d.left.value, d.middle.value)) &&
      (d.middle.Some? && d.right.Some? ==> Precedes(d.middle.value, d.right.value)) &&
      (d.left.Some? && d.right.Some? ==> Precedes(d.left.value, d.right.value))
  {
  }

  /** With a frame of four, page 2 can appear in both the left and the middle cluster. */
  lemma DiggRepeatsPageWithSmallFrame()
    ensures DiggWindow(7, 3, 4).left == Some([1, 2])
    ensures DiggWindow(7, 3, 4).middle == Some([2, 3, 4])
    ensures !Precedes(DiggWindow(7, 3, 4).left.value, DiggWindow(7, 3, 4).middle.value)
  {
    assert Range(1, 3) == [1, 2];
    assert Range(2, 5) == [2, 3, 4];
    assert DiggWindow(7, 3, 4).left.value[1] == DiggWindow(7, 3, 4).middle.value[0];
  }

  /** With a frame of two, page 3 of 5 lies in the gap between the left and the middle cluster. */
  lemma DiggHidesPageWithFrameTwo()
    ensures DiggWindow(5, 3, 2).left == Some([1, 2])
    ensures DiggWindow(5, 3, 2).middle == Some([4, 5])
    ensures DiggWindow(5, 3, 2).right.None?
    ensures !Shows(DiggWindow(5, 3, 2).left, 3) && !Shows(DiggWindow(5, 3, 2).middle, 3)
  {
    assert Range(1, 3) == [1, 2];
    assert Range(4, 6) == [4, 5];
  }

  /** Concrete layouts with the default frame size of 8: few pages, untruncated. */
  lemma DiggExampleFewPages()
    ensures DiggWindow(5, 3, 8) == DiggView(Some(2), Some(4), Some([1, 2, 3, 4, 5]), None, None)
  {
    assert Range(1, 6) == [1, 2, 3, 4, 5];
  }

  /** 20 pages, on the first page: the first eight and the last two. */
  lemma DiggExampleFirstPage()
    ensures DiggWindow(20, 1, 8) == DiggView(None, Some(2), Some([1, 2, 3, 4, 5, 6, 7, 8]), None, Some([19, 20]))
  {
    assert Range(1, 9) == [1, 2, 3, 4, 5, 6, 7, 8];
    assert Range(19, 21) == [19, 20];
  }

  /** 20 pages, on page 19: pages 1 and 2, then the last eight. */
  lemma DiggExampleNearEnd()
    ensures DiggWindow(20, 19, 8) == DiggView(Some(18), Some(20), Some([1, 2]), Some([13, 14, 15, 16, 17, 18, 19, 20]), None)
  {
    assert Range(1, 3) == [1, 2];
    assert Range(13, 21) == [13, 14, 15, 16, 17, 18, 19, 20];
  }

  /** 20 pages, on page 10: pages 1 and 2, pages 7 to 13, and pages 19 and 20. */
  lemma DiggExampleMiddle()
    ensures DiggWindow(20, 10, 8) == DiggView(Some(9), Some(11), Some([1, 2]), Some([7, 8, 9, 10, 11, 12, 13]), Some([19, 20]))
  {
    assert Range(1, 3) == [1, 2];
    assert Range(7, 14) == [7, 8, 9, 10, 11, 12, 13];
    assert Range(19, 21) == [19, 20];
  }

  // ------------------------------------------------------------ filmfeed

  /** Fewer pages than the frame: all of them. */
  lemma FilmfeedUntruncated(p: nat, n: int, f: nat)
    requires p < f
    ensures FilmfeedWindow(p, n, f) == Range(1, p + 1)
    ensures |FilmfeedWindow(p, n, f)| == p
  {
  }

  /** The window pinned to the start or to the end holds exactly f pages. */
  lemma FilmfeedPinned(p: nat, n: int, f: nat)
    requires p >= f && (n < f / 2 + 1 || p - f / 2 <= n)
    ensures |FilmfeedWindow(p, n, f)| == f
    ensures n < f / 2 + 1 ==> FilmfeedWindow(p, n, f) == Range(1, f + 1)
    ensures n >= f / 2 + 1 ==> FilmfeedWindow(p, n, f) == Range(p - f + 1, p + 1)
  {
  }

  /** The centred window has f / 2 pages on each side of n, so it holds
      2 * (f / 2) + 1 pages: one more than the pinned windows when f is even. */
  lemma FilmfeedCentred(p: nat, n: int, f: nat)
    requires p >= f && n >= f / 2 + 1 && p - f / 2 > n
    ensures FilmfeedWindow(p, n, f) == Range(n - f / 2, n + f / 2 + 1)
    ensures |FilmfeedWindow(p, n, f)| == 2 * (f / 2) + 1
    ensures FilmfeedWindow(p, n, f)[f / 2] == n
    ensures f % 2 == 0 ==> |FilmfeedWindow(p, n, f)| == f + 1
  {
  }

  /** With a non-zero frame the current page is always in the window. */
  lemma FilmfeedShowsCurrentPage(p: nat, n: int, f: nat)
    requires 1 <= n <= p && f >= 1
    ensures n in FilmfeedWindow(p, n, f)
  {
    if p < f {
      InRange(1, p + 1, n);
    } else if n < f / 2 + 1 {
      InRange(1, f + 1, n);
    } else if p - f / 2 <= n {
      InRange(p - f + 1, p + 1, n);
    } else {
      InRange(n - f / 2, n + f / 2 + 1, n);
    }
  }

  lemma RangeSixToFourteen()
    ensures Range(6, 15) == [6, 7, 8, 9, 10, 11, 12, 13, 14]
  {
    assert Range(7, 15) == [7, 8, 9, 10, 11, 12, 13, 14];
  }

  /** 20 pages, frame 8, page 10: the centred window spans nine pages. */
  lemma FilmfeedExampleCentred()
    ensures FilmfeedWindow(20, 10, 8) == [6, 7, 8, 9, 10, 11, 12, 13, 14]
  {
    assert FilmfeedWindow(20, 10, 8) == Range(6, 15);
    RangeSixToFourteen();
  }

  /** 20 pages, frame 8, page 1: the window pinned to the start. */
  lemma FilmfeedExampleFirstPage()
    ensures FilmfeedWindow(20, 1, 8) == [1, 2, 3, 4, 5, 6, 7, 8]
  {
    assert Range(1, 9) == [1, 2, 3, 4, 5, 6, 7, 8];
  }

  /** 20 pages, frame 8, page 18: the window pinned to the end. */
  lemma FilmfeedExampleNearEnd()
    ensures FilmfeedWindow(20, 18, 8) == [13, 14, 15, 16, 17, 18, 19, 20]
  {
    assert Range(13, 21) == [13, 14, 15, 16, 17, 18, 19, 20];
  }
}
