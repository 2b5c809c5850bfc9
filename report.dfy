/** The report paginator: the analysis text is split into lines, each line is cut to
    the page width, and the lines are placed top-down on as many pages as needed. */
module Report {

  const MAX_LINE_WIDTH := 90
  const KEPT_WIDTH := 87
  const ELLIPSIS := "..."
  const FIRST_TOP := 770
  const PAGE_TOP := 800
  const BOTTOM_MARGIN := 50
  const LINE_SPACING := 15
  /** Lines that fit between FIRST_TOP and BOTTOM_MARGIN, and between PAGE_TOP and BOTTOM_MARGIN. */
  const FIRST_CAPACITY := 49
  const PAGE_CAPACITY := 51

  // ---------------------------------------------------------------------------
  // Lines

  /** A line longer than the page width keeps its first 87 characters and gets "...". */
  function Truncate(line: string): (r: string)
    ensures |line| <= MAX_LINE_WIDTH ==> r == line
    ensures |line| > MAX_LINE_WIDTH ==> |r| == MAX_LINE_WIDTH && r == line[..KEPT_WIDTH] + ELLIPSIS
  {
    if |line| > MAX_LINE_WIDTH then line[..KEPT_WIDTH] + ELLIPSIS else line
  }

  /** Truncating a truncated line changes nothing, and no result is wider than the page. */
  lemma TruncateIdempotent(line: string)
    ensures |Truncate(line)| <= MAX_LINE_WIDTH
    ensures Truncate(Truncate(line)) == Truncate(line)
  {
  }

  function CountNewlines(s: string): nat {
    if s == [] then 0 else (if s[0] == '\n' then 1 else 0) + CountNewlines(s[1..])
  }

  /** `s.split("\n")`: one piece per newline plus one, none containing a newline. */
  function Split(s: string): (pieces: seq<string>)
    ensures |pieces| == CountNewlines(s) + 1
    ensures forall k :: 0 <= k < |pieces| ==> '\n' !in pieces[k]
  {
    if s == [] then [""]
    else
      var rest := Split(s[1..]);
      if s[0] == '\n' then [""] + rest
      else [[s[0]] + rest[0]] + rest[1..]
  }

  /** `"\n".join(pieces)`. */
  function Join(pieces: seq<string>): string
    requires pieces != []
  {
    if |pieces| == 1 then pieces[0] else pieces[0] + "\n" + Join(pieces[1..])
  }

  /** Splitting loses nothing: joining the pieces gives the text back. */
  lemma {:induction false} JoinSplit(s: string)
    ensures Join(Split(s)) == s
  {
    if s != [] {
      var rest := Split(s[1..]);
      JoinSplit(s[1..]);
      if s[0] != '\n' {
        var pieces := Split(s);
        assert pieces[0] == [s[0]] + rest[0];
        if |rest| == 1 {
          assert pieces == [[s[0]] + rest[0]];
        } else {
          assert pieces[1..] == rest[1..];
          assert Join(rest) == rest[0] + "\n" + Join(rest[1..]);
        }
      }
    }
  }

  /** Splitting is the inverse of joining pieces free of newlines. */
  lemma {:induction false} SplitJoin(pieces: seq<string>)
    requires pieces != []
    requires forall k :: 0 <= k < |pieces| ==> '\n' !in pieces[k]
    ensures Split(Join(pieces)) == pieces
  {
    if |pieces| == 1 {
      SplitPlain(pieces[0]);
    } else {
      var tail := Join(pieces[1..]);
      SplitJoin(pieces[1..]);
      SplitAroundNewline(pieces[0], tail);
      assert Join(pieces) == pieces[0] + "\n" + tail;
    }
  }

  /** A text without newlines is a single piece. */
  lemma {:induction false} SplitPlain(s: string)
    requires '\n' !in s
    ensures Split(s) == [s]
  {
    if s != [] {
      assert '\n' !in s[1..];
      SplitPlain(s[1..]);
      assert [s[0]] + s[1..] == s;
    }
  }

  /** A text `a + "\n" + b` with `a` free of newlines splits into `a` and the pieces of `b`. */
  lemma {:induction false} SplitAroundNewline(a: string, b: string)
    requires '\n' !in a
    ensures Split(a + "\n" + b) == [a] + Split(b)
  {
    if a == [] {
      assert a + "\n" + b == ['\n'] + b;
      assert (['\n'] + b)[1..] == b;
    } else {
      assert '\n' !in a[1..];
      SplitAroundNewline(a[1..], b);
      assert (a + "\n" + b)[1..] == a[1..] + "\n" + b;
      assert [a[0]] + a[1..] == a;
    }
  }

  // ---------------------------------------------------------------------------
  // The canvas: an abstract recorder of drawn lines and page breaks

  datatype Placement = Placement(text: string, y: int)

  class Canvas {
    /** Pages already ended by a page break. */
    var finished: seq<seq<Placement>>
    /** The page being drawn on. */
    var current: seq<Placement>

    constructor ()
      ensures finished == [] && current == []
    {
      finished := [];
      current := [];
    }

    /** Every page of the document, the open one last. */
    function Pages(): (pages: seq<seq<Placement>>)
      reads this
      ensures |pages| == |finished| + 1 && pages[|finished|] == current
    {
      finished + [current]
    }

    /** `showPage`: end the open page and open an empty one. */
    method ShowPage()
      modifies this
      ensures finished == old(finished) + [old(current)] && current == []
    {
      finished := finished + [current];
      current := [];
    }

    /** `drawString`: place one line on the open page. */
    method DrawString(text: string, y: int)
      modifies this
      ensures finished == old(finished) && current == old(current) + [Placement(text, y)]
    {
      current := current + [Placement(text, y)];
    }
  }

  // ---------------------------------------------------------------------------
  // Where the render loop puts each line, in closed form

  function Capacity(p: nat): nat {
    if p == 0 then FIRST_CAPACITY else PAGE_CAPACITY
  }

  function Top(p: nat): int {
    if p == 0 then FIRST_TOP else PAGE_TOP
  }

  /** Index of the first line on page `p`. */
  function PageStart(p: nat): nat {
    if p == 0 then 0 else FIRST_CAPACITY + (p - 1) * PAGE_CAPACITY
  }

  /** The number of pages once `n` lines are placed; a page is opened only for a line. */
  function PageCount(n: nat): nat {
    if n <= FIRST_CAPACITY then 1 else 2 + (n - FIRST_CAPACITY - 1) / PAGE_CAPACITY
  }

  /** The last page starts at or before line `n`, and past page 0 strictly before it. */
  lemma StartWithin(n: nat, p: nat)
    requires p < PageCount(n)
    ensures PageStart(p) <= n
    ensures p > 0 ==> PageStart(p) < n
  {
  }

  /** The number of lines on page `p` once `n` lines are placed. */
  function PageLength(n: nat, p: nat): (len: nat)
    requires p < PageCount(n)
    ensures PageStart(p) + len <= n
  {
    StartWithin(n, p);
    if n - PageStart(p) <= Capacity(p) then n - PageStart(p) else Capacity(p)
  }

  /** The pages holding the first `n` lines: line PageStart(p) + k sits on page p at
      Top(p) - 15 k. */
  function Layout(lines: seq<string>, n: nat): (pages: seq<seq<Placement>>)
    requires n <= |lines|
    ensures |pages| == PageCount(n)
  {
    seq(PageCount(n), p requires 0 <= p < PageCount(n) =>
      seq(PageLength(n, p), k requires 0 <= k < PageLength(n, p) =>
        Placement(Truncate(lines[PageStart(p) + k]), Top(p) - LINE_SPACING * k)))
  }

  /** Line PageStart(p) + k, cut to width, is the k-th entry of page p. */
  lemma LayoutAt(lines: seq<string>, n: nat, p: nat, k: nat)
    requires n <= |lines| && p < PageCount(n) && k < PageLength(n, p)
    ensures |Layout(lines, n)[p]| == PageLength(n, p)
    ensures Layout(lines, n)[p][k] == Placement(Truncate(lines[PageStart(p) + k]), Top(p) - LINE_SPACING * k)
  {
  }

  /** The value of `y_position` once `n` lines are placed. */
  function NextY(n: nat): int {
    var last := PageCount(n) - 1;
    Top(last) - LINE_SPACING * (n - PageStart(last))
  }

  /** How the page count and the last page move when line `n` is placed: a break is
      taken exactly when the last page is full. */
  lemma CountStep(n: nat)
    ensures var last := PageCount(n) - 1;
            && PageStart(last) <= n <= PageStart(last) + Capacity(last)
            && (NextY(n) < BOTTOM_MARGIN <==> n == PageStart(last) + Capacity(last))
            && (NextY(n) < BOTTOM_MARGIN ==> PageCount(n + 1) == PageCount(n) + 1 && PageStart(last + 1) == n)
            && (NextY(n) >= BOTTOM_MARGIN ==> PageCount(n + 1) == PageCount(n))
  {
  }

  /** Pages before the last one do not change when a line is placed. */
  lemma LayoutKeepsEarlierPages(lines: seq<string>, n: nat, p: nat)
    requires n < |lines| && p < PageCount(n) - 1
    ensures PageCount(n) <= PageCount(n + 1)
    ensures Layout(lines, n + 1)[p] == Layout(lines, n)[p]
  {
    CountStep(n);
    StartWithin(n, PageCount(n) - 1);
    assert PageStart(p) + Capacity(p) <= PageStart(PageCount(n) - 1);
  }

  /** Line `n` on a full last page goes alone onto a new page, at PAGE_TOP. */
  lemma LayoutBreakStep(lines: seq<string>, n: nat)
    requires n < |lines| && NextY(n) < BOTTOM_MARGIN
    ensures Layout(lines, n + 1) == Layout(lines, n) + [[Placement(Truncate(lines[n]), PAGE_TOP)]]
  {
    var before := Layout(lines, n);
    var after := Layout(lines, n + 1);
    var last := |before| - 1;
    CountStep(n);
    forall p | 0 <= p < last ensures after[p] == before[p] {
      LayoutKeepsEarlierPages(lines, n, p);
    }
    assert after[last] == before[last];
    assert PageStart(last + 1) == n && PageLength(n + 1, last + 1) == 1;
    LayoutAt(lines, n + 1, last + 1, 0);
    assert after[last + 1] == [Placement(Truncate(lines[n]), PAGE_TOP)];
  }

  /** Line `n` on a last page with room goes at its end, at NextY(n). */
  lemma LayoutSamePageStep(lines: seq<string>, n: nat)
    requires n < |lines| && NextY(n) >= BOTTOM_MARGIN
    ensures var before := Layout(lines, n);
            Layout(lines, n + 1) == before[..|before| - 1] + [before[|before| - 1] + [Placement(Truncate(lines[n]), NextY(n))]]
  {
    var before := Layout(lines, n);
    var after := Layout(lines, n + 1);
    var last := |before| - 1;
    CountStep(n);
    forall p | 0 <= p < last ensures after[p] == before[p] {
      LayoutKeepsEarlierPages(lines, n, p);
    }
    assert PageLength(n + 1, last) == PageLength(n, last) + 1;
    assert after[last] == before[last] + [Placement(Truncate(lines[n]), NextY(n))];
  }

  /** Placing line `n` either opens a new page holding only that line at PAGE_TOP, or
      appends the line to the last page at NextY(n). */
  lemma LayoutStep(lines: seq<string>, n: nat, done: seq<seq<Placement>>, open: seq<Placement>)
    requires n < |lines| && Layout(lines, n) == done + [open]
    ensures NextY(n) < BOTTOM_MARGIN ==>
              && Layout(lines, n + 1) == done + [open] + [[Placement(Truncate(lines[n]), PAGE_TOP)]]
              && NextY(n + 1) == PAGE_TOP - LINE_SPACING
    ensures NextY(n) >= BOTTOM_MARGIN ==>
              && Layout(lines, n + 1) == done + [open + [Placement(Truncate(lines[n]), NextY(n))]]
              && NextY(n + 1) == NextY(n) - LINE_SPACING
  {
    CountStep(n);
    if NextY(n) < BOTTOM_MARGIN {
      LayoutBreakStep(lines, n);
    } else {
      LayoutSamePageStep(lines, n);
      assert (done + [open])[..|done|] == done;
    }
  }

  // ---------------------------------------------------------------------------
  // Properties of the layout

  function Flatten(pages: seq<seq<Placement>>): seq<Placement> {
    if pages == [] then [] else pages[0] + Flatten(pages[1..])
  }

  lemma {:induction false} FlattenSnoc(pages: seq<seq<Placement>>, page: seq<Placement>)
    ensures Flatten(pages + [page]) == Flatten(pages) + page
  {
    if pages != [] {
      assert (pages + [page])[1..] == pages[1..] + [page];
      FlattenSnoc(pages[1..], page);
    }
  }

  function Texts(placements: seq<Placement>): (texts: seq<string>)
    ensures |texts| == |placements|
  {
    seq(|placements|, i requires 0 <= i < |placements| => placements[i].text)
  }

  function TruncatedLines(lines: seq<string>, n: nat): (r: seq<string>)
    requires n <= |lines|
    ensures |r| == n
  {
    seq(n, i requires 0 <= i < n => Truncate(lines[i]))
  }

  /** The height at which line `i` is drawn: NextY(i), or the top of a fresh page. */
  function PlacedY(i: nat): int {
    if NextY(i) < BOTTOM_MARGIN then PAGE_TOP else NextY(i)
  }

  /** Placing one more line adds exactly that line at the end of the reading order. */
  lemma FlattenStep(lines: seq<string>, n: nat)
    requires n < |lines|
    ensures Flatten(Layout(lines, n + 1)) == Flatten(Layout(lines, n)) + [Placement(Truncate(lines[n]), PlacedY(n))]
  {
    var before := Layout(lines, n);
    var last := |before| - 1;
    assert before == before[..last] + [before[last]];
    LayoutStep(lines, n, before[..last], before[last]);
    if NextY(n) < BOTTOM_MARGIN {
      FlattenSnoc(before, [Placement(Truncate(lines[n]), PAGE_TOP)]);
    } else {
      FlattenSnoc(before[..last], before[last]);
      FlattenSnoc(before[..last], before[last] + [Placement(Truncate(lines[n]), NextY(n))]);
    }
  }

  /** Before any line is drawn there is one empty page. */
  lemma LayoutEmpty(lines: seq<string>)
    ensures Layout(lines, 0) == [[]]
    ensures Flatten(Layout(lines, 0)) == []
  {
    assert Flatten([[]]) == [] + Flatten([]);
  }

  /** No line is dropped, duplicated or reordered: reading the pages in order gives every
      input line, truncated, at the height the loop drew it. */
  lemma {:induction false} LayoutKeepsLines(lines: seq<string>, n: nat)
    requires n <= |lines|
    ensures Flatten(Layout(lines, n)) == seq(n, i requires 0 <= i < n => Placement(Truncate(lines[i]), PlacedY(i)))
  {
    if n == 0 {
      LayoutEmpty(lines);
    } else {
      LayoutKeepsLines(lines, n - 1);
      FlattenStep(lines, n - 1);
      ghost var f := seq(n, i requires 0 <= i < n => Placement(Truncate(lines[i]), PlacedY(i)));
      ghost var g := seq(n - 1, i requires 0 <= i < n - 1 => Placement(Truncate(lines[i]), PlacedY(i)));
      assert f == g + [f[n - 1]];
    }
  }

  /** In particular the pages, read in order, hold exactly the truncated input lines. */
  lemma LayoutKeepsTexts(lines: seq<string>, n: nat)
    requires n <= |lines|
    ensures Texts(Flatten(Layout(lines, n))) == TruncatedLines(lines, n)
  {
    LayoutKeepsLines(lines, n);
  }

  /** Every line sits between the margins; the first line of the first page is at 770,
      of every later page at 800, and each next line of a page 15 lower. */
  lemma LayoutWithinMargins(lines: seq<string>, n: nat)
    requires n <= |lines|
    ensures forall p, k :: 0 <= p < |Layout(lines, n)| && 0 <= k < |Layout(lines, n)[p]| ==>
              BOTTOM_MARGIN <= Layout(lines, n)[p][k].y <= PAGE_TOP
    ensures forall p :: 0 <= p < |Layout(lines, n)| && Layout(lines, n)[p] != [] ==>
              Layout(lines, n)[p][0].y == if p == 0 then FIRST_TOP else PAGE_TOP
    ensures forall p, k :: 0 <= p < |Layout(lines, n)| && 0 < k < |Layout(lines, n)[p]| ==>
              Layout(lines, n)[p][k].y == Layout(lines, n)[p][k - 1].y - LINE_SPACING
  {
    var pages: seq<seq<Placement>> := Layout(lines, n);
    forall p: nat, k: nat | 0 <= p < |pages| && 0 <= k < |pages[p]|
      ensures pages[p][k].y == Top(p) - LINE_SPACING * k
      ensures k < Capacity(p)
    {
    }
  }

  /** The first page holds at most 49 lines and every later page at most 51; every page
      but the last is full, and the last is empty only when there are no lines at all. */
  lemma LayoutPageCapacity(lines: seq<string>, n: nat)
    requires n <= |lines|
    ensures |Layout(lines, n)| >= 1
    ensures forall p :: 0 <= p < |Layout(lines, n)| ==> |Layout(lines, n)[p]| <= Capacity(p)
    ensures forall p :: 0 <= p < |Layout(lines, n)| - 1 ==> |Layout(lines, n)[p]| == Capacity(p)
    ensures (Layout(lines, n)[|Layout(lines, n)| - 1] == []) <==> n == 0
  {
    var pages := Layout(lines, n);
    var last := |pages| - 1;
    CountStep(n);
    forall p | 0 <= p < last ensures |pages[p]| == Capacity(p) {
      assert PageStart(p) + Capacity(p) <= PageStart(last);
    }
    StartWithin(n, last);
  }

  /** An empty analysis is one empty line, drawn at the top of the first page. */
  lemma EmptyTextOneLine()
    ensures Split("") == [""]
    ensures Layout(Split(""), |Split("")|) == [[Placement("", FIRST_TOP)]]
  {
    assert Split("") == [""];
    assert PageCount(1) == 1 && PageLength(1, 0) == 1;
    LayoutAt([""], 1, 0, 0);
    assert Truncate("") == "";
    assert Layout([""], 1)[0] == [Placement("", FIRST_TOP)];
  }

  // ---------------------------------------------------------------------------
  // The render loop

  /** The pages of the report for an analysis text. */
  function ReportPages(text: string): seq<seq<Placement>> {
    Layout(Split(text), |Split(text)|)
  }

  /** Draws the analysis text, one line after another, breaking pages near the bottom. */
  method RenderReport(text: string) returns (pdf: Canvas)
    ensures fresh(pdf)
    ensures pdf.Pages() == ReportPages(text)
  {
    pdf := new Canvas();
    var lines := Split(text);
    var y := FIRST_TOP;
    for i := 0 to |lines|
      invariant pdf.Pages() == Layout(lines, i)
      invariant y == NextY(i)
    {
      ghost var done, open := pdf.finished, pdf.current;
      LayoutStep(lines, i, done, open);
      var line := Truncate(lines[i]);
      if y < BOTTOM_MARGIN {
        pdf.ShowPage();
        y := PAGE_TOP;
        pdf.DrawString(line, y);
        assert pdf.finished == done + [open] && pdf.current == [Placement(line, PAGE_TOP)];
        assert pdf.Pages() == done + [open] + [[Placement(line, PAGE_TOP)]];
      } else {
        pdf.DrawString(line, y);
        assert pdf.Pages() == done + [open + [Placement(line, y)]];
      }
      y := y - LINE_SPACING;
    }
  }
}
