// The vertical layout of a confirmed plan's PDF: a cursor `y` that moves
// down the page as lines are written, a page counter, and the two
// page-break tests, one before each plan item and one before the summary.
// Only the counters are modelled; what is drawn is recorded as boxes
// (page, top, height) and page-number labels.

module PdfLayout {

  /** Where writing starts on every page. */
  const TopY := 25

  /** Room kept free above the bottom edge of the page. */
  const BottomMargin := 30

  /** Room an item must have below the cursor, or it starts a new page. */
  const ItemRoom := 80

  /** Room the summary must have below the cursor, or it starts a new page. */
  const SummaryRoom := 60

  /** The detail lines of an item: days, accommodation, food and transport, rating, budget. */
  const DetailLines := 5

  /** The height of the summary box. */
  const SummaryBoxHeight := 50

  /** A box drawn on a page: the page it is on, its top edge and its height. */
  datatype Box = Box(page: nat, top: int, height: int)

  /**
    The state of the export: the cursor, the current page, the boxes drawn
    so far, and the page numbers written at the foot of pages, in order.
  */
  datatype Sheet = Sheet(y: int, page: nat, boxes: seq<Box>, labels: seq<nat>)

  /** `addNewPage`: the next page, the cursor back at the top, its number written at the foot. */
  function NewPage(s: Sheet): (t: Sheet)
    ensures t.page == s.page + 1 && t.y == TopY
  {
    Sheet(TopY, s.page + 1, s.boxes, s.labels + [s.page + 1])
  }

  /**
    The sheet after the title (14), the separator (10), the confirmation
    date (20), the package ids (20) and the details header (10).
  */
  const Opening := Sheet(TopY + 14 + 10 + 20 + 20 + 10, 1, [], [1])

  /** The test before an item: the item would reach into the bottom margin. */
  predicate ItemBreaks(pageHeight: int, y: int) {
    y + ItemRoom > pageHeight - BottomMargin
  }

  /** The test before the summary. */
  predicate SummaryBreaks(pageHeight: int, y: int) {
    y + SummaryRoom > pageHeight - BottomMargin
  }

  /** How far an item with `k` activities moves the cursor: header, details, activities label, activities, gap. */
  function ItemAdvance(k: nat): (d: int)
    ensures d == 73 + 6 * k
  {
    10 + DetailLines * 8 + 8 + 6 * k + 15
  }

  /** The height of the box behind an item with `k` activities. */
  function ItemBoxHeight(k: nat): (h: int)
    ensures h > 0
  {
    65 + k * 6
  }

  /** One item, given its activities: the break test, the box, then the cursor moves on. */
  function PlaceItem(pageHeight: int, s: Sheet, activities: seq<string>): (t: Sheet)
    ensures |t.boxes| == |s.boxes| + 1
  {
    var u := if ItemBreaks(pageHeight, s.y) then NewPage(s) else s;
    Sheet(u.y + ItemAdvance(|activities|), u.page,
          u.boxes + [Box(u.page, u.y - 10, ItemBoxHeight(|activities|))], u.labels)
  }

  /** The sheet after the given items, placed in order after the opening. */
  function PlaceItems(pageHeight: int, items: seq<seq<string>>): (s: Sheet)
    ensures |s.boxes| == |items|
  {
    if items == [] then Opening
    else PlaceItem(pageHeight, PlaceItems(pageHeight, items[..|items| - 1]), items[|items| - 1])
  }

  /** The summary: the break test, its box, and the final page number. */
  function PlaceSummary(pageHeight: int, s: Sheet): (t: Sheet)
    ensures |t.boxes| == |s.boxes| + 1
  {
    var u := if SummaryBreaks(pageHeight, s.y) then NewPage(s) else s;
    Sheet(u.y + 12, u.page, u.boxes + [Box(u.page, u.y + 12 - 10, SummaryBoxHeight)], u.labels + [u.page])
  }

  /** The whole document for a plan whose items have these activities. */
  function Layout(pageHeight: int, items: seq<seq<string>>): (s: Sheet)
    ensures |s.boxes| == |items| + 1
  {
    PlaceSummary(pageHeight, PlaceItems(pageHeight, items))
  }

  /**
    `handleDownloadPDF`, its cursor and page counter as the export moves
    them, statement by statement.
  */
  method ExportPlan(pageHeight: int, items: seq<seq<string>>) returns (sheet: Sheet)
    ensures sheet == Layout(pageHeight, items)
  {
    var y := TopY;
    var page: nat := 1;
    var boxes: seq<Box> := [];
    var labels: seq<nat> := [page];
    y := y + 14;
    y := y + 10;
    y := y + 20;
    y := y + 20;
    y := y + 10;
    var j := 0;
    while j < |items|
      invariant 0 <= j <= |items|
      invariant Sheet(y, page, boxes, labels) == PlaceItems(pageHeight, items[..j])
    {
      if y + ItemRoom > pageHeight - BottomMargin {
        page := page + 1;
        y := TopY;
        labels := labels + [page];
      }
      var activities := items[j];
      boxes := boxes + [Box(page, y - 10, 65 + |activities| * 6)];
      var start := y;
      y := y + 10;
      var d := 0;
      while d < DetailLines
        invariant 0 <= d <= DetailLines
        invariant y == start + 10 + 8 * d
      {
        y := y + 8;
        d := d + 1;
      }
      y := y + 8;
      var a := 0;
      while a < |activities|
        invariant 0 <= a <= |activities|
        invariant y == start + 10 + 8 * DetailLines + 8 + 6 * a
      {
        y := y + 6;
        a := a + 1;
      }
      y := y + 15;
      assert items[..j + 1][..j] == items[..j];
      j := j + 1;
    }
    assert items[..j] == items;
    if y + SummaryRoom > pageHeight - BottomMargin {
      page := page + 1;
      y := TopY;
      labels := labels + [page];
    }
    y := y + 12;
    boxes := boxes + [Box(page, y - 10, SummaryBoxHeight)];
    labels := labels + [page];
    sheet := Sheet(y, page, boxes, labels);
  }

  // ---------------------------------------------------------------------------
  // what the layout promises

  /** How many items start a new page. */
  function ItemBreakCount(pageHeight: int, items: seq<seq<string>>): (n: nat)
    ensures n <= |items|
  {
    if items == [] then 0
    else
      var init := items[..|items| - 1];
      ItemBreakCount(pageHeight, init) + (if ItemBreaks(pageHeight, PlaceItems(pageHeight, init).y) then 1 else 0)
  }

  /** The pages `1 .. n`, in order. */
  predicate NumbersPages(labels: seq<nat>, n: nat) {
    |labels| == n && forall i | 0 <= i < n :: labels[i] == i + 1
  }

  /**
    While items are placed, the page count is one plus the breaks so far,
    and every page has had its number written once, in page order.
  */
  lemma {:induction false} ItemPages(pageHeight: int, items: seq<seq<string>>)
    ensures var s := PlaceItems(pageHeight, items);
      s.page == 1 + ItemBreakCount(pageHeight, items) && NumbersPages(s.labels, s.page)
  {
    if items != [] {
      ItemPages(pageHeight, items[..|items| - 1]);
    }
  }

  /**
    The finished document has one page more than it has page breaks; every
    page's number is written once in page order, and the last page's number
    once more at the end.
  */
  lemma PageCount(pageHeight: int, items: seq<seq<string>>)
    ensures var before, s := PlaceItems(pageHeight, items), Layout(pageHeight, items);
      && s.page == 1 + ItemBreakCount(pageHeight, items) + (if SummaryBreaks(pageHeight, before.y) then 1 else 0)
      && |s.labels| == s.page + 1
      && NumbersPages(s.labels[..s.page], s.page)
      && s.labels[s.page] == s.page
  {
    ItemPages(pageHeight, items);
    var s := Layout(pageHeight, items);
    assert s.labels[..s.page] == PlaceSummary(pageHeight, PlaceItems(pageHeight, items)).labels[..s.page];
  }

  /** Placing later items never moves the boxes already drawn. */
  lemma {:induction false} BoxesStay(pageHeight: int, items: seq<seq<string>>, n: nat)
    requires n <= |items|
    ensures PlaceItems(pageHeight, items[..n]).boxes == PlaceItems(pageHeight, items).boxes[..n]
  {
    if n < |items| {
      var init := items[..|items| - 1];
      assert init[..n] == items[..n];
      BoxesStay(pageHeight, init, n);
    } else {
      assert items[..n] == items;
    }
  }

  /**
    Item `i` in the finished document: it moves to a new page exactly when
    the cursor left by the items before it fails the break test; its box
    starts 10 above the cursor it is written at, on that page, and is
    `65 + 6k` high for `k` activities; and the cursor ends `73 + 6k` lower.
  */
  lemma ItemPlacement(pageHeight: int, items: seq<seq<string>>, i: nat)
    requires i < |items|
    ensures var before, after := PlaceItems(pageHeight, items[..i]), PlaceItems(pageHeight, items[..i + 1]);
      var breaks := ItemBreaks(pageHeight, before.y);
      var y := if breaks then TopY else before.y;
      var k := |items[i]|;
      && Layout(pageHeight, items).boxes[i] == Box(before.page + (if breaks then 1 else 0), y - 10, 65 + 6 * k)
      && after.page == before.page + (if breaks then 1 else 0)
      && after.y == y + 73 + 6 * k
  {
    var prefix := items[..i + 1];
    assert prefix[..i] == items[..i] && prefix[i] == items[i];
    BoxesStay(pageHeight, items, i + 1);
  }

  /**
    The summary in the finished document: it moves to a new page exactly
    when the cursor after the items fails its test, and its box is the last.
  */
  lemma SummaryPlacement(pageHeight: int, items: seq<seq<string>>)
    ensures var before, s := PlaceItems(pageHeight, items), Layout(pageHeight, items);
      var breaks := SummaryBreaks(pageHeight, before.y);
      var y := if breaks then TopY else before.y;
      && s.page == before.page + (if breaks then 1 else 0)
      && s.boxes[|items|] == Box(s.page, y + 2, SummaryBoxHeight)
      && s.boxes[..|items|] == before.boxes
      && s.y == y + 12
  {
    var before := PlaceItems(pageHeight, items);
    var s := Layout(pageHeight, items);
    assert |before.boxes| == |items|;
    assert s.boxes[..|items|] == before.boxes;
  }

  /**
    On a page tall enough for one item below the top (at least 135), every
    item starts with its full room above the bottom margin.
  */
  lemma ItemsStartWithRoom(pageHeight: int, items: seq<seq<string>>, i: nat)
    requires pageHeight >= TopY + ItemRoom + BottomMargin
    requires i < |items|
    ensures var b := Layout(pageHeight, items).boxes[i];
      b.top + 10 + ItemRoom <= pageHeight - BottomMargin
  {
    ItemPlacement(pageHeight, items, i);
  }

  /**
    On an A4 page (297 high), three items without activities fit the first
    page only two at a time: the third and the summary go to page 2.
  */
  lemma ThreeBareItemsOnA4()
    ensures Layout(297, [[], [], []]).page == 2
    ensures Layout(297, [[], [], []]).boxes == [Box(1, 89, 65), Box(1, 162, 65), Box(2, 15, 65), Box(2, 100, 50)]
  {
    var items: seq<seq<string>> := [[], [], []];
    assert items[..1][..0] == [] && items[..2][..1] == items[..1] && items[..2] == items[..|items| - 1];
    var s0 := PlaceItems(297, items[..1][..0]);
    assert s0 == Opening;
    var s1 := PlaceItems(297, items[..1]);
    assert s1 == PlaceItem(297, s0, items[..1][0]);
    assert s1.y == 172 && s1.page == 1;
    var s2 := PlaceItems(297, items[..2]);
    assert s2 == PlaceItem(297, s1, []);
    assert s2.y == 245 && s2.page == 1;
    var s3 := PlaceItems(297, items);
    assert s3 == PlaceItem(297, s2, []);
    assert s3.y == 98 && s3.page == 2;
  }
}
