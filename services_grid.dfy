/**
 * The services-grid fixer `fixServicesGrid` (js/main.js:5-77): the window
 * width selects one of five layouts, which the function writes into the
 * grid's inline style on load and on every resize.
 */
module ServicesGrid {
  import opened Wrappers

  /** The five width bands, narrowest first. */
  datatype Band = MobilePortrait | MobileLandscape | Tablet | SmallDesktop | LargeDesktop

  datatype AutoRows = OneFr | Auto   // grid-auto-rows: '1fr' or 'auto'
  datatype AlignItems = Stretch | Start

  /** The grid properties every band writes. */
  datatype Grid = Grid(columns: nat, gapPx: nat, autoRows: AutoRows, alignItems: AlignItems)

  /**
   * What one call writes: the grid properties, whether it writes
   * `width: 100%`, and whether it applies the Chrome reset
   * (`gridAutoFlow: row` and zero min-width/min-height on every card).
   */
  datatype Layout = Layout(grid: Grid, fullWidth: bool, chromeReset: bool)

  /** The range of widths each band covers, as its own condition in the source states it. */
  predicate InBand(b: Band, width: int)
  {
    match b
    case LargeDesktop => width >= 1200
    case SmallDesktop => width >= 1025 && width < 1200
    case Tablet => width >= 769 && width < 1025
    case MobileLandscape => width >= 601 && width <= 768
    case MobilePortrait => width <= 600
  }

  /**
   * The if/else-if chain of js/main.js:15-75: the first condition that holds
   * picks the band. The bands cover every integer width, and no two overlap.
   */
  function BandOf(width: int): (b: Band)
    ensures InBand(b, width)
    ensures forall other: Band :: InBand(other, width) ==> other == b
  {
    if width >= 1200 then LargeDesktop
    else if width >= 1025 && width < 1200 then SmallDesktop
    else if width >= 769 && width < 1025 then Tablet
    else if width >= 601 && width <= 768 then MobileLandscape
    else if width <= 600 then MobilePortrait
    else assert false; MobilePortrait
  }

  /** The style values written for each band. */
  function LayoutFor(b: Band, isChrome: bool): (l: Layout)
    ensures l.fullWidth <==> b == SmallDesktop || b == LargeDesktop
    ensures l.chromeReset <==> l.fullWidth && isChrome
    ensures l.grid.autoRows == OneFr <==> l.grid.alignItems == Stretch
    ensures l.grid.autoRows == OneFr <==> b != MobilePortrait && b != MobileLandscape
    ensures l.grid.gapPx in {20, 22, 25}
  {
    match b
    case LargeDesktop => Layout(Grid(6, 20, OneFr, Stretch), true, isChrome)
    case SmallDesktop => Layout(Grid(3, 22, OneFr, Stretch), true, isChrome)
    case Tablet => Layout(Grid(3, 25, OneFr, Stretch), false, false)
    case MobileLandscape => Layout(Grid(2, 20, Auto, Start), false, false)
    case MobilePortrait => Layout(Grid(1, 20, Auto, Start), false, false)
  }

  /**
   * The layout one call of `fixServicesGrid` writes for a window width.
   * `width: 100%` is written only from 1025 pixels up, and the Chrome reset
   * only from 1025 pixels up and only in Chrome; the two widest bands
   * stretch equal-height rows, the two narrowest align rows to the start.
   */
  function GridLayout(width: int, isChrome: bool): (l: Layout)
    ensures l.fullWidth <==> width >= 1025
    ensures l.chromeReset <==> width >= 1025 && isChrome
    ensures l.grid.autoRows == OneFr <==> width >= 769
    ensures l.grid.alignItems == Stretch <==> width >= 769
    ensures 1 <= l.grid.columns <= 6
  {
    LayoutFor(BandOf(width), isChrome)
  }

  /** Column counts per band: 1, 2, 3, 3 and 6, whatever the browser. */
  lemma ColumnsPerBand(width: int, isChrome: bool)
    ensures GridLayout(width, isChrome).grid.columns ==
      match BandOf(width)
      case MobilePortrait => 1
      case MobileLandscape => 2
      case Tablet => 3
      case SmallDesktop => 3
      case LargeDesktop => 6
  {
  }

  /** A wider window never gets fewer columns. */
  lemma ColumnsMonotone(narrow: int, wide: int, isChrome: bool, isChrome': bool)
    requires narrow <= wide
    ensures GridLayout(narrow, isChrome).grid.columns <= GridLayout(wide, isChrome').grid.columns
  {
  }

  /** The gaps: 20px at 6 and at 1 or 2 columns, 22px for small desktops, 25px for tablets. */
  lemma GapPerBand(width: int, isChrome: bool)
    ensures GridLayout(width, isChrome).grid.gapPx ==
      if 1025 <= width < 1200 then 22 else if 769 <= width < 1025 then 25 else 20
  {
  }

  /**
   * The grid's inline style as successive calls leave it. Every call writes
   * the grid properties; `width: 100%`, `gridAutoFlow: row` and the cards'
   * zero minimum sizes are only ever written, never cleared.
   */
  datatype InlineStyle = InlineStyle(grid: Option<Grid>, fullWidth: bool, autoFlowRow: bool, cardsUnclamped: bool)

  const Unstyled := InlineStyle(None, false, false, false)

  /** One call of `fixServicesGrid` (on load or on a resize) on the style the earlier calls left. */
  function Restyle(s: InlineStyle, width: int, isChrome: bool): (r: InlineStyle)
    ensures r.grid == Some(GridLayout(width, isChrome).grid)
    ensures r.fullWidth <==> s.fullWidth || width >= 1025
    ensures r.autoFlowRow <==> s.autoFlowRow || (isChrome && width >= 1025)
    ensures r.cardsUnclamped <==> s.cardsUnclamped || (isChrome && width >= 1025)
  {
    var l := GridLayout(width, isChrome);
    InlineStyle(Some(l.grid), s.fullWidth || l.fullWidth, s.autoFlowRow || l.chromeReset, s.cardsUnclamped || l.chromeReset)
  }

  /**
   * After any sequence of resizes the grid properties are those of the last
   * width, while `width: 100%` stays set once any earlier width was at least
   * 1025 pixels, even when the window has since narrowed to a tablet or
   * phone width.
   */
  lemma {:induction false} RestyleHistory(widths: seq<int>, isChrome: bool)
    requires |widths| > 0
    ensures var s := RestyleAll(Unstyled, widths, isChrome);
      && s.grid == Some(GridLayout(widths[|widths| - 1], isChrome).grid)
      && (s.fullWidth <==> exists i :: 0 <= i < |widths| && widths[i] >= 1025)
      && (s.autoFlowRow <==> isChrome && exists i :: 0 <= i < |widths| && widths[i] >= 1025)
  {
    if |widths| > 1 {
      var init := widths[..|widths| - 1];
      RestyleHistory(init, isChrome);
      assert forall i :: 0 <= i < |init| ==> init[i] == widths[i];
    }
  }

  /** The style after calls for each width in turn. */
  function RestyleAll(s: InlineStyle, widths: seq<int>, isChrome: bool): (r: InlineStyle)
    ensures widths == [] ==> r == s
    ensures |widths| > 0 ==> r.grid == Some(GridLayout(widths[|widths| - 1], isChrome).grid)
    ensures s.fullWidth ==> r.fullWidth
    ensures s.autoFlowRow ==> r.autoFlowRow
    ensures s.cardsUnclamped ==> r.cardsUnclamped
  {
    if widths == [] then s
    else Restyle(RestyleAll(s, widths[..|widths| - 1], isChrome), widths[|widths| - 1], isChrome)
  }
}
