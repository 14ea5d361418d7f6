/**
 * A single table cell: its padding, its outer and content extents (explicit or measured,
 * memoised once measured), the line segments of its borders, and the order in which it
 * strokes those borders and renders its content.
 */
module TableCell {
  import opened Wrappers
  import opened PdfDocument

  // ---------------------------------------------------------------------------------------
  // Padding

  /** The value given for the `:padding` option. */
  datatype PaddingOption = Unset | Number(amount: int) | List(items: seq<int>)

  /** Resolved padding, in the order [top, right, bottom, left]. */
  type Padding = s: seq<int> | |s| == 4 witness [0, 0, 0, 0]

  function TopPadding(p: Padding): int { p[0] }
  function RightPadding(p: Padding): int { p[1] }
  function BottomPadding(p: Padding): int { p[2] }
  function LeftPadding(p: Padding): int { p[3] }

  /** The message of the `ArgumentError` raised for a malformed `:padding`. */
  const PaddingError := ":padding must be a number or an array [v,h] or [t,r,b,l]"

  /** Turns the `:padding` option into a [top, right, bottom, left] padding, or fails. */
  function InterpretPadding(pad: PaddingOption): (r: Result<Padding, string>)
    ensures pad.Unset? ==> r == Success([0, 0, 0, 0])
    ensures pad.Number? ==>
      r.Success? && forall i | 0 <= i < 4 :: r.value[i] == pad.amount
    ensures pad.List? && |pad.items| == 2 ==> r.Success? && r.value == pad.items + pad.items
    ensures pad.List? && |pad.items| == 4 ==> r.Success? && r.value == pad.items
    ensures r.Failure? <==> pad.List? && |pad.items| != 2 && |pad.items| != 4
    ensures r.Failure? ==> r.error == PaddingError
  {
    match pad
    case Unset => Success([0, 0, 0, 0])
    case Number(p) => Success([p, p, p, p])
    case List(items) =>
      if |items| == 2 then Success([items[0], items[1], items[0], items[1]])
      else if |items| == 4 then Success([items[0], items[1], items[2], items[3]])
      else Failure(PaddingError)
  }

  /** A resolved padding, given again as a four-element list, resolves to itself. */
  lemma PaddingIsNormalised(pad: PaddingOption)
    requires InterpretPadding(pad).Success?
    ensures InterpretPadding(List(InterpretPadding(pad).value)) == InterpretPadding(pad)
  {
  }

  /** What the four accessors read for each accepted shape of `:padding`. */
  lemma PaddingSides(pad: PaddingOption)
    requires InterpretPadding(pad).Success?
    ensures var p := InterpretPadding(pad).value;
      match pad
      case Unset =>
        TopPadding(p) == RightPadding(p) == BottomPadding(p) == LeftPadding(p) == 0
      case Number(n) =>
        TopPadding(p) == RightPadding(p) == BottomPadding(p) == LeftPadding(p) == n
      case List(items) =>
        if |items| == 2 then
          TopPadding(p) == BottomPadding(p) == items[0] && RightPadding(p) == LeftPadding(p) == items[1]
        else
          TopPadding(p) == items[0] && RightPadding(p) == items[1] &&
          BottomPadding(p) == items[2] && LeftPadding(p) == items[3]
  {
  }

  // ---------------------------------------------------------------------------------------
  // Border geometry

  datatype Edge = Top | Bottom | Left | Right

  /** The borders drawn when `:borders` is not given. */
  const DefaultBorders: seq<Edge> := [Top, Bottom, Left, Right]

  /** The outer box of a cell: `at` is its top-left corner; it extends right and down. */
  datatype Box = Box(at: Point, width: int, height: int) {
    function TopLeft(): Point { at }
    function TopRight(): Point { Point(at.x + width, at.y) }
    function BottomLeft(): Point { Point(at.x, at.y - height) }
    function BottomRight(): Point { Point(at.x + width, at.y - height) }
  }

  datatype Segment = Segment(from: Point, to: Point)

  /** The four sizes a cell answers: `content_width`, `width`, `content_height`, `height`. */
  datatype Extents = Extents(contentWidth: int, width: int, contentHeight: int, height: int)

  /** The point `d` above `p`. */
  function Raised(p: Point, d: int): Point { Point(p.x, p.y + d) }

  /** The line stroked for one edge of `box`, for a border margin `margin`. */
  function BorderSegment(edge: Edge, box: Box, margin: int): (s: Segment)
    ensures edge == Top ==> s == Segment(box.TopLeft(), box.TopRight())
    ensures edge == Bottom ==> s == Segment(box.BottomLeft(), box.BottomRight())
    ensures edge == Left ==> s == Segment(Raised(box.TopLeft(), margin), Raised(box.BottomLeft(), -margin))
    ensures edge == Right ==> s == Segment(Raised(box.TopRight(), margin), Raised(box.BottomRight(), margin))
  {
    var x, y, w, h := box.at.x, box.at.y, box.width, box.height;
    match edge
    case Top => Segment(Point(x, y), Point(x + w, y))
    case Bottom => Segment(Point(x, y - h), Point(x + w, y - h))
    case Left => Segment(Point(x, y + margin), Point(x, y - h - margin))
    case Right => Segment(Point(x + w, y + margin), Point(x + w, y - h + margin))
  }

  /** Horizontal edges span the box's width exactly; the left edge overhangs the box by the
      margin at both ends, while the right edge is shifted up by the margin as a whole. */
  lemma EdgeExtents(box: Box, margin: int)
    ensures var t, b := BorderSegment(Top, box, margin), BorderSegment(Bottom, box, margin);
      t.from.y == t.to.y && b.from.y == b.to.y &&
      t.to.x - t.from.x == box.width && b.to.x - b.from.x == box.width &&
      t.from.y - b.from.y == box.height
    ensures var l := BorderSegment(Left, box, margin);
      l.from.x == l.to.x == box.at.x && l.from.y - l.to.y == box.height + 2 * margin
    ensures var r := BorderSegment(Right, box, margin);
      r.from.x == r.to.x == box.at.x + box.width && r.from.y - r.to.y == box.height &&
      r.to.y == BorderSegment(Left, box, margin).to.y + 2 * margin
  {
  }

  function StrokeOf(s: Segment): Command { Stroke(s.from, s.to) }

  /** The strokes for a list of edges, one per edge, in list order. */
  function BorderStrokes(edges: seq<Edge>, box: Box, margin: int): (cmds: seq<Command>)
    ensures |cmds| == |edges|
  {
    if edges == [] then []
    else BorderStrokes(edges[..|edges| - 1], box, margin)
         + [StrokeOf(BorderSegment(edges[|edges| - 1], box, margin))]
  }

  lemma {:induction false} BorderStrokesAt(edges: seq<Edge>, box: Box, margin: int, i: int)
    requires 0 <= i < |edges|
    ensures BorderStrokes(edges, box, margin)[i] == StrokeOf(BorderSegment(edges[i], box, margin))
  {
    if i < |edges| - 1 {
      var init := edges[..|edges| - 1];
      BorderStrokesAt(init, box, margin, i);
      assert init[i] == edges[i];
    }
  }

  /** Whether stroking these edges reads the cell's `width`: every edge but the left does. */
  predicate ReadsWidth(edges: seq<Edge>) { Top in edges || Bottom in edges || Right in edges }

  /** Whether stroking these edges reads the cell's `height`: every edge but the top does. */
  predicate ReadsHeight(edges: seq<Edge>) { Bottom in edges || Left in edges || Right in edges }

  /** The default borders are stroked top, bottom, left, right. */
  lemma DefaultBorderStrokes(box: Box, margin: int)
    ensures BorderStrokes(DefaultBorders, box, margin) == [
      StrokeOf(BorderSegment(Top, box, margin)), StrokeOf(BorderSegment(Bottom, box, margin)),
      StrokeOf(BorderSegment(Left, box, margin)), StrokeOf(BorderSegment(Right, box, margin))]
  {
    var strokes := BorderStrokes(DefaultBorders, box, margin);
    var expected := [
      StrokeOf(BorderSegment(Top, box, margin)), StrokeOf(BorderSegment(Bottom, box, margin)),
      StrokeOf(BorderSegment(Left, box, margin)), StrokeOf(BorderSegment(Right, box, margin))];
    forall i | 0 <= i < 4
      ensures strokes[i] == expected[i]
    {
      BorderStrokesAt(DefaultBorders, box, margin, i);
    }
  }

  /** The strokes of a prefix of `edges` grow by one stroke per edge. */
  lemma EdgesPrefixStep(edges: seq<Edge>, i: int, box: Box, margin: int)
    requires 0 <= i < |edges|
    ensures BorderStrokes(edges[..i + 1], box, margin)
      == BorderStrokes(edges[..i], box, margin) + [StrokeOf(BorderSegment(edges[i], box, margin))]
  {
    assert edges[..i + 1] == edges[..i] + [edges[i]];
    assert edges[..i + 1][..i] == edges[..i];
  }

  /** Every query in `qs` is one of `allowed`. */
  predicate AllAmong(qs: seq<Query>, allowed: seq<Query>) { forall q | q in qs :: q in allowed }

  /** Appending to a log in two steps is appending the two parts at once. */
  lemma AppendAssoc<T>(a: seq<T>, b: seq<T>, c: seq<T>)
    ensures (a + b) + c == a + (b + c)
  {
  }

  /** Two runs of allowed queries make one. */
  lemma AllAmongConcat(qs: seq<Query>, more: seq<Query>, allowed: seq<Query>)
    requires AllAmong(qs, allowed) && AllAmong(more, allowed)
    ensures AllAmong(qs + more, allowed)
  {
  }

  /** The options hash handed to `text`: a key is present only when its option was given. */
  function TextOptions(fontSize: Option<int>, fontStyle: Option<FontStyle>): (opts: map<TextOption, TextValue>)
    ensures Size in opts <==> fontSize.Some?
    ensures Style in opts <==> fontStyle.Some?
    ensures Size in opts ==> opts[Size] == SizeValue(fontSize.value)
    ensures Style in opts ==> opts[Style] == StyleValue(fontStyle.value)
  {
    var sized := if fontSize.Some? then map[Size := SizeValue(fontSize.value)] else map[];
    if fontStyle.Some? then sized[Style := StyleValue(fontStyle.value)] else sized
  }

  // ---------------------------------------------------------------------------------------
  // The cell

  /** The options a cell is built from; an absent option is `None` (Ruby `nil`). */
  datatype CellOptions = CellOptions(
    width: Option<int>,
    height: Option<int>,
    padding: PaddingOption,
    fontSize: Option<int>,
    fontStyle: Option<FontStyle>,
    borders: Option<seq<Edge>>,
    borderWidth: Option<int>,
    borderColor: Option<Color>,
    content: Content)

  class Cell {
    const pdf: Document
    /** The top-left corner [x, y] of the cell. */
    const point: Point
    /** The outer width and height: set explicitly, or cached once measured. */
    var width: Option<int>
    var height: Option<int>
    const padding: Padding
    const fontSize: Option<int>
    const fontStyle: Option<FontStyle>
    const borders: seq<Edge>
    const borderWidth: int
    const borderColor: Option<Color>
    const content: Content

    /** The state `initialize` leaves behind for these arguments and this resolved padding. */
    predicate Built(pdf: Document, point: Point, options: CellOptions, padding: Padding)
      reads this
    {
      && this.pdf == pdf && this.point == point
      && width == options.width && height == options.height
      && this.padding == padding
      && fontSize == options.fontSize && fontStyle == options.fontStyle
      && borders == (if options.borders.Some? then options.borders.value else DefaultBorders)
      && borderWidth == (if options.borderWidth.Some? then options.borderWidth.value else 1)
      && borderColor == options.borderColor
      && content == options.content
    }

    constructor (pdf: Document, point: Point, options: CellOptions, padding: Padding)
      ensures Built(pdf, point, options, padding)
    {
      this.pdf := pdf;
      this.point := point;
      width := options.width;
      height := options.height;
      this.padding := padding;
      fontSize := options.fontSize;
      fontStyle := options.fontStyle;
      borders := if options.borders.Some? then options.borders.value else DefaultBorders;
      borderWidth := if options.borderWidth.Some? then options.borderWidth.value else 1;
      borderColor := options.borderColor;
      content := options.content;
    }

    /** `Cell.new`: resolves the padding first and raises on a malformed one. */
    static method New(pdf: Document, point: Point, options: CellOptions) returns (r: Result<Cell, string>)
      ensures r.Failure? <==> InterpretPadding(options.padding).Failure?
      ensures r.Failure? ==> r.error == PaddingError
      ensures r.Success? ==>
        fresh(r.value) && r.value.Built(pdf, point, options, InterpretPadding(options.padding).value)
    {
      var padding := InterpretPadding(options.padding);
      if padding.Failure? {
        return Failure(padding.error);
      }
      var cell := new Cell(pdf, point, options, padding.value);
      return Success(cell);
    }

    method SetWidth(w: Option<int>)
      modifies this`width
      ensures width == w
    {
      width := w;
    }

    method SetHeight(h: Option<int>)
      modifies this`height
      ensures height == h
    {
      height := h;
    }

    // -- What the sizing methods answer, for given cached values of @width and @height ------
    // These read only the cell's constant fields, so they are stated once for every state.

    /** What `content_width` answers while `@width` is `width`. */
    function ContentWidthAt(width: Option<int>): (cw: int)
      ensures width.Some? ==> cw + LeftPadding(padding) + RightPadding(padding) == width.value
    {
      if width.Some? then width.value - LeftPadding(padding) - RightPadding(padding)
      else pdf.widthOf(content, fontSize)
    }

    /** What `width` answers while `@width` is `width`: the content width plus the
        horizontal padding, whether the width is explicit or measured. */
    function WidthAt(width: Option<int>): (w: int)
      ensures w == ContentWidthAt(width) + LeftPadding(padding) + RightPadding(padding)
      ensures width.Some? ==> w == width.value
    {
      match width
      case Some(w) => w
      case None => pdf.widthOf(content, fontSize) + LeftPadding(padding) + RightPadding(padding)
    }

    /** What `content_height` answers: the explicit or cached height less the vertical
        padding, or else the content measured wrapped at the content width. */
    function ContentHeightAt(width: Option<int>, height: Option<int>): (ch: int)
      ensures height.Some? ==> ch + TopPadding(padding) + BottomPadding(padding) == height.value
    {
      if height.Some? then height.value - TopPadding(padding) - BottomPadding(padding)
      else pdf.heightOf(content, ContentWidthAt(width), fontSize)
    }

    /** What `height` answers: the content height plus the vertical padding. */
    function HeightAt(width: Option<int>, height: Option<int>): (h: int)
      ensures h == ContentHeightAt(width, height) + TopPadding(padding) + BottomPadding(padding)
      ensures height.Some? ==> h == height.value
    {
      match height
      case Some(h) => h
      case None =>
        pdf.heightOf(content, ContentWidthAt(width), fontSize) + TopPadding(padding) + BottomPadding(padding)
    }

    /** All four sizes at once. */
    function ExtentsAt(width: Option<int>, height: Option<int>): (e: Extents)
      ensures e.contentWidth + LeftPadding(padding) + RightPadding(padding) == e.width
      ensures e.contentHeight + TopPadding(padding) + BottomPadding(padding) == e.height
    {
      Extents(ContentWidthAt(width), WidthAt(width), ContentHeightAt(width, height), HeightAt(width, height))
    }

    /** Caching the width (what `width` does on first use) changes none of the four sizes:
        in particular `content_width` then answers exactly the measured width again. */
    lemma CachingWidthKeepsExtents(width: Option<int>, height: Option<int>)
      ensures ExtentsAt(Some(WidthAt(width)), height) == ExtentsAt(width, height)
      ensures width.None? ==> ContentWidthAt(Some(WidthAt(width))) == pdf.widthOf(content, fontSize)
    {
    }

    /** Caching the height (what `height` does on first use) changes none of the four sizes. */
    lemma CachingHeightKeepsExtents(width: Option<int>, height: Option<int>)
      ensures ExtentsAt(width, Some(HeightAt(width, height))) == ExtentsAt(width, height)
    {
    }

    /** The measurements `content_width` asks of the document while `@width` is `width`. */
    function ContentWidthQueriesAt(width: Option<int>): seq<Query>
    {
      if width.Some? then [] else [MeasureWidth(content, fontSize)]
    }

    /** The measurements `content_height` asks of the document. */
    function ContentHeightQueriesAt(width: Option<int>, height: Option<int>): seq<Query>
    {
      if height.Some? then []
      else ContentWidthQueriesAt(width) + [MeasureHeight(content, ContentWidthAt(width), fontSize)]
    }

    /** The only two measurements the cell ever asks for: the content's width, and its
        height wrapped at the content width. */
    function SizeQueriesAt(width: Option<int>): (qs: seq<Query>)
      ensures forall height: Option<int>, q | q in ContentHeightQueriesAt(width, height) :: q in qs
    {
      [MeasureWidth(content, fontSize), MeasureHeight(content, ContentWidthAt(width), fontSize)]
    }

    // -- Sizing -----------------------------------------------------------------------------

    /** `content_width`: nothing is cached, and the document is consulted only when no
        width is known. */
    method ContentWidth() returns (cw: int)
      modifies pdf`queries
      ensures cw == ContentWidthAt(width)
      ensures cw + LeftPadding(padding) + RightPadding(padding) == WidthAt(width)
      ensures width.Some? ==> pdf.queries == old(pdf.queries)
      ensures width.None? ==>
        cw == pdf.widthOf(content, fontSize) && pdf.queries == old(pdf.queries) + [MeasureWidth(content, fontSize)]
    {
      if width.Some? {
        return width.value - LeftPadding(padding) - RightPadding(padding);
      }
      cw := pdf.WidthOf(content, fontSize);
    }

    /** `width`: `@width ||= content_width + left_padding + right_padding`. */
    method Width() returns (w: int)
      modifies this`width, pdf`queries
      ensures w == WidthAt(old(width)) && width == Some(w)
      ensures pdf.queries == old(pdf.queries) + ContentWidthQueriesAt(old(width))
      ensures ExtentsAt(width, height) == ExtentsAt(old(width), height)
    {
      if width.None? {
        var cw := ContentWidth();
        width := Some(cw + LeftPadding(padding) + RightPadding(padding));
      }
      w := width.value;
      CachingWidthKeepsExtents(old(width), height);
    }

    /** `content_height`: nothing is cached; the height is measured, wrapped at
        `content_width`, only when no height is known. */
    method ContentHeight() returns (ch: int)
      modifies pdf`queries
      ensures ch == ContentHeightAt(width, height)
      ensures ch + TopPadding(padding) + BottomPadding(padding) == HeightAt(width, height)
      ensures pdf.queries == old(pdf.queries) + ContentHeightQueriesAt(width, height)
      ensures height.Some? ==> pdf.queries == old(pdf.queries)
    {
      if height.Some? {
        return height.value - TopPadding(padding) - BottomPadding(padding);
      }
      var cw := ContentWidth();
      ch := pdf.HeightOf(content, cw, fontSize);
    }

    /** `height`: `@height ||= content_height + top_padding + bottom_padding`. */
    method Height() returns (h: int)
      modifies this`height, pdf`queries
      ensures h == HeightAt(width, old(height)) && height == Some(h)
      ensures pdf.queries == old(pdf.queries) + ContentHeightQueriesAt(width, old(height))
      ensures ExtentsAt(width, height) == ExtentsAt(width, old(height))
    {
      if height.None? {
        var ch := ContentHeight();
        height := Some(ch + TopPadding(padding) + BottomPadding(padding));
      }
      h := height.value;
      CachingHeightKeepsExtents(width, old(height));
    }

    // -- Drawing ----------------------------------------------------------------------------

    /** The outer box of the cell. */
    function OutlineAt(width: Option<int>, height: Option<int>): Box
    {
      Box(point, WidthAt(width), HeightAt(width, height))
    }

    /** The line width, then the stroke colour when one was given. */
    function BorderSettings(): seq<Command>
    {
      [LineWidth(borderWidth)] + (if borderColor.Some? then [StrokeColor(borderColor.value)] else [])
    }

    /** What `draw_borders` draws: nothing when the border width is not positive; otherwise
        the line width, the colour if one was given, and one stroke per listed edge. */
    function BorderCommandsAt(width: Option<int>, height: Option<int>): (cmds: seq<Command>)
      ensures borderWidth <= 0 ==> cmds == []
      ensures borderWidth > 0 ==>
        && |cmds| == |borders| + (if borderColor.Some? then 2 else 1)
        && cmds[0] == LineWidth(borderWidth)
        && (borderColor.Some? ==> cmds[1] == StrokeColor(borderColor.value))
    {
      if borderWidth <= 0 then []
      else BorderSettings() + BorderStrokes(borders, OutlineAt(width, height), borderWidth / 2)
    }

    /** After the line width and the colour, `draw_borders` draws the i-th listed edge's
        segment of the outer box as its i-th stroke, and never renders content. */
    lemma BorderCommandsStrokes(width: Option<int>, height: Option<int>)
      ensures var cmds := BorderCommandsAt(width, height);
        borderWidth > 0 ==> forall i | 0 <= i < |borders| ::
          cmds[|cmds| - |borders| + i] == StrokeOf(BorderSegment(borders[i], OutlineAt(width, height), borderWidth / 2))
      ensures var cmds := BorderCommandsAt(width, height);
        forall i | 0 <= i < |cmds| :: !cmds[i].TextBox?
    {
      if borderWidth > 0 {
        var cmds := BorderCommandsAt(width, height);
        var box, margin := OutlineAt(width, height), borderWidth / 2;
        var pre := BorderSettings();
        forall i | 0 <= i < |borders|
          ensures cmds[|pre| + i] == StrokeOf(BorderSegment(borders[i], box, margin))
        {
          BorderStrokesAt(borders, box, margin, i);
        }
        forall i | |pre| <= i < |cmds|
          ensures !cmds[i].TextBox?
        {
          BorderStrokesAt(borders, box, margin, i - |pre|);
        }
      }
    }

    /** What `draw_content` draws: the content in the outer box inset by the padding. */
    function ContentCommandAt(width: Option<int>, height: Option<int>): (c: Command)
      ensures c.TextBox? && c.content == content && c.options == TextOptions(fontSize, fontStyle)
      ensures var box := OutlineAt(width, height);
        && c.origin == Point(box.TopLeft().x + LeftPadding(padding), box.TopLeft().y - TopPadding(padding))
        && c.origin.x + c.boxWidth + RightPadding(padding) == box.TopRight().x
        && c.origin.y - c.boxHeight - BottomPadding(padding) == box.BottomRight().y
    {
      TextBox(Point(point.x + LeftPadding(padding), point.y - TopPadding(padding)),
              ContentWidthAt(width), ContentHeightAt(width, height), content, TextOptions(fontSize, fontStyle))
    }

    /** What `draw` draws: the borders, then the content. */
    function DrawCommandsAt(width: Option<int>, height: Option<int>): (cmds: seq<Command>)
      ensures |cmds| > 0 && cmds[|cmds| - 1] == ContentCommandAt(width, height)
    {
      BorderCommandsAt(width, height) + [ContentCommandAt(width, height)]
    }

    /** The drawing depends on the cached sizes only through the four sizes. */
    lemma DrawCommandsFollowExtents(w1: Option<int>, h1: Option<int>, w2: Option<int>, h2: Option<int>)
      requires ExtentsAt(w1, h1) == ExtentsAt(w2, h2)
      ensures BorderCommandsAt(w1, h1) == BorderCommandsAt(w2, h2)
      ensures ContentCommandAt(w1, h1) == ContentCommandAt(w2, h2)
      ensures DrawCommandsAt(w1, h1) == DrawCommandsAt(w2, h2)
      ensures SizeQueriesAt(w1) == SizeQueriesAt(w2)
    {
      assert OutlineAt(w1, h1) == OutlineAt(w2, h2);
    }

    /** The measurements one arm of the `case` in `draw_borders` asks for, in the order it
        evaluates `width` and `height`. */
    function EdgeQueriesAt(edge: Edge, width: Option<int>, height: Option<int>): (qs: seq<Query>)
      ensures forall q | q in qs :: q in SizeQueriesAt(width)
    {
      match edge
      case Top => ContentWidthQueriesAt(width)
      case Bottom => ContentHeightQueriesAt(width, height) + ContentWidthQueriesAt(width)
      case Left => ContentHeightQueriesAt(width, height)
      case Right =>
        ContentWidthQueriesAt(width)
        + (if height.Some? then [] else [MeasureHeight(content, ContentWidthAt(width), fontSize)])
    }

    /** The cache after stroking the first `i` listed edges, starting from `w0`, `h0`:
        the width is cached once a non-left edge was stroked, the height once a non-top one was. */
    predicate CachedAfter(i: nat, w0: Option<int>, h0: Option<int>, w: Option<int>, h: Option<int>)
      requires i <= |borders|
    {
      && w == (if ReadsWidth(borders[..i]) then Some(WidthAt(w0)) else w0)
      && h == (if ReadsHeight(borders[..i]) then Some(HeightAt(w0, h0)) else h0)
    }

    /** Caching along the edges changes none of the four sizes. */
    lemma CachedAfterKeepsExtents(i: nat, w0: Option<int>, h0: Option<int>, w: Option<int>, h: Option<int>)
      requires i <= |borders| && CachedAfter(i, w0, h0, w, h)
      ensures ExtentsAt(w, h) == ExtentsAt(w0, h0)
      ensures OutlineAt(w, h) == OutlineAt(w0, h0) && SizeQueriesAt(w) == SizeQueriesAt(w0)
    {
      CachingWidthKeepsExtents(w0, h0);
      CachingHeightKeepsExtents(w0, h0);
      CachingHeightKeepsExtents(Some(WidthAt(w0)), h0);
    }

    /** Stroking edge `i` (which caches as `StrokeBorder` states) moves `CachedAfter` one edge on. */
    lemma CachedAfterStep(i: nat, w0: Option<int>, h0: Option<int>,
                          w: Option<int>, h: Option<int>, w': Option<int>, h': Option<int>)
      requires i < |borders| && CachedAfter(i, w0, h0, w, h)
      requires w' == if borders[i] == Left then w else Some(WidthAt(w))
      requires h' == if borders[i] == Top then h else Some(HeightAt(w, h))
      ensures CachedAfter(i + 1, w0, h0, w', h')
    {
      assert borders[..i + 1] == borders[..i] + [borders[i]];
      CachedAfterKeepsExtents(i, w0, h0, w, h);
    }

    /** One iteration of the loop in `draw_borders`: the `case` that builds the segment, then
        `stroke_line`. Within one arm, repeated reads of `width` or `height` hit the cache,
        so each is read once here, at its first use. */
    method StrokeBorder(edge: Edge, margin: int)
      modifies this`width, this`height, pdf`queries, pdf`drawn
      ensures ExtentsAt(width, height) == ExtentsAt(old(width), old(height))
      ensures width == if edge == Left then old(width) else Some(WidthAt(old(width)))
      ensures height == if edge == Top then old(height) else Some(HeightAt(old(width), old(height)))
      ensures pdf.drawn == old(pdf.drawn) + [StrokeOf(BorderSegment(edge, OutlineAt(old(width), old(height)), margin))]
      ensures pdf.queries == old(pdf.queries) + EdgeQueriesAt(edge, old(width), old(height))
    {
      ghost var box := OutlineAt(width, height);
      var x, y := point.x, point.y;
      var from, to;
      match edge {
        case Top =>
          var w := Width();
          assert w == box.width;
          from, to := Point(x, y), Point(x + w, y);
        case Bottom =>
          var h := Height();
          var w := Width();
          AppendAssoc(old(pdf.queries), ContentHeightQueriesAt(old(width), old(height)), ContentWidthQueriesAt(old(width)));
          assert w == box.width && h == box.height;
          from, to := Point(x, y - h), Point(x + w, y - h);
        case Left =>
          var h := Height();
          assert h == box.height;
          from, to := Point(x, y + margin), Point(x, y - h - margin);
        case Right =>
          var w := Width();
          var h := Height();
          AppendAssoc(old(pdf.queries), ContentWidthQueriesAt(old(width)), ContentHeightQueriesAt(width, old(height)));
          CachingWidthKeepsExtents(old(width), old(height));
          assert w == box.width && h == box.height;
          from, to := Point(x + w, y + margin), Point(x + w, y - h + margin);
      }
      assert Segment(from, to) == BorderSegment(edge, box, margin);
      pdf.StrokeLine(from, to);
    }

    /** The loop of `draw_borders`: one `stroke_line` per listed edge, in list order. */
    method StrokeBorders(margin: int) returns (ghost asked: seq<Query>)
      modifies this`width, this`height, pdf`queries, pdf`drawn
      ensures ExtentsAt(width, height) == ExtentsAt(old(width), old(height))
      ensures width == if ReadsWidth(borders) then Some(WidthAt(old(width))) else old(width)
      ensures height == if ReadsHeight(borders) then Some(HeightAt(old(width), old(height))) else old(height)
      ensures pdf.drawn == old(pdf.drawn) + BorderStrokes(borders, OutlineAt(old(width), old(height)), margin)
      ensures pdf.queries == old(pdf.queries) + asked && AllAmong(asked, SizeQueriesAt(old(width)))
    {
      ghost var width0, height0, queries0, head := width, height, pdf.queries, pdf.drawn;
      ghost var box, sizeQueries := OutlineAt(width, height), SizeQueriesAt(width);
      asked := [];
      var i := 0;
      while i < |borders|
        invariant 0 <= i <= |borders|
        invariant CachedAfter(i, width0, height0, width, height)
        invariant pdf.drawn == head + BorderStrokes(borders[..i], box, margin)
        invariant pdf.queries == queries0 + asked && AllAmong(asked, sizeQueries)
      {
        CachedAfterKeepsExtents(i, width0, height0, width, height);
        ghost var w, h := width, height;
        ghost var edgeQueries := EdgeQueriesAt(borders[i], width, height);
        ghost var stroke := StrokeOf(BorderSegment(borders[i], box, margin));
        StrokeBorder(borders[i], margin);
        CachedAfterStep(i, width0, height0, w, h, width, height);
        EdgesPrefixStep(borders, i, box, margin);
        AppendAssoc(head, BorderStrokes(borders[..i], box, margin), [stroke]);
        AppendAssoc(queries0, asked, edgeQueries);
        AllAmongConcat(asked, edgeQueries, sizeQueries);
        asked := asked + edgeQueries;
        i := i + 1;
      }
      assert borders[..|borders|] == borders;
      CachedAfterKeepsExtents(i, width0, height0, width, height);
    }

    /** `draw_borders`: nothing at all when the border width is not positive; otherwise the
        line width, the colour if one was given, then the strokes with margin
        `border_width / 2`. */
    method DrawBorders() returns (ghost asked: seq<Query>)
      modifies this`width, this`height, pdf`queries, pdf`drawn
      ensures ExtentsAt(width, height) == ExtentsAt(old(width), old(height))
      ensures width == if borderWidth > 0 && ReadsWidth(borders) then Some(WidthAt(old(width))) else old(width)
      ensures height ==
        if borderWidth > 0 && ReadsHeight(borders) then Some(HeightAt(old(width), old(height))) else old(height)
      ensures pdf.drawn == old(pdf.drawn) + BorderCommandsAt(old(width), old(height))
      ensures borderWidth <= 0 ==> pdf.queries == old(pdf.queries)
      ensures pdf.queries == old(pdf.queries) + asked && AllAmong(asked, SizeQueriesAt(old(width)))
    {
      if borderWidth <= 0 {
        asked := [];
        assert pdf.queries == old(pdf.queries) + asked;
        return;
      }
      var margin := borderWidth / 2;
      pdf.SetLineWidth(borderWidth);
      if borderColor.Some? {
        pdf.SetStrokeColor(borderColor.value);
        AppendAssoc(old(pdf.drawn), [LineWidth(borderWidth)], [StrokeColor(borderColor.value)]);
      }
      assert pdf.drawn == old(pdf.drawn) + BorderSettings();
      asked := StrokeBorders(margin);
      AppendAssoc(old(pdf.drawn), BorderSettings(), BorderStrokes(borders, OutlineAt(old(width), old(height)), margin));
    }

    /** `draw_content`: the content box at the padded origin, sized by `content_width` and
        `content_height`, with `:size` and `:style` passed only when set. Nothing is cached. */
    method DrawContent()
      modifies pdf`queries, pdf`drawn
      ensures pdf.drawn == old(pdf.drawn) + [ContentCommandAt(width, height)]
      ensures pdf.queries == old(pdf.queries) + ContentWidthQueriesAt(width) + ContentHeightQueriesAt(width, height)
    {
      var origin := Point(point.x + LeftPadding(padding), point.y - TopPadding(padding));
      var cw := ContentWidth();
      var ch := ContentHeight();
      pdf.TextInBox(origin, cw, ch, content, TextOptions(fontSize, fontStyle));
    }

    /** The measurements of `draw_content` are among the cell's two size queries. */
    lemma ContentQueriesAmong(width: Option<int>, height: Option<int>)
      ensures AllAmong(ContentWidthQueriesAt(width) + ContentHeightQueriesAt(width, height), SizeQueriesAt(width))
    {
    }

    /** `draw`: the borders first, then the content. The sizes do not change, so a second
        `draw` draws the same commands again. */
    method Draw() returns (ghost asked: seq<Query>)
      modifies this`width, this`height, pdf`queries, pdf`drawn
      ensures pdf.drawn == old(pdf.drawn) + DrawCommandsAt(old(width), old(height))
      ensures ExtentsAt(width, height) == ExtentsAt(old(width), old(height))
      ensures DrawCommandsAt(width, height) == DrawCommandsAt(old(width), old(height))
      ensures width == if borderWidth > 0 && ReadsWidth(borders) then Some(WidthAt(old(width))) else old(width)
      ensures height ==
        if borderWidth > 0 && ReadsHeight(borders) then Some(HeightAt(old(width), old(height))) else old(height)
      ensures pdf.queries == old(pdf.queries) + asked && AllAmong(asked, SizeQueriesAt(old(width)))
    {
      asked := DrawBorders();
      ghost var bordersAsked := pdf.queries;
      ghost var contentAsked := ContentWidthQueriesAt(width) + ContentHeightQueriesAt(width, height);
      DrawContent();
      DrawCommandsFollowExtents(width, height, old(width), old(height));
      AppendAssoc(old(pdf.drawn), BorderCommandsAt(old(width), old(height)), [ContentCommandAt(old(width), old(height))]);
      AppendAssoc(bordersAsked, ContentWidthQueriesAt(width), ContentHeightQueriesAt(width, height));
      AppendAssoc(old(pdf.queries), asked, contentAsked);
      ContentQueriesAmong(width, height);
      AllAmongConcat(asked, contentAsked, SizeQueriesAt(width));
      asked := asked + contentAsked;
    }
  }

  // ---------------------------------------------------------------------------------------
  // Properties across calls

  /** In what `draw` draws, the single content box comes last and after every stroke, and
      there is one stroke per listed border when borders are drawn at all. */
  lemma DrawOrder(c: Cell, width: Option<int>, height: Option<int>)
    ensures var cmds := c.DrawCommandsAt(width, height);
      && cmds[|cmds| - 1] == c.ContentCommandAt(width, height)
      && (forall i | 0 <= i < |cmds| - 1 :: !cmds[i].TextBox?)
      && (c.borderWidth > 0 ==> |cmds| == |c.borders| + (if c.borderColor.Some? then 3 else 2))
      && (c.borderWidth <= 0 ==> cmds == [c.ContentCommandAt(width, height)])
  {
    var cmds := c.DrawCommandsAt(width, height);
    if c.borderWidth > 0 {
      var pre := c.BorderSettings();
      var box := c.OutlineAt(width, height);
      assert cmds == pre + BorderStrokes(c.borders, box, c.borderWidth / 2) + [c.ContentCommandAt(width, height)];
      forall i | 0 <= i < |cmds| - 1
        ensures !cmds[i].TextBox?
      {
        if i >= |pre| {
          BorderStrokesAt(c.borders, box, c.borderWidth / 2, i - |pre|);
        }
      }
    }
  }

  /** Asking for `width` twice measures at most once and answers the same both times. */
  method RepeatedWidth(c: Cell) returns (first: int, second: int)
    modifies c`width, c.pdf`queries
    ensures first == second == c.WidthAt(old(c.width))
    ensures c.pdf.queries == old(c.pdf.queries) + c.ContentWidthQueriesAt(old(c.width))
    ensures old(c.width).Some? ==> c.pdf.queries == old(c.pdf.queries)
  {
    first := c.Width();
    second := c.Width();
  }

  /** Asking for `height` twice measures at most once and answers the same both times. */
  method RepeatedHeight(c: Cell) returns (first: int, second: int)
    modifies c`height, c.pdf`queries
    ensures first == second == c.HeightAt(c.width, old(c.height))
    ensures c.pdf.queries == old(c.pdf.queries) + c.ContentHeightQueriesAt(c.width, old(c.height))
    ensures old(c.height).Some? ==> c.pdf.queries == old(c.pdf.queries)
  {
    first := c.Height();
    second := c.Height();
  }

  /** A cell at (0, 100) with padding 10 whose content measures 20 wide and 12 high, drawn with
      the default borders and the default border width 1 (so the margin is 1 / 2 == 0). */
  method DefaultCellExample() returns (cmds: seq<Command>)
    ensures cmds == [
      LineWidth(1),
      Stroke(Point(0, 100), Point(40, 100)),
      Stroke(Point(0, 68), Point(40, 68)),
      Stroke(Point(0, 100), Point(0, 68)),
      Stroke(Point(40, 100), Point(40, 68)),
      TextBox(Point(10, 90), 20, 12, "Hi", map[])]
  {
    var pdf := new Document((c: Content, s: Option<int>) => 20, (c: Content, w: int, s: Option<int>) => 12);
    var options := CellOptions(None, None, Number(10), None, None, None, None, None, "Hi");
    var r := Cell.New(pdf, Point(0, 100), options);
    if r.Failure? {
      assert false;
      return [];
    }
    var cell := r.value;
    assert cell.OutlineAt(None, None) == Box(Point(0, 100), 40, 32);
    var asked := cell.Draw();
    DefaultBorderStrokes(Box(Point(0, 100), 40, 32), 0);
    cmds := pdf.drawn;
  }

  /** The same cell with border width 4 and explicit width 50: the vertical edges overhang by
      the margin 2 at the top; the left edge also at the bottom, the right edge does not. */
  method WideBorderExample() returns (cmds: seq<Command>)
    ensures cmds == [
      LineWidth(4),
      Stroke(Point(0, 100), Point(50, 100)),
      Stroke(Point(0, 68), Point(50, 68)),
      Stroke(Point(0, 102), Point(0, 66)),
      Stroke(Point(50, 102), Point(50, 70)),
      TextBox(Point(10, 90), 30, 12, "Hi", map[])]
  {
    var pdf := new Document((c: Content, s: Option<int>) => 20, (c: Content, w: int, s: Option<int>) => 12);
    var options := CellOptions(Some(50), None, Number(10), None, None, None, Some(4), None, "Hi");
    var r := Cell.New(pdf, Point(0, 100), options);
    if r.Failure? {
      assert false;
      return [];
    }
    var cell := r.value;
    assert cell.OutlineAt(Some(50), None) == Box(Point(0, 100), 50, 32);
    var asked := cell.Draw();
    DefaultBorderStrokes(Box(Point(0, 100), 50, 32), 2);
    cmds := pdf.drawn;
  }
}
