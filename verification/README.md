# Prawn table cell, modelled in Dafny

This project models `Prawn::Table::Cell` from Prawn, a Ruby PDF library. A cell is one
rectangle of a table, anchored at its top-left corner `[x, y]` on the page. Page y grows
upwards, so the cell extends right to `x + width` and down to `y - height`.

The model covers four parts of the cell:

- **Padding.** `interpret_padding` resolves the `:padding` option into `[top, right, bottom, left]`.
  A malformed option raises `ArgumentError`.
- **Sizing.** `width` and `height` are the outer extent, padding included. Each is either
  given explicitly or measured from the content and then cached in `@width` / `@height` by
  `||=`. `content_width` and `content_height` subtract the padding from a known outer
  extent, and otherwise ask the document to measure. The height is measured with the text
  wrapped at `content_width`.
- **Borders.** `draw_borders` draws nothing when `border_width <= 0`. Otherwise it sets the
  line width, sets the stroke colour when one was given, and strokes one segment per
  listed edge, in list order. It uses the margin `border_width / 2`.
- **Content.** `draw_content` renders the text in a bounding box at the padded origin,
  sized `content_width × content_height`. `:size` and `:style` are passed only when set.
  `draw` strokes the borders first, then renders the content.

Files:

- `wrappers.dfy`, module `Wrappers`: `Option` (Ruby `nil`) and `Result` (a raised error).
- `document.dfy`, module `PdfDocument`: the document that the cell calls into.
  - `width_of` and `height_of` are two uninterpreted functions, fixed when the document is made.
  - Every measurement request is appended to the log `queries`.
  - Every drawing call is appended to the log `drawn`. The drawing calls are `line_width=`,
    `stroke_color=`, `stroke_line`, and `text` inside a `bounding_box`.
- `cell.dfy`, module `TableCell`: the cell.
  - The pure parts are functions and lemmas: padding, edge segments and text options.
  - The class `Cell` keeps `@width` and `@height` as mutable `Option<int>` fields. Its
    methods update those fields and the document's logs.
  - Each sizing method is specified by a function of the cached values. For example,
    `WidthAt(width)` is what `width` answers while `@width` is `width`.
  - The drawing methods are specified by the exact command sequence they append.
    `DrawCommandsAt` gives that sequence.

`x` and `y` (lib/prawn/table/cell.rb:129-135) are the fields of the `Point` anchor. The
padding accessors (lib/prawn/table/cell.rb:153-167) are `TopPadding`, `RightPadding`,
`BottomPadding` and `LeftPadding`.

Two facts about the code that shape the model:

- **Right edge.** The right edge's lower end is `y - height + margin`
  (lib/prawn/table/cell.rb:111). It stops `margin` short of the bottom-right corner, while
  the left edge reaches `margin` below the bottom-left corner. `EdgeExtents` states the
  difference: the right edge's lower end is `2 * margin` above the left edge's.
- **Margin.** The default border width is the Integer 1 (lib/prawn/table/cell.rb:37), and
  Ruby's `1 / 2` is 0, so the default margin is 0 (lib/prawn/table/cell.rb:96). The model
  uses integer division. Dafny's `/` agrees with Ruby's for the positive divisor on that
  path.

## Model

| member | source | states |
|---|---|---|
| `TableCell.InterpretPadding` | lib/prawn/table/cell.rb:137-151 | nil gives [0,0,0,0]; a number p gives p on all four sides; [v,h] gives [v,h,v,h]; [t,r,b,l] is kept as given; any other length fails with the ArgumentError message, and only those fail |
| `TableCell.PaddingIsNormalised` | lib/prawn/table/cell.rb:137-151 | a resolved padding, passed again as a four-element list, resolves to itself |
| `TableCell.PaddingSides` | lib/prawn/table/cell.rb:153-167 | what top_padding, right_padding, bottom_padding and left_padding read for each accepted shape: [v,h] puts v at top and bottom and h at right and left |
| `TableCell.BorderSegment` | lib/prawn/table/cell.rb:103-112 | top runs from the top-left to the top-right corner; bottom runs from the bottom-left to the bottom-right corner; left runs from margin above the top-left corner to margin below the bottom-left corner; right runs from margin above the top-right corner to margin above the bottom-right corner |
| `TableCell.EdgeExtents` | lib/prawn/table/cell.rb:103-112 | horizontal edges are level and exactly the box width long, height apart; the left edge is height + 2·margin long; the right edge is height long and ends 2·margin above the left edge's lower end |
| `TableCell.BorderStrokes` | lib/prawn/table/cell.rb:102-114 | exactly one stroke per listed edge |
| `TableCell.BorderStrokesAt` | lib/prawn/table/cell.rb:102-114 | the i-th stroke is the segment of the i-th listed edge, so strokes follow list order |
| `TableCell.DefaultBorderStrokes` | lib/prawn/table/cell.rb:36 | the default border list strokes top, bottom, left, right, in that order |
| `TableCell.TextOptions` | lib/prawn/table/cell.rb:122-124 | the text options hold :size exactly when a font size was given and :style exactly when a font style was given, each with the given value |
| `TableCell.Cell.constructor` | lib/prawn/table/cell.rb:25-41 | stores the anchor, explicit width and height, padding, font size and style, and content; borders default to all four edges only when not given (an empty list stays empty); border width defaults to 1 only when not given (0 stays 0) |
| `TableCell.Cell.New` | lib/prawn/table/cell.rb:25-41 | construction fails, with the ArgumentError message, exactly when the padding is malformed; otherwise it yields a fresh cell initialised as the constructor does, with the resolved padding |
| `TableCell.Cell.SetWidth` | lib/prawn/table/cell.rb:23 | the writer replaces @width, including with nil |
| `TableCell.Cell.SetHeight` | lib/prawn/table/cell.rb:23 | the writer replaces @height, including with nil |
| `TableCell.Cell.WidthAt` | lib/prawn/table/cell.rb:45-57 | width == content_width + left_padding + right_padding, whether the width is explicit or measured; an explicit width is answered as given |
| `TableCell.Cell.HeightAt` | lib/prawn/table/cell.rb:61-83 | height == content_height + top_padding + bottom_padding, whether the height is explicit or measured; an explicit height is answered as given |
| `TableCell.Cell.ExtentsAt` | lib/prawn/table/cell.rb:45-83 | outer extent = content extent + padding, in both directions, for every state of the cache |
| `TableCell.Cell.CachingWidthKeepsExtents` | lib/prawn/table/cell.rb:45-57 | caching the derived width changes none of the four sizes; afterwards content_width is exactly the measured width again |
| `TableCell.Cell.CachingHeightKeepsExtents` | lib/prawn/table/cell.rb:61-83 | caching the derived height changes none of the four sizes |
| `TableCell.Cell.SizeQueriesAt` | lib/prawn/table/cell.rb:56-79 | content_height asks only for the width of the content at the font size, and for its height wrapped at content_width |
| `TableCell.Cell.ContentWidthAt` | lib/prawn/table/cell.rb:51-57 | the definition of content_width for a given state of @width: with a known width, content_width + left_padding + right_padding == width; `WidthAt` and `ExtentsAt` state its relation to the outer width in every state |
| `TableCell.Cell.ContentHeightAt` | lib/prawn/table/cell.rb:67-83 | the definition of content_height for a given state of @width and @height: with a known height, content_height + top_padding + bottom_padding == height; `HeightAt` and `ExtentsAt` state its relation to the outer height in every state |
| `TableCell.Cell.BorderCommandsAt` | lib/prawn/table/cell.rb:94-116 | the definition of what draw_borders draws: nothing when border_width <= 0; otherwise the line width first, the stroke colour second when one was given, and one command per listed edge; `BorderCommandsStrokes` and `DrawOrder` state the rest |
| `TableCell.Cell.BorderCommandsStrokes` | lib/prawn/table/cell.rb:102-114 | after the line width and colour, the i-th border command strokes the i-th listed edge's segment of the outer box with margin border_width / 2; no border command renders text |
| `TableCell.Cell.DrawCommandsAt` | lib/prawn/table/cell.rb:87-90 | the definition of what draw draws: its last command is the content box; `DrawOrder` and `DrawCommandsFollowExtents` state its properties |
| `TableCell.Cell.ContentWidth` | lib/prawn/table/cell.rb:51-57 | with a known width, answers width - left - right without consulting the document; otherwise answers width_of(content, size), asking exactly once; content_width + left + right == width in both cases; nothing is cached |
| `TableCell.Cell.Width` | lib/prawn/table/cell.rb:45-47 | answers the width and stores it in @width; measures only when @width was nil; none of the four sizes changes |
| `TableCell.Cell.ContentHeight` | lib/prawn/table/cell.rb:67-83 | with a known height, answers height - top - bottom without consulting the document; otherwise answers height_of(content, wrapped at content_width), measuring the width first when it is not known; nothing is cached |
| `TableCell.Cell.Height` | lib/prawn/table/cell.rb:61-63 | answers height_of(content, width: content_width) + top + bottom (or the known height) and stores it in @height; measures only when @height was nil; none of the four sizes changes |
| `TableCell.RepeatedWidth` | lib/prawn/table/cell.rb:45-47 | two calls to width answer the same value, with at most one measurement between them and none when the width was already known |
| `TableCell.RepeatedHeight` | lib/prawn/table/cell.rb:61-63 | two calls to height answer the same value, with the measurements of the first call only |
| `TableCell.Cell.ContentCommandAt` | lib/prawn/table/cell.rb:118-127 | the content box's top-left corner is (x + left_padding, y - top_padding); the box ends right_padding inside the right edge and bottom_padding above the bottom edge of the outer box; it carries the content and the text options |
| `TableCell.Cell.EdgeQueriesAt` | lib/prawn/table/cell.rb:103-112 | an edge asks only for the content's width and its wrapped height |
| `TableCell.Cell.StrokeBorder` | lib/prawn/table/cell.rb:103-113 | one arm of the case strokes exactly that edge's segment of the outer box; top caches only the width, left only the height, bottom and right both; the measurements it asks for are exact, in evaluation order |
| `TableCell.Cell.StrokeBorders` | lib/prawn/table/cell.rb:102-114 | appends exactly one stroke per listed edge, in list order, all on the outer box as sized before the loop; the width is cached exactly when a non-left edge is listed, and the height exactly when a non-top edge is listed |
| `TableCell.Cell.DrawBorders` | lib/prawn/table/cell.rb:94-116 | a non-positive border width draws nothing, measures nothing and caches nothing; otherwise it draws the line width, then the colour when one was given, then the strokes with margin border_width / 2 |
| `TableCell.Cell.DrawContent` | lib/prawn/table/cell.rb:118-127 | appends the single content box, asking for the content width and then the content height, and caches nothing |
| `TableCell.Cell.DrawCommandsFollowExtents` | lib/prawn/table/cell.rb:87-90 | the border commands, the content box, what draw draws and the size queries depend on the cache only through the four sizes |
| `TableCell.Cell.Draw` | lib/prawn/table/cell.rb:87-90 | appends the border commands, then the content box; the sizes are unchanged, so drawing again draws the same commands |
| `TableCell.DrawOrder` | lib/prawn/table/cell.rb:87-90 | the content box is the last command and the only one; every stroke precedes it; with borders enabled there are exactly \|borders\| strokes |
| `TableCell.DefaultCellExample` | lib/prawn/table/cell.rb:94-127 | anchor (0,100), padding 10, content measured 20 × 12, default borders, border width 1: width 40, height 32, strokes (0,100)-(40,100), (0,68)-(40,68), (0,100)-(0,68), (40,100)-(40,68), then the content box at (10,90), sized 20 × 12 |
| `TableCell.WideBorderExample` | lib/prawn/table/cell.rb:94-127 | explicit width 50 and border width 4 (margin 2): left edge (0,102)-(0,66), right edge (50,102)-(50,70), content box 30 × 12 |

## Left out

- `Prawn::Document#cell` (lib/prawn/table/cell.rb:10-15) is not modelled. It takes the anchor from `options[:at]`, or `[0, cursor]` when none is given, builds a cell, draws it and returns it; it adds nothing to the cell's own behaviour.
- The save and restore of the line width and stroke colour by `@pdf.mask` (lib/prawn/table/cell.rb:98) is not modelled. That graphics state belongs to the document. The model records the two settings as commands but does not record their restoration.
- The font-size block around `height_of` (lib/prawn/table/cell.rb:74-77) is not modelled as a scope. The font size only reaches the measurement as an argument.
- Text measurement and rendering are not computed. `width_of` and `height_of` are uninterpreted total functions. Drawing calls are only recorded.
- Errors raised by the document during measurement or drawing are not modelled. They would propagate unchanged, and the model's measurement functions cannot fail.
- Floating-point sizes, coordinates and border widths are not modelled. The model uses integers and integer division for the margin.
- Ruby's dynamic typing is not modelled. An unknown border symbol would give `nil` endpoints. A `:padding` value of another type, or an array holding non-numbers, is likewise outside the model.
- The model has a single `Color` and a single `FontStyle`, both strings. Prawn's colour and style formats are not modelled.
- TableCell.Cell.DrawBorders: the exact order of the measurement requests across the whole loop is not stated. The contract says only that every request is one of the cell's two size queries. `StrokeBorder` states the exact requests for each edge.
- TableCell.Cell.StrokeBorders: the exact order of the measurement requests is not stated, for the same reason as DrawBorders.
- TableCell.Cell.Draw: the exact order of the measurement requests is not stated, for the same reason as DrawBorders. The drawn commands are stated exactly.
