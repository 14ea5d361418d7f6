/**
 * The part of a Prawn document that a table cell talks to. Text measurement is an
 * uninterpreted pair of functions fixed when the document is made; every measurement
 * request and every drawing call is appended to a log, so that callers can be specified
 * by exactly what they ask of the document and what they draw on it.
 */
module PdfDocument {
  import opened Wrappers

  type Content = string
  type Color = string
  type FontStyle = string

  /** A point in page coordinates: x grows to the right, y grows upwards. */
  datatype Point = Point(x: int, y: int)

  /** The keys and values of the options hash handed to `text`. */
  datatype TextOption = Size | Style
  datatype TextValue = SizeValue(size: int) | StyleValue(style: FontStyle)

  /** A measurement request: `width_of(content, :size => size)` or
      `height_of(content, :width => wrapWidth)` under the font size override `size`. */
  datatype Query =
    | MeasureWidth(content: Content, size: Option<int>)
    | MeasureHeight(content: Content, wrapWidth: int, size: Option<int>)

  /** A drawing call: `line_width=`, `stroke_color=`, `stroke_line`, and `text` inside a
      `bounding_box` whose top-left corner is `origin`. */
  datatype Command =
    | LineWidth(lineWidth: int)
    | StrokeColor(color: Color)
    | Stroke(from: Point, to: Point)
    | TextBox(origin: Point, boxWidth: int, boxHeight: int, content: Content,
              options: map<TextOption, TextValue>)

  class Document {
    /** What `width_of` answers for a content at an optional font size. */
    const widthOf: (Content, Option<int>) -> int
    /** What `height_of` answers for a content wrapped at a width, under an optional font size. */
    const heightOf: (Content, int, Option<int>) -> int

    var queries: seq<Query>
    var drawn: seq<Command>

    constructor (widthOf: (Content, Option<int>) -> int, heightOf: (Content, int, Option<int>) -> int)
      ensures this.widthOf == widthOf && this.heightOf == heightOf
      ensures queries == [] && drawn == []
    {
      this.widthOf := widthOf;
      this.heightOf := heightOf;
      queries := [];
      drawn := [];
    }

    method WidthOf(content: Content, size: Option<int>) returns (w: int)
      modifies this`queries
      ensures w == widthOf(content, size)
      ensures queries == old(queries) + [MeasureWidth(content, size)]
    {
      w := widthOf(content, size);
      queries := queries + [MeasureWidth(content, size)];
    }

    method HeightOf(content: Content, wrapWidth: int, size: Option<int>) returns (h: int)
      modifies this`queries
      ensures h == heightOf(content, wrapWidth, size)
      ensures queries == old(queries) + [MeasureHeight(content, wrapWidth, size)]
    {
      h := heightOf(content, wrapWidth, size);
      queries := queries + [MeasureHeight(content, wrapWidth, size)];
    }

    method SetLineWidth(lineWidth: int)
      modifies this`drawn
      ensures drawn == old(drawn) + [LineWidth(lineWidth)]
    {
      drawn := drawn + [LineWidth(lineWidth)];
    }

    method SetStrokeColor(color: Color)
      modifies this`drawn
      ensures drawn == old(drawn) + [StrokeColor(color)]
    {
      drawn := drawn + [StrokeColor(color)];
    }

    method StrokeLine(from: Point, to: Point)
      modifies this`drawn
      ensures drawn == old(drawn) + [Stroke(from, to)]
    {
      drawn := drawn + [Stroke(from, to)];
    }

    method TextInBox(origin: Point, boxWidth: int, boxHeight: int, content: Content,
                     options: map<TextOption, TextValue>)
      modifies this`drawn
      ensures drawn == old(drawn) + [TextBox(origin, boxWidth, boxHeight, content, options)]
    {
      drawn := drawn + [TextBox(origin, boxWidth, boxHeight, content, options)];
    }
  }
}
