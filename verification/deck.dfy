/**
 * The slice of the python-pptx object model the engines touch: a presentation is a
 * list of slides, a slide a list of shapes plus a background fill, a shape has an
 * optional text frame, an optional fill and a picture flag, and a paragraph is a
 * list of runs, line breaks and fields. Optional capabilities (`hasattr(shape,
 * "text_frame")`, `hasattr(shape, "fill")`) are `Option` fields.
 */
module Deck {
  import opened Wrappers

  datatype Rgb = Rgb(r: int, g: int, b: int)

  /** The range `RGBColor` accepts for each channel. */
  predicate ValidRgb(c: Rgb)
  {
    0 <= c.r <= 255 && 0 <= c.g <= 255 && 0 <= c.b <= 255
  }

  /**
   * A `ColorFormat`: no colour defined, an explicit RGB colour (`color.type == 1`),
   * or a theme (scheme) colour, whose `.rgb` raises.
   */
  datatype ColorFormat = NoColor | RgbColor(rgb: Rgb) | SchemeColor

  /**
   * A run's font. `None` is "inherited"; `size` is a length in EMU, and a size of
   * zero is falsy in Python just like `None`.
   */
  datatype Font = Font(name: Option<string>, size: Option<nat>, bold: Option<bool>,
                       italic: Option<bool>, color: ColorFormat)

  /** The font of a run created by the paragraph text setter. */
  const DefaultFont: Font := Font(None, None, None, None, NoColor)

  datatype Run = Run(font: Font, text: string)

  /** The content children of a paragraph: `a:r`, `a:br` and `a:fld`. Only the first are `runs`. */
  datatype Inline = TextRun(run: Run) | LineBreak | Field(fieldText: string)

  datatype Paragraph = Paragraph(content: seq<Inline>)

  datatype TextFrame = TextFrame(paragraphs: seq<Paragraph>)

  /** Fill kinds; only `Solid` carries a colour the core reads or writes. */
  datatype Fill = Inherited | NoFill | Solid(foreColor: ColorFormat) | Gradient | Patterned | PictureFill

  datatype Shape = Shape(textFrame: Option<TextFrame>, fill: Option<Fill>, isPicture: bool)

  /** Truthiness of the three transition attributes the analyzer probes. */
  datatype Transition = Transition(entryEffect: bool, advanceOnClick: bool, advanceAfterTime: bool)

  /** `layoutName` is `None` when looking up the slide layout raises. */
  datatype Slide = Slide(layoutName: Option<string>, shapes: seq<Shape>, background: Fill,
                         transition: Option<Transition>)

  datatype Presentation = Presentation(slides: seq<Slide>)

  /** Python truthiness of an optional string: set and non-empty. */
  predicate IsSetName(name: Option<string>)
  {
    name.Some? && name.value != []
  }

  /** Python truthiness of an optional length: set and non-zero. */
  predicate IsSetSize(size: Option<nat>)
  {
    size.Some? && size.value != 0
  }

  const VerticalTab: char := 11 as char

  /** The text each content child contributes to `paragraph.text`. */
  function InlineText(c: Inline): string
  {
    match c
    case TextRun(r) => r.text
    case LineBreak => [VerticalTab]
    case Field(t) => t
  }

  /** `paragraph.text`: the text of all content children, in order. */
  function ContentText(cs: seq<Inline>): string
  {
    if cs == [] then "" else ContentText(cs[..|cs| - 1]) + InlineText(cs[|cs| - 1])
  }

  function ParagraphText(p: Paragraph): string
  {
    ContentText(p.content)
  }

  /** `paragraph.runs`: the `a:r` children only, in order. */
  function Runs(cs: seq<Inline>): (rs: seq<Run>)
    ensures |rs| <= |cs|
  {
    if cs == [] then []
    else Runs(cs[..|cs| - 1]) + (if cs[|cs| - 1].TextRun? then [cs[|cs| - 1].run] else [])
  }

  /** Concatenation of the runs' texts. */
  function RunsText(rs: seq<Run>): string
  {
    if rs == [] then "" else RunsText(rs[..|rs| - 1]) + rs[|rs| - 1].text
  }

  /** `text_frame.text`: the paragraphs' texts joined by newlines. */
  function FrameText(ps: seq<Paragraph>): string
  {
    if ps == [] then ""
    else if |ps| == 1 then ParagraphText(ps[0])
    else FrameText(ps[..|ps| - 1]) + "\n" + ParagraphText(ps[|ps| - 1])
  }
}
