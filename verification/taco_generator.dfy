/**
 * The design mutator (`TacoGenerator`): walks slides, shapes, paragraphs and runs
 * and rewrites fonts, colours, sizes, emphasis, shape fills and slide backgrounds,
 * each effect gated by the clamped tackiness level. Random choices are draws from
 * the generator's stream, consumed in the order the Python code makes them.
 *
 * The `Tacky*` functions are the specification of one pass (they return the new
 * value and the position of the next unused draw); the `*Effect` predicates say
 * what a pass promises, independently of which draws it got; the class
 * `TacoGenerator` performs the pass step by step.
 */
module Taco {
  import opened Wrappers
  import opened Deck
  import opened Rand
  import opened Levels

  const TackyFonts: seq<string> := [
    "Comic Sans MS", "Papyrus", "Impact", "Curlz MT", "Jokerman", "Brush Script MT",
    "Chiller", "Lucida Handwriting"
  ]

  const NeonColors: seq<Rgb> := [
    Rgb(255, 0, 127), Rgb(0, 255, 255), Rgb(255, 255, 0), Rgb(0, 255, 0),
    Rgb(255, 127, 0), Rgb(255, 0, 0), Rgb(148, 0, 211), Rgb(255, 192, 203)
  ]

  /** Level thresholds of the five effects. */
  const FontLevel: int := 3
  const ColorLevel: int := 5
  const FillLevel: int := 6
  const SizeLevel: int := 7
  const EmphasisLevel: int := 8

  /** Base of each background channel, before the offset drawn from [-50, 50]. */
  const BackgroundBase: Rgb := Rgb(200, 100, 150)

  /** `Pt(size.pt * 1.3)`, in whole EMU. */
  function ScaledSize(emu: nat): nat
  {
    emu * 13 / 10
  }

  /** `n` is 1.3 times `old`, rounded down. */
  ghost predicate ScaledBy13(before: nat, n: nat)
  {
    n * 10 <= before * 13 < n * 10 + 10
  }

  ghost predicate IsNeon(c: ColorFormat)
  {
    c.RgbColor? && c.rgb in NeonColors
  }

  /** What `_tacky_text_transform` promises for one run, whatever the draws were. */
  ghost predicate RunEffect(level: int, r: Run, r': Run)
  {
    && r'.text == r.text
    && (if level >= FontLevel then r'.font.name.Some? && r'.font.name.value in TackyFonts
        else r'.font.name == r.font.name)
    && (if level >= ColorLevel then IsNeon(r'.font.color) else r'.font.color == r.font.color)
    && (if level >= SizeLevel && IsSetSize(r.font.size)
        then r'.font.size.Some? && ScaledBy13(r.font.size.value, r'.font.size.value)
        else r'.font.size == r.font.size)
    && (if level >= EmphasisLevel then r'.font.bold == Some(true) && r'.font.italic == Some(true)
        else r'.font.bold == r.font.bold && r'.font.italic == r.font.italic)
  }

  /** Runs are transformed; line breaks and fields are left alone. */
  ghost predicate InlineEffect(level: int, c: Inline, c': Inline)
  {
    if c.TextRun? then c'.TextRun? && RunEffect(level, c.run, c'.run) else c' == c
  }

  ghost predicate ContentEffect(level: int, cs: seq<Inline>, cs': seq<Inline>)
  {
    |cs'| == |cs| && forall i :: 0 <= i < |cs| ==> InlineEffect(level, cs[i], cs'[i])
  }

  ghost predicate ParagraphsEffect(level: int, ps: seq<Paragraph>, ps': seq<Paragraph>)
  {
    |ps'| == |ps| && forall i :: 0 <= i < |ps| ==> ContentEffect(level, ps[i].content, ps'[i].content)
  }

  /** The fill a shape ends with: solid neon at level 6 and up unless it is a picture. */
  ghost predicate FillEffect(level: int, s: Shape, fill': Option<Fill>)
  {
    if level >= FillLevel && s.fill.Some? && !s.isPicture
    then fill'.Some? && fill'.value.Solid? && IsNeon(fill'.value.foreColor)
    else fill' == s.fill
  }

  ghost predicate ShapeEffect(level: int, s: Shape, s': Shape)
  {
    && s'.isPicture == s.isPicture
    && s'.textFrame.Some? == s.textFrame.Some?
    && (s.textFrame.Some? ==>
          ParagraphsEffect(level, s.textFrame.value.paragraphs, s'.textFrame.value.paragraphs))
    && FillEffect(level, s, s'.fill)
  }

  ghost predicate ShapesEffect(level: int, ss: seq<Shape>, ss': seq<Shape>)
  {
    |ss'| == |ss| && forall i :: 0 <= i < |ss| ==> ShapeEffect(level, ss[i], ss'[i])
  }

  /** The perturbed background: each channel within 50 of its base. */
  ghost predicate TackyBackgroundColor(f: Fill)
  {
    f.Solid? && f.foreColor.RgbColor?
    && BackgroundBase.r - 50 <= f.foreColor.rgb.r <= BackgroundBase.r + 50
    && BackgroundBase.g - 50 <= f.foreColor.rgb.g <= BackgroundBase.g + 50
    && BackgroundBase.b - 50 <= f.foreColor.rgb.b <= BackgroundBase.b + 50
  }

  ghost predicate SlideEffect(level: int, sl: Slide, sl': Slide)
  {
    && sl'.layoutName == sl.layoutName
    && sl'.transition == sl.transition
    && ShapesEffect(level, sl.shapes, sl'.shapes)
    && (if level >= FillLevel then TackyBackgroundColor(sl'.background) else sl'.background == sl.background)
  }

  ghost predicate SlidesEffect(level: int, ss: seq<Slide>, ss': seq<Slide>)
  {
    |ss'| == |ss| && forall i :: 0 <= i < |ss| ==> SlideEffect(level, ss[i], ss'[i])
  }

  /** The body of the run loop in `_tacky_text_transform`. */
  function TackyRun(r: Run, level: int, rand: Stream, pos: nat): (res: (Run, nat))
    ensures RunEffect(level, r, res.0)
  {
    var f := r.font;
    var name := if level >= FontLevel then Some(Choice(TackyFonts, rand(pos))) else f.name;
    var p1 := if level >= FontLevel then pos + 1 else pos;
    var color := if level >= ColorLevel then RgbColor(Choice(NeonColors, rand(p1))) else f.color;
    var p2 := if level >= ColorLevel then p1 + 1 else p1;
    var size := if level >= SizeLevel && IsSetSize(f.size) then Some(ScaledSize(f.size.value)) else f.size;
    var bold := if level >= EmphasisLevel then Some(true) else f.bold;
    var italic := if level >= EmphasisLevel then Some(true) else f.italic;
    (Run(Font(name, size, bold, italic, color), r.text), p2)
  }

  /** The run loop over one paragraph's content. */
  function TackyContent(cs: seq<Inline>, level: int, rand: Stream, pos: nat): (res: (seq<Inline>, nat))
  {
    if cs == [] then ([], pos)
    else
      var (front, p) := TackyContent(cs[..|cs| - 1], level, rand, pos);
      var c := cs[|cs| - 1];
      if c.TextRun? then
        var (r, p') := TackyRun(c.run, level, rand, p);
        (front + [TextRun(r)], p')
      else (front + [c], p)
  }

  lemma TackyContentStep(cs: seq<Inline>, j: nat, level: int, rand: Stream, pos: nat)
    requires j < |cs|
    ensures var f := TackyContent(cs[..j], level, rand, pos);
      TackyContent(cs[..j + 1], level, rand, pos) ==
        if cs[j].TextRun? then
          (f.0 + [TextRun(TackyRun(cs[j].run, level, rand, f.1).0)], TackyRun(cs[j].run, level, rand, f.1).1)
        else (f.0 + [cs[j]], f.1)
  {
    assert cs[..j + 1][..j] == cs[..j];
  }

  /** The paragraph loop of `_tacky_text_transform`. */
  function TackyParagraphs(ps: seq<Paragraph>, level: int, rand: Stream, pos: nat): (res: (seq<Paragraph>, nat))
  {
    if ps == [] then ([], pos)
    else
      var (front, p) := TackyParagraphs(ps[..|ps| - 1], level, rand, pos);
      var (cs, p') := TackyContent(ps[|ps| - 1].content, level, rand, p);
      (front + [Paragraph(cs)], p')
  }

  lemma TackyParagraphsStep(ps: seq<Paragraph>, i: nat, level: int, rand: Stream, pos: nat)
    requires i < |ps|
    ensures var f := TackyParagraphs(ps[..i], level, rand, pos);
      var c := TackyContent(ps[i].content, level, rand, f.1);
      TackyParagraphs(ps[..i + 1], level, rand, pos) == (f.0 + [Paragraph(c.0)], c.1)
  {
    assert ps[..i + 1][..i] == ps[..i];
  }

  /** `_tacky_fill_transform`: below level 6 it does nothing and draws nothing. */
  function TackyFill(s: Shape, level: int, rand: Stream, pos: nat): (res: (Shape, nat))
    ensures res.0.textFrame == s.textFrame && res.0.isPicture == s.isPicture
    ensures level >= FillLevel ==> res.0.fill.Some? && res.0.fill.value.Solid? && IsNeon(res.0.fill.value.foreColor)
    ensures level < FillLevel ==> res == (s, pos)
  {
    if level >= FillLevel then (s.(fill := Some(Solid(RgbColor(Choice(NeonColors, rand(pos)))))), pos + 1)
    else (s, pos)
  }

  /** One iteration of the shape loop of `_make_slide_tacky`: text first, then fill. */
  function TackyShape(s: Shape, level: int, rand: Stream, pos: nat): (res: (Shape, nat))
  {
    var (s1, p1) :=
      if s.textFrame.Some? then
        var (ps, p) := TackyParagraphs(s.textFrame.value.paragraphs, level, rand, pos);
        (s.(textFrame := Some(TextFrame(ps))), p)
      else (s, pos);
    if s.fill.Some? && !s.isPicture then TackyFill(s1, level, rand, p1) else (s1, p1)
  }

  function TackyShapes(ss: seq<Shape>, level: int, rand: Stream, pos: nat): (res: (seq<Shape>, nat))
  {
    if ss == [] then ([], pos)
    else
      var (front, p) := TackyShapes(ss[..|ss| - 1], level, rand, pos);
      var (s, p') := TackyShape(ss[|ss| - 1], level, rand, p);
      (front + [s], p')
  }

  /** `_apply_tacky_background`: three `randint(-50, 50)` draws, red, green, blue in turn. */
  function TackyBackground(rand: Stream, pos: nat): (res: (Fill, nat))
    ensures TackyBackgroundColor(res.0)
    ensures res.1 == pos + 3
  {
    var c := Rgb(BackgroundBase.r + RandInt(-50, 50, rand(pos)),
                 BackgroundBase.g + RandInt(-50, 50, rand(pos + 1)),
                 BackgroundBase.b + RandInt(-50, 50, rand(pos + 2)));
    (Solid(RgbColor(c)), pos + 3)
  }

  /** `_make_slide_tacky`. */
  function TackySlide(sl: Slide, level: int, rand: Stream, pos: nat): (res: (Slide, nat))
  {
    var (shapes, p) := TackyShapes(sl.shapes, level, rand, pos);
    if level >= FillLevel then
      var (bg, p') := TackyBackground(rand, p);
      (sl.(shapes := shapes, background := bg), p')
    else (sl.(shapes := shapes), p)
  }

  /** `apply_tacky_design`: every slide, in order, sharing one draw stream. */
  function TackySlides(ss: seq<Slide>, level: int, rand: Stream, pos: nat): (res: (seq<Slide>, nat))
  {
    if ss == [] then ([], pos)
    else
      var (front, p) := TackySlides(ss[..|ss| - 1], level, rand, pos);
      var (s, p') := TackySlide(ss[|ss| - 1], level, rand, p);
      (front + [s], p')
  }

  /** Whatever the draws, a paragraph's runs get the run effect and nothing else changes. */
  lemma {:induction false} TackyContentEffect(cs: seq<Inline>, level: int, rand: Stream, pos: nat)
    ensures ContentEffect(level, cs, TackyContent(cs, level, rand, pos).0)
  {
    if cs != [] {
      TackyContentEffect(cs[..|cs| - 1], level, rand, pos);
    }
  }

  lemma {:induction false} TackyParagraphsEffect(ps: seq<Paragraph>, level: int, rand: Stream, pos: nat)
    ensures ParagraphsEffect(level, ps, TackyParagraphs(ps, level, rand, pos).0)
  {
    if ps != [] {
      var (front, p) := TackyParagraphs(ps[..|ps| - 1], level, rand, pos);
      TackyParagraphsEffect(ps[..|ps| - 1], level, rand, pos);
      TackyContentEffect(ps[|ps| - 1].content, level, rand, p);
    }
  }

  lemma TackyShapeEffect(s: Shape, level: int, rand: Stream, pos: nat)
    ensures ShapeEffect(level, s, TackyShape(s, level, rand, pos).0)
  {
    if s.textFrame.Some? {
      TackyParagraphsEffect(s.textFrame.value.paragraphs, level, rand, pos);
    }
  }

  lemma {:induction false} TackyShapesEffect(ss: seq<Shape>, level: int, rand: Stream, pos: nat)
    ensures ShapesEffect(level, ss, TackyShapes(ss, level, rand, pos).0)
  {
    if ss != [] {
      var (front, p) := TackyShapes(ss[..|ss| - 1], level, rand, pos);
      TackyShapesEffect(ss[..|ss| - 1], level, rand, pos);
      TackyShapeEffect(ss[|ss| - 1], level, rand, p);
    }
  }

  lemma TackySlideEffect(sl: Slide, level: int, rand: Stream, pos: nat)
    ensures SlideEffect(level, sl, TackySlide(sl, level, rand, pos).0)
  {
    TackyShapesEffect(sl.shapes, level, rand, pos);
  }

  /**
   * What a whole pass promises: the same slides with the same shapes in the same
   * order, and every run, fill and background changed exactly as the level allows.
   */
  lemma {:induction false} TackySlidesEffect(ss: seq<Slide>, level: int, rand: Stream, pos: nat)
    ensures SlidesEffect(level, ss, TackySlides(ss, level, rand, pos).0)
  {
    if ss != [] {
      var (front, p) := TackySlides(ss[..|ss| - 1], level, rand, pos);
      TackySlidesEffect(ss[..|ss| - 1], level, rand, pos);
      TackySlideEffect(ss[|ss| - 1], level, rand, p);
    }
  }

  /** The background colour is always a valid RGB triple, so no channel needs clamping. */
  lemma BackgroundIsValidRgb(f: Fill)
    requires TackyBackgroundColor(f)
    ensures ValidRgb(f.foreColor.rgb)
  {
  }

  /** Every neon colour is a valid RGB triple. */
  lemma NeonColorsValid(c: Rgb)
    requires c in NeonColors
    ensures ValidRgb(c)
  {
  }

  /**
   * The generator: the deck it rewrites, the clamped level, and its random number
   * generator as a stream plus the number of draws already taken from it.
   */
  class TacoGenerator {
    var presentation: Presentation
    var tackyLevel: int
    const rand: Stream
    var drawn: nat

    ghost predicate Valid()
      reads this
    {
      MinLevel <= tackyLevel <= MaxLevel
    }

    /** `TacoGenerator(presentation, tacky_level, seed)`; `rand` is the stream the seed selects. */
    constructor (presentation: Presentation, tackyLevel: int, rand: Stream)
      ensures Valid()
      ensures this.presentation == presentation && this.rand == rand && drawn == 0
      ensures this.tackyLevel == ClampLevel(tackyLevel)
    {
      this.presentation := presentation;
      this.tackyLevel := ClampLevel(tackyLevel);
      this.rand := rand;
      this.drawn := 0;
    }

    /** `apply_tacky_design`: rewrites every slide in place, in order. */
    method ApplyTackyDesign()
      modifies this
      ensures tackyLevel == old(tackyLevel)
      ensures (presentation.slides, drawn) == TackySlides(old(presentation.slides), tackyLevel, rand, old(drawn))
      ensures SlidesEffect(tackyLevel, old(presentation.slides), presentation.slides)
    {
      ghost var slides0 := presentation.slides;
      var i := 0;
      while i < |presentation.slides|
        invariant tackyLevel == old(tackyLevel)
        invariant |presentation.slides| == |slides0|
        invariant 0 <= i <= |slides0|
        invariant (presentation.slides[..i], drawn) == TackySlides(slides0[..i], tackyLevel, rand, old(drawn))
        invariant presentation.slides[i..] == slides0[i..]
      {
        assert slides0[..i + 1][..i] == slides0[..i];
        var slide := MakeSlideTacky(presentation.slides[i]);
        presentation := presentation.(slides := presentation.slides[i := slide]);
        assert presentation.slides[..i + 1] == presentation.slides[..i] + [slide];
        i := i + 1;
      }
      assert slides0[..i] == slides0;
      assert presentation.slides[..i] == presentation.slides;
      TackySlidesEffect(slides0, tackyLevel, rand, old(drawn));
    }

    /** `_make_slide_tacky`: text and fill of each shape, then the background at level 6 and up. */
    method MakeSlideTacky(slide: Slide) returns (r: Slide)
      modifies this`drawn
      ensures (r, drawn) == TackySlide(slide, tackyLevel, rand, old(drawn))
    {
      var shapes := slide.shapes;
      var j := 0;
      while j < |shapes|
        invariant |shapes| == |slide.shapes|
        invariant 0 <= j <= |shapes|
        invariant (shapes[..j], drawn) == TackyShapes(slide.shapes[..j], tackyLevel, rand, old(drawn))
        invariant shapes[j..] == slide.shapes[j..]
      {
        assert slide.shapes[..j + 1][..j] == slide.shapes[..j];
        var shape := shapes[j];
        if shapes[j].textFrame.Some? {
          shape := TackyTextTransform(shape);
        }
        if shapes[j].fill.Some? && !shapes[j].isPicture {
          shape := TackyFillTransform(shape);
        }
        shapes := shapes[j := shape];
        assert shapes[..j + 1] == shapes[..j] + [shape];
        j := j + 1;
      }
      assert slide.shapes[..j] == slide.shapes;
      assert shapes[..j] == shapes;
      r := slide.(shapes := shapes);
      if tackyLevel >= FillLevel {
        r := ApplyTackyBackground(r);
      }
    }

    /** `_tacky_text_transform`: font, colour, size and emphasis of every run. */
    method TackyTextTransform(shape: Shape) returns (r: Shape)
      requires shape.textFrame.Some?
      modifies this`drawn
      ensures r.textFrame.Some? && r == shape.(textFrame := r.textFrame)
      ensures (r.textFrame.value.paragraphs, drawn) ==
              TackyParagraphs(shape.textFrame.value.paragraphs, tackyLevel, rand, old(drawn))
    {
      var ps0 := shape.textFrame.value.paragraphs;
      var ps := ps0;
      var i := 0;
      while i < |ps|
        invariant |ps| == |ps0|
        invariant 0 <= i <= |ps|
        invariant ps[..i] == TackyParagraphs(ps0[..i], tackyLevel, rand, old(drawn)).0
        invariant drawn == TackyParagraphs(ps0[..i], tackyLevel, rand, old(drawn)).1
        invariant ps[i..] == ps0[i..]
      {
        TackyParagraphsStep(ps0, i, tackyLevel, rand, old(drawn));
        var cs := TackyContentTransform(ps[i].content);
        ps := ps[i := Paragraph(cs)];
        assert ps[..i + 1] == ps[..i] + [Paragraph(cs)];
        i := i + 1;
      }
      assert ps0[..i] == ps0;
      assert ps[..i] == ps;
      r := shape.(textFrame := Some(TextFrame(ps)));
    }

    /** The run loop of `_tacky_text_transform` over one paragraph. */
    method TackyContentTransform(cs0: seq<Inline>) returns (cs: seq<Inline>)
      modifies this`drawn
      ensures (cs, drawn) == TackyContent(cs0, tackyLevel, rand, old(drawn))
    {
      cs := cs0;
      var j := 0;
      while j < |cs|
        invariant |cs| == |cs0|
        invariant 0 <= j <= |cs|
        invariant cs[..j] == TackyContent(cs0[..j], tackyLevel, rand, old(drawn)).0
        invariant drawn == TackyContent(cs0[..j], tackyLevel, rand, old(drawn)).1
        invariant cs[j..] == cs0[j..]
      {
        TackyContentStep(cs0, j, tackyLevel, rand, old(drawn));
        if cs[j].TextRun? {
          var run := TackyRunTransform(cs[j].run);
          cs := cs[j := TextRun(run)];
        }
        assert cs[..j + 1] == cs[..j] + [cs[j]];
        j := j + 1;
      }
      assert cs0[..j] == cs0;
      assert cs[..j] == cs;
    }

    /** The body of the run loop of `_tacky_text_transform`. */
    method TackyRunTransform(run: Run) returns (r: Run)
      modifies this`drawn
      ensures (r, drawn) == TackyRun(run, tackyLevel, rand, old(drawn))
    {
      var font := run.font;
      if tackyLevel >= FontLevel {
        font := font.(name := Some(Choice(TackyFonts, rand(drawn))));
        drawn := drawn + 1;
      }
      if tackyLevel >= ColorLevel {
        font := font.(color := RgbColor(Choice(NeonColors, rand(drawn))));
        drawn := drawn + 1;
      }
      if tackyLevel >= SizeLevel && IsSetSize(font.size) {
        font := font.(size := Some(ScaledSize(font.size.value)));
      }
      if tackyLevel >= EmphasisLevel {
        font := font.(bold := Some(true), italic := Some(true));
      }
      r := run.(font := font);
    }

    /** `_tacky_fill_transform`: a solid neon fill at level 6 and up. */
    method TackyFillTransform(shape: Shape) returns (r: Shape)
      modifies this`drawn
      ensures (r, drawn) == TackyFill(shape, tackyLevel, rand, old(drawn))
    {
      r := shape;
      if tackyLevel >= FillLevel {
        r := shape.(fill := Some(Solid(RgbColor(Choice(NeonColors, rand(drawn))))));
        drawn := drawn + 1;
      }
    }

    /** `_apply_tacky_background`. */
    method ApplyTackyBackground(slide: Slide) returns (r: Slide)
      modifies this`drawn
      ensures (r.background, drawn) == TackyBackground(rand, old(drawn))
      ensures r == slide.(background := r.background)
    {
      var red := BackgroundBase.r + RandInt(-50, 50, rand(drawn));
      var green := BackgroundBase.g + RandInt(-50, 50, rand(drawn + 1));
      var blue := BackgroundBase.b + RandInt(-50, 50, rand(drawn + 2));
      drawn := drawn + 3;
      r := slide.(background := Solid(RgbColor(Rgb(red, green, blue))));
    }

    /** `get_tacky_level`. */
    function GetTackyLevel(): (level: int)
      reads this
      requires Valid()
      ensures MinLevel <= level <= MaxLevel
      ensures level == tackyLevel
    {
      tackyLevel
    }

    /** `set_tacky_level`: clamps like the constructor. */
    method SetTackyLevel(level: int)
      modifies this`tackyLevel
      ensures Valid()
      ensures tackyLevel == ClampLevel(level)
    {
      tackyLevel := ClampLevel(level);
    }
  }
}
