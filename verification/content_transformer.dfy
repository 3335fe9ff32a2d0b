/**
 * The content mutator (`ContentTransformer`): for every paragraph of every shape
 * with a text frame, take the stripped paragraph text, run it through the rule
 * chain, and when the text changed write it back: every run is emptied and the
 * first run receives the whole new text (a paragraph with no runs gets one).
 *
 * As in `Taco`, the `Transform*` functions specify one pass together with the
 * next unused draw, the `*Outcome` predicates say what a pass promises whatever
 * the draws, and the class performs the pass step by step.
 */
module Content {
  import opened Wrappers
  import opened Deck
  import opened Rand
  import opened Levels
  import opened Text
  import opened ContentRules

  /** `len(paragraph.runs) > 0`. */
  predicate HasRun(cs: seq<Inline>)
  {
    exists i :: 0 <= i < |cs| && cs[i].TextRun?
  }

  /** The runs' text set to the empty string; breaks and fields untouched. */
  function ClearInline(c: Inline): Inline
  {
    if c.TextRun? then TextRun(c.run.(text := "")) else c
  }

  /** The loop `for run in paragraph.runs: run.text = ""`. */
  function ClearRuns(cs: seq<Inline>): (r: seq<Inline>)
    ensures |r| == |cs|
    ensures forall i :: 0 <= i < |cs| ==> r[i] == ClearInline(cs[i])
  {
    if cs == [] then [] else ClearRuns(cs[..|cs| - 1]) + [ClearInline(cs[|cs| - 1])]
  }

  /** The position of `paragraph.runs[0]` among the paragraph's content children. */
  function FirstRunIndex(cs: seq<Inline>): (k: nat)
    requires HasRun(cs)
    ensures k < |cs| && cs[k].TextRun?
    ensures forall i :: 0 <= i < k ==> !cs[i].TextRun?
  {
    if cs[0].TextRun? then 0
    else
      assert HasRun(cs[1..]) by {
        var i :| 0 <= i < |cs| && cs[i].TextRun?;
        assert cs[1..][i - 1] == cs[i];
      }
      1 + FirstRunIndex(cs[1..])
  }

  /**
   * Writing `t` back into a paragraph: empty every run, then put `t` in the first
   * run, or, when there is no run, let the text setter build a single run.
   */
  function WriteBack(cs: seq<Inline>, t: string): seq<Inline>
  {
    var cleared := ClearRuns(cs);
    if HasRun(cleared) then
      var k := FirstRunIndex(cleared);
      cleared[k := TextRun(cleared[k].run.(text := t))]
    else [TextRun(Run(DefaultFont, t))]
  }

  /**
   * The paragraph after a write-back of `t`: with runs, the same children in the
   * same places, each run keeping its font, the first holding `t` and the others
   * empty; without runs, one run holding `t`.
   */
  ghost predicate WrittenBack(cs: seq<Inline>, cs': seq<Inline>, t: string)
  {
    if HasRun(cs) then
      |cs'| == |cs| &&
      forall i :: 0 <= i < |cs| ==>
        if cs[i].TextRun? then cs'[i] == TextRun(cs[i].run.(text := if i == FirstRunIndex(cs) then t else ""))
        else cs'[i] == cs[i]
    else cs' == [TextRun(Run(DefaultFont, t))]
  }

  lemma WriteBackShape(cs: seq<Inline>, t: string)
    ensures WrittenBack(cs, WriteBack(cs, t), t)
  {
    var cleared := ClearRuns(cs);
    assert HasRun(cleared) <==> HasRun(cs) by {
      forall i | 0 <= i < |cs| ensures cleared[i].TextRun? == cs[i].TextRun? {
      }
    }
    if HasRun(cs) {
      var k := FirstRunIndex(cleared);
      assert k == FirstRunIndex(cs);
    }
  }

  /** The runs of a written-back paragraph hold exactly `t`, all in its first run. */
  lemma WriteBackRunsText(cs: seq<Inline>, t: string)
    ensures RunsText(Runs(WriteBack(cs, t))) == t
  {
    var r := WriteBack(cs, t);
    WriteBackShape(cs, t);
    if HasRun(cs) {
      RunsTextOfOneRun(r, FirstRunIndex(cs), t);
    } else {
      assert r == [] + [r[0]];
    }
  }

  /** When the only run with text is the one at `k`, the runs' text is that run's. */
  lemma {:induction false} RunsTextOfOneRun(cs: seq<Inline>, k: nat, t: string)
    requires k < |cs| && cs[k] .TextRun? && cs[k].run.text == t
    requires forall i :: 0 <= i < |cs| && i != k && cs[i].TextRun? ==> cs[i].run.text == ""
    ensures RunsText(Runs(cs)) == t
  {
    RunsTextPrefix(cs, k, t, |cs|);
    assert cs[..|cs|] == cs;
  }

  lemma {:induction false} RunsTextPrefix(cs: seq<Inline>, k: nat, t: string, n: nat)
    requires n <= |cs| && k < |cs| && cs[k].TextRun? && cs[k].run.text == t
    requires forall i :: 0 <= i < |cs| && i != k && cs[i].TextRun? ==> cs[i].run.text == ""
    ensures RunsText(Runs(cs[..n])) == if n > k then t else ""
  {
    if n > 0 {
      var front := cs[..n][..n - 1];
      assert front == cs[..n - 1];
      RunsTextPrefix(cs, k, t, n - 1);
      var last := cs[..n][n - 1];
      assert last == cs[n - 1];
      if last.TextRun? {
        var rs := Runs(front);
        assert Runs(cs[..n]) == rs + [last.run];
        assert (rs + [last.run])[..|rs|] == rs;
        assert RunsText(rs + [last.run]) == RunsText(rs) + last.run.text;
        if n - 1 == k {
          assert RunsText(rs) == "";
        } else {
          assert last.run.text == "";
        }
      } else {
        assert Runs(cs[..n]) == Runs(front) + [] == Runs(front);
        assert n - 1 != k;
      }
    }
  }

  /** A paragraph without line breaks or fields. */
  predicate OnlyRuns(cs: seq<Inline>)
  {
    forall i :: 0 <= i < |cs| ==> cs[i].TextRun?
  }

  /** In a paragraph made only of runs, `paragraph.text` is the runs' text. */
  lemma {:induction false} OnlyRunsText(cs: seq<Inline>)
    requires OnlyRuns(cs)
    ensures ContentText(cs) == RunsText(Runs(cs))
  {
    if cs != [] {
      var front := cs[..|cs| - 1];
      OnlyRunsText(front);
      var rs := Runs(front);
      assert Runs(cs) == rs + [cs[|cs| - 1].run];
      assert (rs + [cs[|cs| - 1].run])[..|rs|] == rs;
    }
  }

  /**
   * After a write-back of `t` into a paragraph without line breaks or fields,
   * `paragraph.text` reads back exactly `t`.
   */
  lemma WriteBackReadsBack(cs: seq<Inline>, t: string)
    requires OnlyRuns(cs)
    ensures ParagraphText(Paragraph(WriteBack(cs, t))) == t
  {
    var r := WriteBack(cs, t);
    WriteBackShape(cs, t);
    WriteBackRunsText(cs, t);
    assert OnlyRuns(r) by {
      if HasRun(cs) {
        forall i | 0 <= i < |r| ensures r[i].TextRun? {
          assert cs[i].TextRun?;
        }
      }
    }
    OnlyRunsText(r);
  }

  /** The body of the paragraph loop of `_transform_text_shape`. */
  function TransformParagraph(p: Paragraph, intensity: int, rand: Stream, pos: nat): (res: (Paragraph, nat))
  {
    var original := Strip(ParagraphText(p));
    if original == [] then (p, pos)
    else
      var (t, p') := RuleChain(original, intensity, rand, pos);
      if t != original then (Paragraph(WriteBack(p.content, t)), p') else (p, p')
  }

  /**
   * What one paragraph ends as, whatever the draws: untouched, or (only when its
   * text is not blank) rewritten with a new text `t` written back; at intensity 3
   * or less that text is a filler phrase, a space and the stripped original.
   */
  ghost predicate ParagraphOutcome(intensity: int, p: Paragraph, p': Paragraph)
  {
    p' == p ||
    (var original := Strip(ParagraphText(p));
     var t := RunsText(Runs(p'.content));
     && original != []
     && t != original
     && WrittenBack(p.content, p'.content, t)
     && (intensity < JargonIntensity ==> exists f :: f in VerboseFillers && t == f + " " + original))
  }

  ghost predicate ParagraphsOutcome(intensity: int, ps: seq<Paragraph>, ps': seq<Paragraph>)
  {
    |ps'| == |ps| && forall i :: 0 <= i < |ps| ==> ParagraphOutcome(intensity, ps[i], ps'[i])
  }

  /** Only the text frame of a shape can change, and only when it has one. */
  ghost predicate ShapeOutcome(intensity: int, s: Shape, s': Shape)
  {
    if s.textFrame.Some? then
      s'.textFrame.Some? && s' == s.(textFrame := s'.textFrame) &&
      ParagraphsOutcome(intensity, s.textFrame.value.paragraphs, s'.textFrame.value.paragraphs)
    else s' == s
  }

  ghost predicate ShapesOutcome(intensity: int, ss: seq<Shape>, ss': seq<Shape>)
  {
    |ss'| == |ss| && forall i :: 0 <= i < |ss| ==> ShapeOutcome(intensity, ss[i], ss'[i])
  }

  /** Layout, background and transition of a slide are never touched. */
  ghost predicate SlideOutcome(intensity: int, sl: Slide, sl': Slide)
  {
    sl' == sl.(shapes := sl'.shapes) && ShapesOutcome(intensity, sl.shapes, sl'.shapes)
  }

  ghost predicate SlidesOutcome(intensity: int, ss: seq<Slide>, ss': seq<Slide>)
  {
    |ss'| == |ss| && forall i :: 0 <= i < |ss| ==> SlideOutcome(intensity, ss[i], ss'[i])
  }

  /** The paragraph loop of `_transform_text_shape`. */
  function TransformParagraphs(ps: seq<Paragraph>, intensity: int, rand: Stream, pos: nat): (res: (seq<Paragraph>, nat))
  {
    if ps == [] then ([], pos)
    else
      var (front, p) := TransformParagraphs(ps[..|ps| - 1], intensity, rand, pos);
      var (q, p') := TransformParagraph(ps[|ps| - 1], intensity, rand, p);
      (front + [q], p')
  }

  /** `hasattr(shape, "text_frame")` gates the transformation of a shape. */
  function TransformShape(s: Shape, intensity: int, rand: Stream, pos: nat): (res: (Shape, nat))
  {
    if s.textFrame.Some? then
      var (ps, p) := TransformParagraphs(s.textFrame.value.paragraphs, intensity, rand, pos);
      (s.(textFrame := Some(TextFrame(ps))), p)
    else (s, pos)
  }

  /** The shape loop of `_transform_slide_content`. */
  function TransformShapes(ss: seq<Shape>, intensity: int, rand: Stream, pos: nat): (res: (seq<Shape>, nat))
  {
    if ss == [] then ([], pos)
    else
      var (front, p) := TransformShapes(ss[..|ss| - 1], intensity, rand, pos);
      var (s, p') := TransformShape(ss[|ss| - 1], intensity, rand, p);
      (front + [s], p')
  }

  /** `transform_all_content`: every slide, in order, sharing one draw stream. */
  function TransformSlides(ss: seq<Slide>, intensity: int, rand: Stream, pos: nat): (res: (seq<Slide>, nat))
  {
    if ss == [] then ([], pos)
    else
      var (front, p) := TransformSlides(ss[..|ss| - 1], intensity, rand, pos);
      var (shapes, p') := TransformShapes(ss[|ss| - 1].shapes, intensity, rand, p);
      (front + [ss[|ss| - 1].(shapes := shapes)], p')
  }

  /** One more iteration of the paragraph loop. */
  lemma TransformParagraphsStep(ps: seq<Paragraph>, i: nat, intensity: int, rand: Stream, pos: nat)
    requires i < |ps|
    ensures var (front, p) := TransformParagraphs(ps[..i], intensity, rand, pos);
      var (q, p') := TransformParagraph(ps[i], intensity, rand, p);
      TransformParagraphs(ps[..i + 1], intensity, rand, pos) == (front + [q], p')
  {
    assert ps[..i + 1][..i] == ps[..i];
  }

  lemma TransformParagraphOutcome(p: Paragraph, intensity: int, rand: Stream, pos: nat)
    ensures ParagraphOutcome(intensity, p, TransformParagraph(p, intensity, rand, pos).0)
  {
    var original := Strip(ParagraphText(p));
    if original != [] {
      var (t, _) := RuleChain(original, intensity, rand, pos);
      if t != original {
        WriteBackShape(p.content, t);
        WriteBackRunsText(p.content, t);
        if intensity < JargonIntensity {
          LowIntensityOnlyFiller(original, intensity, rand, pos);
        }
      }
    }
  }

  lemma {:induction false} TransformParagraphsOutcome(ps: seq<Paragraph>, intensity: int, rand: Stream, pos: nat)
    ensures ParagraphsOutcome(intensity, ps, TransformParagraphs(ps, intensity, rand, pos).0)
  {
    if ps != [] {
      var r0 := TransformParagraphs(ps[..|ps| - 1], intensity, rand, pos);
      var q := TransformParagraph(ps[|ps| - 1], intensity, rand, r0.1).0;
      TransformParagraphsOutcome(ps[..|ps| - 1], intensity, rand, pos);
      TransformParagraphOutcome(ps[|ps| - 1], intensity, rand, r0.1);
      ParagraphsOutcomeSnoc(intensity, ps, r0.0, q);
      TransformParagraphsLast(ps, intensity, rand, pos);
    }
  }

  /** The paragraph list is the transformed front followed by the transformed last paragraph. */
  lemma TransformParagraphsLast(ps: seq<Paragraph>, intensity: int, rand: Stream, pos: nat)
    requires ps != []
    ensures var r0 := TransformParagraphs(ps[..|ps| - 1], intensity, rand, pos);
      TransformParagraphs(ps, intensity, rand, pos).0 ==
      r0.0 + [TransformParagraph(ps[|ps| - 1], intensity, rand, r0.1).0]
  {
  }

  lemma ParagraphsOutcomeSnoc(intensity: int, ps: seq<Paragraph>, front: seq<Paragraph>, q: Paragraph)
    requires ps != []
    requires ParagraphsOutcome(intensity, ps[..|ps| - 1], front) && ParagraphOutcome(intensity, ps[|ps| - 1], q)
    ensures ParagraphsOutcome(intensity, ps, front + [q])
  {
    forall i | 0 <= i < |ps| ensures ParagraphOutcome(intensity, ps[i], (front + [q])[i]) {
      ParagraphsOutcomeSnocAt(intensity, ps, front, q, i);
    }
  }

  lemma ParagraphsOutcomeSnocAt(intensity: int, ps: seq<Paragraph>, front: seq<Paragraph>, q: Paragraph, i: nat)
    requires i < |ps|
    requires ParagraphsOutcome(intensity, ps[..|ps| - 1], front) && ParagraphOutcome(intensity, ps[|ps| - 1], q)
    ensures ParagraphOutcome(intensity, ps[i], (front + [q])[i])
  {
    if i < |ps| - 1 {
      assert ps[..|ps| - 1][i] == ps[i] && (front + [q])[i] == front[i];
    } else {
      assert (front + [q])[i] == q;
    }
  }

  lemma TransformShapeOutcome(s: Shape, intensity: int, rand: Stream, pos: nat)
    ensures ShapeOutcome(intensity, s, TransformShape(s, intensity, rand, pos).0)
  {
    if s.textFrame.Some? {
      TransformParagraphsOutcome(s.textFrame.value.paragraphs, intensity, rand, pos);
    }
  }

  lemma {:induction false} TransformShapesOutcome(ss: seq<Shape>, intensity: int, rand: Stream, pos: nat)
    ensures ShapesOutcome(intensity, ss, TransformShapes(ss, intensity, rand, pos).0)
  {
    if ss != [] {
      var r0 := TransformShapes(ss[..|ss| - 1], intensity, rand, pos);
      var t := TransformShape(ss[|ss| - 1], intensity, rand, r0.1).0;
      TransformShapesOutcome(ss[..|ss| - 1], intensity, rand, pos);
      TransformShapeOutcome(ss[|ss| - 1], intensity, rand, r0.1);
      forall i | 0 <= i < |ss| ensures ShapeOutcome(intensity, ss[i], (r0.0 + [t])[i]) {
        ShapesOutcomeSnocAt(intensity, ss, r0.0, t, i);
      }
      assert TransformShapes(ss, intensity, rand, pos).0 == r0.0 + [t];
    }
  }

  lemma ShapesOutcomeSnocAt(intensity: int, ss: seq<Shape>, front: seq<Shape>, t: Shape, i: nat)
    requires i < |ss|
    requires ShapesOutcome(intensity, ss[..|ss| - 1], front) && ShapeOutcome(intensity, ss[|ss| - 1], t)
    ensures ShapeOutcome(intensity, ss[i], (front + [t])[i])
  {
    if i < |ss| - 1 {
      assert ss[..|ss| - 1][i] == ss[i] && (front + [t])[i] == front[i];
    } else {
      assert (front + [t])[i] == t;
    }
  }

  /**
   * What a whole pass promises: the same slides, shapes and paragraphs in the same
   * order; only paragraph text changes, and each paragraph as `ParagraphOutcome` says.
   */
  lemma {:induction false} TransformSlidesOutcome(ss: seq<Slide>, intensity: int, rand: Stream, pos: nat)
    ensures SlidesOutcome(intensity, ss, TransformSlides(ss, intensity, rand, pos).0)
  {
    if ss != [] {
      var r0 := TransformSlides(ss[..|ss| - 1], intensity, rand, pos);
      var last := ss[|ss| - 1];
      var sl := last.(shapes := TransformShapes(last.shapes, intensity, rand, r0.1).0);
      TransformSlidesOutcome(ss[..|ss| - 1], intensity, rand, pos);
      TransformShapesOutcome(last.shapes, intensity, rand, r0.1);
      assert SlideOutcome(intensity, last, sl);
      forall i | 0 <= i < |ss| ensures SlideOutcome(intensity, ss[i], (r0.0 + [sl])[i]) {
        SlidesOutcomeSnocAt(intensity, ss, r0.0, sl, i);
      }
      assert TransformSlides(ss, intensity, rand, pos).0 == r0.0 + [sl];
    }
  }

  lemma SlidesOutcomeSnocAt(intensity: int, ss: seq<Slide>, front: seq<Slide>, sl: Slide, i: nat)
    requires i < |ss|
    requires SlidesOutcome(intensity, ss[..|ss| - 1], front) && SlideOutcome(intensity, ss[|ss| - 1], sl)
    ensures SlideOutcome(intensity, ss[i], (front + [sl])[i])
  {
    if i < |ss| - 1 {
      assert ss[..|ss| - 1][i] == ss[i] && (front + [sl])[i] == front[i];
    } else {
      assert (front + [sl])[i] == sl;
    }
  }

  /**
   * The transformer: the deck it rewrites, the clamped intensity, and its random
   * number generator as a stream plus the number of draws already taken from it.
   */
  class ContentTransformer {
    var presentation: Presentation
    var intensity: int
    const rand: Stream
    var drawn: nat

    ghost predicate Valid()
      reads this
    {
      MinLevel <= intensity <= MaxLevel
    }

    /** `ContentTransformer(presentation, intensity, seed)`; `rand` is the stream the seed selects. */
    constructor (presentation: Presentation, intensity: int, rand: Stream)
      ensures Valid()
      ensures this.presentation == presentation && this.rand == rand && drawn == 0
      ensures this.intensity == ClampLevel(intensity)
    {
      this.presentation := presentation;
      this.intensity := ClampLevel(intensity);
      this.rand := rand;
      this.drawn := 0;
    }

    /** One call to `self._rand`: the next draw of the stream. */
    method Draw() returns (d: nat)
      modifies this`drawn
      ensures d == rand(old(drawn)) && drawn == old(drawn) + 1
    {
      d := rand(drawn);
      drawn := drawn + 1;
    }

    /** `transform_all_content`: every slide, in place, in order. */
    method TransformAllContent()
      modifies this
      ensures intensity == old(intensity)
      ensures (presentation.slides, drawn) == TransformSlides(old(presentation.slides), intensity, rand, old(drawn))
      ensures SlidesOutcome(intensity, old(presentation.slides), presentation.slides)
    {
      ghost var slides0 := presentation.slides;
      var i := 0;
      while i < |presentation.slides|
        invariant intensity == old(intensity)
        invariant |presentation.slides| == |slides0|
        invariant 0 <= i <= |slides0|
        invariant (presentation.slides[..i], drawn) == TransformSlides(slides0[..i], intensity, rand, old(drawn))
        invariant presentation.slides[i..] == slides0[i..]
      {
        assert slides0[..i + 1][..i] == slides0[..i];
        var slide := TransformSlideContent(presentation.slides[i]);
        presentation := presentation.(slides := presentation.slides[i := slide]);
        assert presentation.slides[..i + 1] == presentation.slides[..i] + [slide];
        i := i + 1;
      }
      assert slides0[..i] == slides0;
      assert presentation.slides[..i] == presentation.slides;
      TransformSlidesOutcome(slides0, intensity, rand, old(drawn));
    }

    /** `_transform_slide_content`: every shape with a text frame. */
    method TransformSlideContent(slide: Slide) returns (r: Slide)
      modifies this`drawn
      ensures r == slide.(shapes := r.shapes)
      ensures (r.shapes, drawn) == TransformShapes(slide.shapes, intensity, rand, old(drawn))
    {
      var shapes := slide.shapes;
      var j := 0;
      while j < |shapes|
        invariant |shapes| == |slide.shapes|
        invariant 0 <= j <= |shapes|
        invariant (shapes[..j], drawn) == TransformShapes(slide.shapes[..j], intensity, rand, old(drawn))
        invariant shapes[j..] == slide.shapes[j..]
      {
        assert slide.shapes[..j + 1][..j] == slide.shapes[..j];
        var shape := shapes[j];
        if shape.textFrame.Some? {
          shape := TransformTextShape(shape);
        }
        shapes := shapes[j := shape];
        assert shapes[..j + 1] == shapes[..j] + [shape];
        j := j + 1;
      }
      assert slide.shapes[..j] == slide.shapes;
      assert shapes[..j] == shapes;
      r := slide.(shapes := shapes);
    }

    /** `_transform_text_shape`: every paragraph of the shape's text frame. */
    method TransformTextShape(shape: Shape) returns (r: Shape)
      requires shape.textFrame.Some?
      modifies this`drawn
      ensures r.textFrame.Some? && r == shape.(textFrame := r.textFrame)
      ensures (r.textFrame.value.paragraphs, drawn) ==
              TransformParagraphs(shape.textFrame.value.paragraphs, intensity, rand, old(drawn))
    {
      var ps := shape.textFrame.value.paragraphs;
      var done := [];
      var i := 0;
      while i < |ps|
        invariant 0 <= i <= |ps|
        invariant (done, drawn) == TransformParagraphs(ps[..i], intensity, rand, old(drawn))
      {
        TransformParagraphsStep(ps, i, intensity, rand, old(drawn));
        var paragraph := TransformParagraphText(ps[i]);
        done := done + [paragraph];
        i := i + 1;
      }
      assert ps[..i] == ps;
      r := shape.(textFrame := Some(TextFrame(done)));
    }

    /** The body of the paragraph loop: skip blank text, rewrite, write back if changed. */
    method TransformParagraphText(paragraph: Paragraph) returns (r: Paragraph)
      modifies this`drawn
      ensures (r, drawn) == TransformParagraph(paragraph, intensity, rand, old(drawn))
    {
      r := paragraph;
      var original := Strip(ParagraphText(paragraph));
      if original != [] {
        var modified := RewriteText(original);
        if modified != original {
          r := WriteText(paragraph, modified);
        }
      }
    }

    /** The five rules of `_transform_text_shape`, in order. */
    method RewriteText(original: string) returns (t: string)
      modifies this`drawn
      ensures (t, drawn) == RuleChain(original, intensity, rand, old(drawn))
    {
      t := AddFiller(original);
      t := InsertJargon(t);
      t := AddFact(t);
      t := AddSarcasm(t);
      t := AddRepetition(t);
    }

    method AddFiller(text: string) returns (t: string)
      modifies this`drawn
      ensures (t, drawn) == FillerRule(text, intensity, rand, old(drawn))
    {
      t := text;
      if intensity >= FillerIntensity {
        var d := Draw();
        if Below(d, FillerChance(intensity)) {
          var f := Draw();
          t := Choice(VerboseFillers, f) + " " + t;
        }
      }
    }

    method InsertJargon(text: string) returns (t: string)
      modifies this`drawn
      ensures (t, drawn) == JargonRule(text, intensity, rand, old(drawn))
    {
      t := text;
      if intensity >= JargonIntensity {
        var d := Draw();
        if Below(d, JargonChance(intensity)) {
          var dj := Draw();
          var jargon := Choice(OutdatedJargon, dj);
          var words := Split(t);
          if |words| > 2 {
            var dk := Draw();
            var k := RandInt(1, |words| - 1, dk);
            words := InsertAt(words, k, JargonToken(jargon));
            t := Join(words);
          }
        }
      }
    }

    method AddFact(text: string) returns (t: string)
      modifies this`drawn
      ensures (t, drawn) == FactRule(text, intensity, rand, old(drawn))
    {
      t := text;
      if intensity >= FactIntensity {
        var d := Draw();
        if Below(d, FactChance(intensity)) {
          var f := Draw();
          t := t + Choice(TangentialFacts, f);
        }
      }
    }

    method AddSarcasm(text: string) returns (t: string)
      modifies this`drawn
      ensures (t, drawn) == SarcasmRule(text, intensity, rand, old(drawn))
    {
      t := text;
      if intensity >= SarcasmIntensity {
        var d := Draw();
        if Below(d, SarcasmChance) {
          var f := Draw();
          t := Choice(SarcasmPrefixes, f) + t;
        }
      }
    }

    method AddRepetition(text: string) returns (t: string)
      modifies this`drawn
      ensures (t, drawn) == RepetitionRule(text, intensity, rand, old(drawn))
    {
      t := text;
      if intensity >= RepetitionIntensity {
        var d := Draw();
        if Below(d, RepetitionChance) {
          var words := Split(t);
          if |words| > 0 {
            var dk := Draw();
            t := t + EmphasisSentence(Choice(LastThree(words), dk));
          }
        }
      }
    }

    /** Replacing a paragraph's text: empty every run, then fill the first (or create one). */
    method WriteText(paragraph: Paragraph, t: string) returns (r: Paragraph)
      ensures r == Paragraph(WriteBack(paragraph.content, t))
    {
      var cs := paragraph.content;
      var j := 0;
      while j < |cs|
        invariant |cs| == |paragraph.content|
        invariant 0 <= j <= |cs|
        invariant forall i :: 0 <= i < j ==> cs[i] == ClearInline(paragraph.content[i])
        invariant forall i :: j <= i < |cs| ==> cs[i] == paragraph.content[i]
      {
        if cs[j].TextRun? {
          cs := cs[j := TextRun(cs[j].run.(text := ""))];
        }
        j := j + 1;
      }
      assert cs == ClearRuns(paragraph.content);
      if HasRun(cs) {
        var k := FirstRunIndex(cs);
        cs := cs[k := TextRun(cs[k].run.(text := t))];
      } else {
        cs := [TextRun(Run(DefaultFont, t))];
      }
      r := Paragraph(cs);
    }

    /** `get_intensity`. */
    function GetIntensity(): (level: int)
      reads this
      requires Valid()
      ensures MinLevel <= level <= MaxLevel
      ensures level == intensity
    {
      intensity
    }

    /** `set_intensity`: clamps like the constructor. */
    method SetIntensity(level: int)
      modifies this`intensity
      ensures Valid()
      ensures intensity == ClampLevel(level)
    {
      intensity := ClampLevel(level);
    }
  }
}
