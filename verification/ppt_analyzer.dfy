/**
 * The read-only analysis pass (`PPTAnalyzer`) and the record it fills in
 * (`DesignAnalysis`): the path checks made on construction, the slide, shape and
 * run loops, the font ranking and the colour palette. The loops are proved to
 * leave the record equal to `Replay` of the deck's event log, whose properties
 * `AnalysisSpec.AnalysisProperties` states.
 */
module Analyzer {
  import opened Wrappers
  import opened Deck
  import opened Text
  import opened Seqs
  import opened AnalysisSpec

  /** Why `PPTAnalyzer(pptx_path)` raises: `FileNotFoundError`, or `ValueError` for a bad suffix or a failed parse. */
  datatype OpenError = FileNotFound | NotPptxFormat | ParseFailed

  /** The path without trailing separators. */
  function TrimSlashes(path: string): (r: string)
    ensures |r| <= |path| && r == path[..|r|]
    ensures r != [] ==> r[|r| - 1] != '/'
  {
    if path != [] && path[|path| - 1] == '/' then TrimSlashes(path[..|path| - 1]) else path
  }

  /** `Path(path).name`: the last component. */
  function BaseName(path: string): (name: string)
    ensures '/' !in name
  {
    var p := TrimSlashes(path);
    var i := RFind(p, '/');
    p[i + 1..]
  }

  /** `Path.suffix`: from the last dot on, unless that dot starts or ends the name. */
  function Suffix(name: string): (r: string)
    ensures r != [] ==> r[0] == '.' && EndsWith(name, r) && |r| < |name|
  {
    var i := RFind(name, '.');
    if 0 < i < |name| - 1 then name[i..] else ""
  }

  /** `self.pptx_path.suffix.lower() == '.pptx'`. */
  predicate IsPptxPath(path: string)
  {
    Lower(Suffix(BaseName(path))) == ".pptx"
  }

  /**
   * A name has the `.pptx` suffix exactly when it ends in `.pptx` in any letter
   * case and has something before that dot, so a bare `.pptx` does not.
   */
  lemma PptxSuffixIff(name: string)
    ensures Lower(Suffix(name)) == ".pptx" <==> |name| >= 6 && Lower(name[|name| - 5..]) == ".pptx"
  {
    var n := |name|;
    if Lower(Suffix(name)) == ".pptx" {
      var i := RFind(name, '.');
      assert name[i..] == Suffix(name);
      assert i == n - 5;
    }
    if n >= 6 && Lower(name[n - 5..]) == ".pptx" {
      var tail := name[n - 5..];
      assert LowerChar(tail[0]) == '.';
      assert name[n - 5] == '.';
      forall k | n - 5 < k < n ensures name[k] != '.' {
        assert LowerChar(tail[k - (n - 5)]) == ".pptx"[k - (n - 5)];
      }
      var i := RFind(name, '.');
      assert i == n - 5;
    }
  }

  /** The constructor's checks, in order: the file must exist, have the suffix, and parse. */
  function OpenCheck(path: string, fileExists: bool, parsed: Option<Presentation>): (r: Result<Presentation, OpenError>)
    ensures !fileExists ==> r == Failure(FileNotFound)
    ensures fileExists && !IsPptxPath(path) ==> r == Failure(NotPptxFormat)
    ensures fileExists && IsPptxPath(path) && parsed.None? ==> r == Failure(ParseFailed)
    ensures r.Success? <==> fileExists && IsPptxPath(path) && parsed.Some?
    ensures r.Success? ==> r.value == parsed.value
  {
    if !fileExists then Failure(FileNotFound)
    else if !IsPptxPath(path) then Failure(NotPptxFormat)
    else if parsed.None? then Failure(ParseFailed)
    else Success(parsed.value)
  }

  /** `to_dict()`: the texts themselves are reported only by their number. */
  datatype Summary = Summary(fonts: map<string, nat>, colors: seq<Rgb>, slideLayouts: seq<string>,
                             animationCount: nat, totalSlides: nat, textElementsCount: nat)

  /** A `(name, count)` pair of `fonts.items()`. */
  type FontItem = (string, nat)

  /** `fonts.items()`, in insertion order. */
  function Items(fonts: map<string, nat>, order: seq<string>): (r: seq<FontItem>)
    ensures |r| == |order|
    ensures forall i :: 0 <= i < |order| && order[i] in fonts ==> r[i] == (order[i], fonts[order[i]])
  {
    if order == [] then []
    else
      var n := order[|order| - 1];
      Items(fonts, order[..|order| - 1]) + [(n, if n in fonts then fonts[n] else 0)]
  }

  /** Counts never increase from left to right. */
  ghost predicate Descending(xs: seq<FontItem>)
  {
    forall i, j :: 0 <= i < j < |xs| ==> xs[i].1 >= xs[j].1
  }

  /** The items with count `k`, in order: a stable sort leaves this unchanged for every `k`. */
  function WithCount(xs: seq<FontItem>, k: nat): seq<FontItem>
  {
    if xs == [] then [] else (if xs[0].1 == k then [xs[0]] else []) + WithCount(xs[1..], k)
  }

  /** Puts `x` after every item whose count is at least its own. */
  function InsertByCount(s: seq<FontItem>, x: FontItem): seq<FontItem>
  {
    if s == [] then [x] else if s[0].1 < x.1 then [x] + s else [s[0]] + InsertByCount(s[1..], x)
  }

  /** `sorted(items, key=count, reverse=True)`, stable like Python's sort. */
  function SortByCount(xs: seq<FontItem>): seq<FontItem>
  {
    if xs == [] then [] else InsertByCount(SortByCount(xs[..|xs| - 1]), xs[|xs| - 1])
  }

  lemma {:induction false} WithCountAppend(a: seq<FontItem>, b: seq<FontItem>, k: nat)
    ensures WithCount(a + b, k) == WithCount(a, k) + WithCount(b, k)
  {
    if a != [] {
      assert (a + b)[1..] == a[1..] + b;
      WithCountAppend(a[1..], b, k);
    } else {
      assert a + b == b;
    }
  }

  lemma {:induction false} WithCountNone(s: seq<FontItem>, k: nat)
    requires forall i :: 0 <= i < |s| ==> s[i].1 < k
    ensures WithCount(s, k) == []
  {
    if s != [] {
      WithCountNone(s[1..], k);
    }
  }

  lemma {:induction false} InsertByCountOrder(s: seq<FontItem>, x: FontItem)
    requires Descending(s)
    ensures Descending(InsertByCount(s, x))
    ensures multiset(InsertByCount(s, x)) == multiset(s) + multiset{x}
  {
    InsertByCountDescending(s, x);
    InsertByCountMultiset(s, x);
  }

  lemma {:induction false} InsertByCountMultiset(s: seq<FontItem>, x: FontItem)
    ensures multiset(InsertByCount(s, x)) == multiset(s) + multiset{x}
  {
    if s != [] && s[0].1 >= x.1 {
      InsertByCountMultiset(s[1..], x);
      assert s == [s[0]] + s[1..];
    }
  }

  /** Inserting keeps every count under a bound that `s` and `x` respect. */
  lemma {:induction false} InsertByCountBound(s: seq<FontItem>, x: FontItem, b: nat)
    requires forall i :: 0 <= i < |s| ==> s[i].1 <= b
    requires x.1 <= b
    ensures forall i :: 0 <= i < |InsertByCount(s, x)| ==> InsertByCount(s, x)[i].1 <= b
  {
    if s != [] && s[0].1 >= x.1 {
      InsertByCountBound(s[1..], x, b);
      var t := InsertByCount(s[1..], x);
      assert InsertByCount(s, x) == [s[0]] + t;
    }
  }

  lemma {:induction false} InsertByCountDescending(s: seq<FontItem>, x: FontItem)
    requires Descending(s)
    ensures Descending(InsertByCount(s, x))
  {
    if s != [] && s[0].1 >= x.1 {
      var t := InsertByCount(s[1..], x);
      InsertByCountDescending(s[1..], x);
      InsertByCountBound(s[1..], x, s[0].1);
      assert InsertByCount(s, x) == [s[0]] + t;
    }
  }

  lemma {:induction false} InsertByCountTies(s: seq<FontItem>, x: FontItem, k: nat)
    requires Descending(s)
    ensures WithCount(InsertByCount(s, x), k) == WithCount(s, k) + (if x.1 == k then [x] else [])
  {
    var r := InsertByCount(s, x);
    if s == [] {
      assert WithCount([x], k) == (if x.1 == k then [x] else []) + WithCount([], k);
    } else if s[0].1 < x.1 {
      assert r[1..] == s;
      if x.1 == k {
        WithCountNone(s, k);
      }
    } else {
      var t := InsertByCount(s[1..], x);
      assert r == [s[0]] + t && r[1..] == t;
      InsertByCountTies(s[1..], x, k);
    }
  }

  /** The ranking is sorted by count, holds the same items, and keeps ties in input order. */
  lemma {:induction false} SortByCountProperties(xs: seq<FontItem>)
    ensures Descending(SortByCount(xs))
    ensures multiset(SortByCount(xs)) == multiset(xs)
    ensures forall k :: WithCount(SortByCount(xs), k) == WithCount(xs, k)
  {
    if xs != [] {
      var front, x := xs[..|xs| - 1], xs[|xs| - 1];
      assert xs == front + [x];
      SortByCountProperties(front);
      InsertByCountOrder(SortByCount(front), x);
      forall k ensures WithCount(SortByCount(xs), k) == WithCount(xs, k) {
        InsertByCountTies(SortByCount(front), x, k);
        WithCountAppend(front, [x], k);
        assert WithCount([x], k) == (if x.1 == k then [x] else []) + WithCount([], k);
      }
    }
  }

  /** `get_dominant_fonts(top_n)` on an analysis: rank, then `[:top_n]`. */
  function DominantFonts(st: Stats, topN: int): seq<FontItem>
  {
    Take(SortByCount(Items(st.fonts, st.fontOrder)), topN)
  }

  /**
   * The dominant fonts are the first entries of a stable ranking of all fonts by
   * count: at most `top_n` of them (a negative `top_n` drops entries from the end,
   * as Python's slice does), in non-increasing count order.
   */
  lemma DominantFontsProperties(st: Stats, topN: int)
    ensures var ranked := SortByCount(Items(st.fonts, st.fontOrder));
      var r := DominantFonts(st, topN);
      && Descending(ranked)
      && multiset(ranked) == multiset(Items(st.fonts, st.fontOrder))
      && (forall k :: WithCount(ranked, k) == WithCount(Items(st.fonts, st.fontOrder), k))
      && r == ranked[..|r|]
      && (topN >= 0 ==> |r| <= topN)
      && Descending(r)
  {
    SortByCountProperties(Items(st.fonts, st.fontOrder));
  }

  /** `get_color_palette()` on an analysis: the first ten colours. */
  function ColorPalette(st: Stats): (r: seq<Rgb>)
    ensures |r| == if |st.colors| < 10 then |st.colors| else 10
    ensures r == st.colors[..|r|]
  {
    Take(st.colors, 10)
  }

  /** The record `analyze` fills in. */
  class DesignAnalysis {
    var fonts: map<string, nat>
    /** The order in which `fonts` received its keys (a dict's iteration order). */
    var fontOrder: seq<string>
    var colors: seq<Rgb>
    var slideLayouts: seq<string>
    var animationCount: nat
    var totalSlides: nat
    var textElements: seq<string>

    constructor ()
      ensures Snapshot() == NoStats && totalSlides == 0
      ensures Valid()
    {
      fonts := map[];
      fontOrder := [];
      colors := [];
      slideLayouts := [];
      animationCount := 0;
      totalSlides := 0;
      textElements := [];
    }

    /** The font keys match their insertion order, and no list repeats an entry. */
    ghost predicate Valid()
      reads this
    {
      WellFormed(Snapshot())
    }

    /** The accumulated part of the record. */
    function Snapshot(): Stats
      reads this
    {
      Stats(fonts, fontOrder, colors, slideLayouts, animationCount, textElements)
    }

    /** `to_dict()`. */
    function ToDict(): (d: Summary)
      reads this
      ensures d.textElementsCount == |textElements|
      ensures d.fonts == fonts && d.colors == colors && d.slideLayouts == slideLayouts
      ensures d.animationCount == animationCount && d.totalSlides == totalSlides
    {
      Summary(fonts, colors, slideLayouts, animationCount, totalSlides, |textElements|)
    }

    /** One run of the font loop: count its font name, record its RGB colour. */
    method RecordRun(run: Run)
      requires Valid()
      modifies this
      ensures Snapshot() == Replay(old(Snapshot()), RunEvents(run))
      ensures totalSlides == old(totalSlides)
      ensures Valid()
    {
      ReplayKeepsWellFormed(Snapshot(), RunEvents(run));
      ghost var st0 := Snapshot();
      if IsSetName(run.font.name) {
        var name := run.font.name.value;
        fonts := fonts[name := (if name in fonts then fonts[name] else 0) + 1];
        fontOrder := AddNew(fontOrder, name);
      }
      ghost var st1 := Snapshot();
      ghost var e1 := if IsSetName(run.font.name) then [FontUsed(run.font.name.value)] else [];
      assert st1 == Replay(st0, e1) by {
        if e1 != [] {
          assert e1[..0] == [];
        }
      }
      if run.font.color.RgbColor? {
        var rgb := run.font.color.rgb;
        if rgb !in colors {
          colors := colors + [rgb];
        }
      }
      ghost var e2 := if run.font.color.RgbColor? then [ColorUsed(run.font.color.rgb)] else [];
      assert Snapshot() == Replay(st1, e2) by {
        if e2 != [] {
          assert e2[..0] == [];
        }
      }
      ReplayAppend(st0, e1, e2);
    }

    /** `if layout_name not in slide_layouts: append`, when the layout can be read. */
    method RecordLayout(layoutName: Option<string>)
      requires Valid()
      modifies this
      ensures Snapshot() == Replay(old(Snapshot()), LayoutEvents(layoutName))
      ensures totalSlides == old(totalSlides)
      ensures Valid()
    {
      ReplayKeepsWellFormed(Snapshot(), LayoutEvents(layoutName));
      if layoutName.Some? {
        var name := layoutName.value;
        if name !in slideLayouts {
          slideLayouts := slideLayouts + [name];
        }
        assert [LayoutUsed(name)][..0] == [];
      }
    }

    /** One more animation when any of the transition's three attributes is truthy. */
    method RecordTransition(transition: Option<Transition>)
      requires Valid()
      modifies this
      ensures Snapshot() == Replay(old(Snapshot()), TransitionEvents(transition))
      ensures totalSlides == old(totalSlides)
      ensures Valid()
    {
      ReplayKeepsWellFormed(Snapshot(), TransitionEvents(transition));
      if transition.Some? {
        var t := transition.value;
        var hasEffect := t.entryEffect || t.advanceOnClick || t.advanceAfterTime;
        if hasEffect {
          animationCount := animationCount + 1;
          assert [SlideAnimated][..0] == [];
        }
      }
    }

    /** `text_elements.append(text)` for a frame whose stripped text is not empty. */
    method RecordText(tf: TextFrame)
      requires Valid()
      modifies this
      ensures Snapshot() == Replay(old(Snapshot()), TextEvents(tf))
      ensures totalSlides == old(totalSlides)
      ensures Valid()
    {
      ReplayKeepsWellFormed(Snapshot(), TextEvents(tf));
      var text := Strip(FrameText(tf.paragraphs));
      if text != [] {
        textElements := textElements + [text];
        assert [TextFound(text)][..0] == [];
      }
    }

    /** One colour from a solid fill. */
    method RecordFill(fill: Option<Fill>)
      requires Valid()
      modifies this
      ensures Snapshot() == Replay(old(Snapshot()), FillEvents(fill))
      ensures totalSlides == old(totalSlides)
      ensures Valid()
    {
      ReplayKeepsWellFormed(Snapshot(), FillEvents(fill));
      if fill.Some? && fill.value.Solid? && fill.value.foreColor.RgbColor? {
        var rgb := fill.value.foreColor.rgb;
        if rgb !in colors {
          colors := colors + [rgb];
        }
        assert [ColorUsed(rgb)][..0] == [];
      }
    }
  }

  /** An analyzer over a loaded presentation. */
  class PPTAnalyzer {
    const pptxPath: string
    const presentation: Presentation

    constructor (pptxPath: string, presentation: Presentation)
      ensures this.pptxPath == pptxPath && this.presentation == presentation
    {
      this.pptxPath := pptxPath;
      this.presentation := presentation;
    }

    /**
     * `PPTAnalyzer(pptx_path)`: whether the file exists and what loading it gives
     * are inputs; the checks are made in the constructor's order.
     */
    static method Open(pptxPath: string, fileExists: bool, parsed: Option<Presentation>)
      returns (r: Result<PPTAnalyzer, OpenError>)
      ensures r.Failure? ==> OpenCheck(pptxPath, fileExists, parsed) == Failure(r.error)
      ensures r.Success? ==> OpenCheck(pptxPath, fileExists, parsed) == Success(r.value.presentation)
      ensures r.Success? ==> fresh(r.value) && r.value.pptxPath == pptxPath
    {
      if !fileExists {
        return Failure(FileNotFound);
      }
      if !IsPptxPath(pptxPath) {
        return Failure(NotPptxFormat);
      }
      if parsed.None? {
        return Failure(ParseFailed);
      }
      var a := new PPTAnalyzer(pptxPath, parsed.value);
      r := Success(a);
    }

    /** `analyze()`: a fresh record, the slide count, then every slide in order. */
    method Analyze() returns (a: DesignAnalysis)
      ensures fresh(a)
      ensures a.Snapshot() == Replay(NoStats, DeckEvents(presentation.slides))
      ensures a.totalSlides == |presentation.slides|
      ensures a.Valid()
    {
      a := new DesignAnalysis();
      a.totalSlides := |presentation.slides|;
      var slides := presentation.slides;
      var i := 0;
      while i < |slides|
        invariant 0 <= i <= |slides|
        invariant a.Snapshot() == Replay(NoStats, DeckEvents(slides[..i]))
        invariant a.totalSlides == |slides|
        invariant a.Valid()
      {
        ReplayDeckStep(NoStats, slides, i);
        AnalyzeSlide(slides[i], a);
        i := i + 1;
      }
      assert slides[..i] == slides;
    }

    /** `_analyze_slide`: layout name, shapes, then the transition heuristic. */
    method AnalyzeSlide(slide: Slide, a: DesignAnalysis)
      requires a.Valid()
      modifies a
      ensures a.Snapshot() == Replay(old(a.Snapshot()), SlideEvents(slide))
      ensures a.totalSlides == old(a.totalSlides)
      ensures a.Valid()
    {
      ghost var st0 := a.Snapshot();
      a.RecordLayout(slide.layoutName);
      ghost var st1 := a.Snapshot();
      var shapes := slide.shapes;
      var j := 0;
      while j < |shapes|
        invariant 0 <= j <= |shapes|
        invariant a.Snapshot() == Replay(st1, ShapesEvents(shapes[..j]))
        invariant a.totalSlides == old(a.totalSlides)
        invariant a.Valid()
      {
        ReplayShapesStep(st1, shapes, j);
        AnalyzeShape(shapes[j], a);
        j := j + 1;
      }
      assert shapes[..j] == shapes;
      a.RecordTransition(slide.transition);
      ReplayAppend(st0, LayoutEvents(slide.layoutName), ShapesEvents(shapes));
      ReplayAppend(st0, LayoutEvents(slide.layoutName) + ShapesEvents(shapes), TransitionEvents(slide.transition));
    }

    /** `_analyze_shape`: the stripped text, the runs' fonts and colours, then the fill colour. */
    method AnalyzeShape(shape: Shape, a: DesignAnalysis)
      requires a.Valid()
      modifies a
      ensures a.Snapshot() == Replay(old(a.Snapshot()), ShapeEvents(shape))
      ensures a.totalSlides == old(a.totalSlides)
      ensures a.Valid()
    {
      ghost var st0 := a.Snapshot();
      ghost var textPart: seq<Event> := [];
      if shape.textFrame.Some? {
        var tf := shape.textFrame.value;
        a.RecordText(tf);
        AnalyzeParagraphs(tf.paragraphs, a);
        ReplayAppend(st0, TextEvents(tf), ParagraphsEvents(tf.paragraphs));
        textPart := TextEvents(tf) + ParagraphsEvents(tf.paragraphs);
      }
      a.RecordFill(shape.fill);
      ReplayAppend(st0, textPart, FillEvents(shape.fill));
    }

    /** The font loop of `_analyze_shape`: every run of every paragraph, in order. */
    method AnalyzeParagraphs(ps: seq<Paragraph>, a: DesignAnalysis)
      requires a.Valid()
      modifies a
      ensures a.Snapshot() == Replay(old(a.Snapshot()), ParagraphsEvents(ps))
      ensures a.totalSlides == old(a.totalSlides)
      ensures a.Valid()
    {
      ghost var st0 := a.Snapshot();
      var i := 0;
      while i < |ps|
        invariant 0 <= i <= |ps|
        invariant a.Snapshot() == Replay(st0, ParagraphsEvents(ps[..i]))
        invariant a.totalSlides == old(a.totalSlides)
        invariant a.Valid()
      {
        ReplayParagraphsStep(st0, ps, i);
        ghost var st1 := a.Snapshot();
        var runs := Runs(ps[i].content);
        var j := 0;
        while j < |runs|
          invariant 0 <= j <= |runs|
          invariant a.Snapshot() == Replay(st1, RunsEvents(runs[..j]))
          invariant a.totalSlides == old(a.totalSlides)
          invariant a.Valid()
        {
          ReplayRunsStep(st1, runs, j);
          a.RecordRun(runs[j]);
          j := j + 1;
        }
        assert runs[..j] == runs;
        i := i + 1;
      }
      assert ps[..i] == ps;
    }

    /** `get_dominant_fonts(top_n)`: a new analysis, ranked and cut. */
    method GetDominantFonts(topN: int) returns (r: seq<FontItem>)
      ensures r == DominantFonts(Replay(NoStats, DeckEvents(presentation.slides)), topN)
    {
      var a := Analyze();
      r := Take(SortByCount(Items(a.fonts, a.fontOrder)), topN);
    }

    /** `get_color_palette()`: a new analysis, its first ten colours. */
    method GetColorPalette() returns (r: seq<Rgb>)
      ensures r == ColorPalette(Replay(NoStats, DeckEvents(presentation.slides)))
    {
      var a := Analyze();
      r := Take(a.colors, 10);
    }
  }
}
