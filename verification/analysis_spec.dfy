/**
 * What one analysis pass records, as a log of events in the order the analyzer
 * meets them (slide by slide: the layout, then each shape's text, runs and fill,
 * then the transition), and the bookkeeping `DesignAnalysis` does for each event.
 * The analyzer's results are `Replay` of the deck's log; the lemmas here read the
 * promised properties off that log.
 */
module AnalysisSpec {
  import opened Wrappers
  import opened Deck
  import opened Text
  import opened Seqs

  datatype Event =
    | FontUsed(name: string)
    | ColorUsed(rgb: Rgb)
    | LayoutUsed(layout: string)
    | TextFound(text: string)
    | SlideAnimated

  /**
   * The accumulating part of a `DesignAnalysis`: the font counts with their keys
   * in dict insertion order, the colours, layout names and text elements, and the
   * animation count.
   */
  datatype Stats = Stats(fonts: map<string, nat>, fontOrder: seq<string>, colors: seq<Rgb>,
                         layouts: seq<string>, animations: nat, texts: seq<string>)

  /** A fresh `DesignAnalysis`. */
  const NoStats: Stats := Stats(map[], [], [], [], 0, [])

  /** What `DesignAnalysis` does with one event. */
  function Apply(st: Stats, e: Event): Stats
  {
    match e
    case FontUsed(n) =>
      st.(fonts := st.fonts[n := (if n in st.fonts then st.fonts[n] else 0) + 1],
          fontOrder := AddNew(st.fontOrder, n))
    case ColorUsed(c) => st.(colors := AddNew(st.colors, c))
    case LayoutUsed(n) => st.(layouts := AddNew(st.layouts, n))
    case TextFound(t) => st.(texts := st.texts + [t])
    case SlideAnimated => st.(animations := st.animations + 1)
  }

  function Replay(st: Stats, evs: seq<Event>): Stats
  {
    if evs == [] then st else Apply(Replay(st, evs[..|evs| - 1]), evs[|evs| - 1])
  }

  lemma {:induction false} ReplayAppend(st: Stats, a: seq<Event>, b: seq<Event>)
    ensures Replay(st, a + b) == Replay(Replay(st, a), b)
  {
    if b == [] {
      assert a + b == a;
    } else {
      assert (a + b)[..|a + b| - 1] == a + b[..|b| - 1];
      ReplayAppend(st, a, b[..|b| - 1]);
    }
  }

  /**
   * The record's invariant: `fonts` has a key exactly for each name in `fontOrder`,
   * and the insertion order, the colours and the layout names hold no duplicates.
   */
  ghost predicate WellFormed(st: Stats)
  {
    && (forall n :: n in st.fonts <==> n in st.fontOrder)
    && NoDups(st.fontOrder) && NoDups(st.colors) && NoDups(st.layouts)
  }

  lemma ApplyKeepsWellFormed(st: Stats, e: Event)
    requires WellFormed(st)
    ensures WellFormed(Apply(st, e))
  {
  }

  /** Every event keeps the invariant, so every replay of a well-formed record does. */
  lemma {:induction false} ReplayKeepsWellFormed(st: Stats, evs: seq<Event>)
    requires WellFormed(st)
    ensures WellFormed(Replay(st, evs))
  {
    if evs != [] {
      ReplayKeepsWellFormed(st, evs[..|evs| - 1]);
      ApplyKeepsWellFormed(Replay(st, evs[..|evs| - 1]), evs[|evs| - 1]);
    }
  }

  /** Projections of a log onto each kind of event. */
  function FontNames(evs: seq<Event>): seq<string>
  {
    if evs == [] then []
    else FontNames(evs[..|evs| - 1]) + (if evs[|evs| - 1].FontUsed? then [evs[|evs| - 1].name] else [])
  }

  function ColorsOf(evs: seq<Event>): seq<Rgb>
  {
    if evs == [] then []
    else ColorsOf(evs[..|evs| - 1]) + (if evs[|evs| - 1].ColorUsed? then [evs[|evs| - 1].rgb] else [])
  }

  function LayoutsOf(evs: seq<Event>): seq<string>
  {
    if evs == [] then []
    else LayoutsOf(evs[..|evs| - 1]) + (if evs[|evs| - 1].LayoutUsed? then [evs[|evs| - 1].layout] else [])
  }

  function TextsOf(evs: seq<Event>): seq<string>
  {
    if evs == [] then []
    else TextsOf(evs[..|evs| - 1]) + (if evs[|evs| - 1].TextFound? then [evs[|evs| - 1].text] else [])
  }

  /** Each projection, and the count of animated slides, distributes over concatenation. */
  lemma ProjectionsAppend(a: seq<Event>, b: seq<Event>)
    ensures FontNames(a + b) == FontNames(a) + FontNames(b)
    ensures ColorsOf(a + b) == ColorsOf(a) + ColorsOf(b)
    ensures LayoutsOf(a + b) == LayoutsOf(a) + LayoutsOf(b)
    ensures TextsOf(a + b) == TextsOf(a) + TextsOf(b)
    ensures Count(a + b, SlideAnimated) == Count(a, SlideAnimated) + Count(b, SlideAnimated)
  {
    CountAppend(a, b, SlideAnimated);
    FontNamesAppend(a, b);
    ColorsOfAppend(a, b);
    LayoutsOfAppend(a, b);
    TextsOfAppend(a, b);
  }

  lemma {:induction false} FontNamesAppend(a: seq<Event>, b: seq<Event>)
    ensures FontNames(a + b) == FontNames(a) + FontNames(b)
  {
    if b == [] {
      assert a + b == a;
    } else {
      var ab := a + b;
      assert ab[..|ab| - 1] == a + b[..|b| - 1] && ab[|ab| - 1] == b[|b| - 1];
      FontNamesAppend(a, b[..|b| - 1]);
    }
  }

  lemma {:induction false} ColorsOfAppend(a: seq<Event>, b: seq<Event>)
    ensures ColorsOf(a + b) == ColorsOf(a) + ColorsOf(b)
  {
    if b == [] {
      assert a + b == a;
    } else {
      var ab := a + b;
      assert ab[..|ab| - 1] == a + b[..|b| - 1] && ab[|ab| - 1] == b[|b| - 1];
      ColorsOfAppend(a, b[..|b| - 1]);
    }
  }

  lemma {:induction false} LayoutsOfAppend(a: seq<Event>, b: seq<Event>)
    ensures LayoutsOf(a + b) == LayoutsOf(a) + LayoutsOf(b)
  {
    if b == [] {
      assert a + b == a;
    } else {
      var ab := a + b;
      assert ab[..|ab| - 1] == a + b[..|b| - 1] && ab[|ab| - 1] == b[|b| - 1];
      LayoutsOfAppend(a, b[..|b| - 1]);
    }
  }

  lemma {:induction false} TextsOfAppend(a: seq<Event>, b: seq<Event>)
    ensures TextsOf(a + b) == TextsOf(a) + TextsOf(b)
  {
    if b == [] {
      assert a + b == a;
    } else {
      var ab := a + b;
      assert ab[..|ab| - 1] == a + b[..|b| - 1] && ab[|ab| - 1] == b[|b| - 1];
      TextsOfAppend(a, b[..|b| - 1]);
    }
  }

  /** Occurrence counts of the names in `names`: the dict `fonts` should hold. */
  function FontCounts(names: seq<string>): (m: map<string, nat>)
    ensures forall n :: n in m <==> n in names
  {
    map n | n in names :: Count(names, n)
  }

  /**
   * Replaying a log from a fresh analysis: fonts are counted per name with keys in
   * first-use order, colours and layouts are the distinct values in first-seen
   * order, texts are all kept in order, and animations are the animated slides.
   */
  lemma ReplayFromFresh(evs: seq<Event>)
    ensures Replay(NoStats, evs) ==
      Stats(FontCounts(FontNames(evs)), Dedup(FontNames(evs)), Dedup(ColorsOf(evs)),
            Dedup(LayoutsOf(evs)), Count(evs, SlideAnimated), TextsOf(evs))
  {
    ReplayFontCounts(evs);
    ReplayFontOrder(evs);
    ReplayColors(evs);
    ReplayLayouts(evs);
    ReplayAnimations(evs);
    ReplayTexts(evs);
  }

  lemma {:induction false} ReplayFontCounts(evs: seq<Event>)
    ensures Replay(NoStats, evs).fonts == FontCounts(FontNames(evs))
  {
    if evs != [] {
      var front, e := evs[..|evs| - 1], evs[|evs| - 1];
      ReplayFontCounts(front);
      if e.FontUsed? {
        FontCountsSnoc(FontNames(front), e.name);
      } else {
        assert FontNames(evs) == FontNames(front) + [] == FontNames(front);
      }
    }
  }

  lemma {:induction false} ReplayFontOrder(evs: seq<Event>)
    ensures Replay(NoStats, evs).fontOrder == Dedup(FontNames(evs))
  {
    if evs != [] {
      var front, e := evs[..|evs| - 1], evs[|evs| - 1];
      ReplayFontOrder(front);
      if e.FontUsed? {
        DedupSnoc(FontNames(front), e.name);
      } else {
        assert FontNames(evs) == FontNames(front) + [] == FontNames(front);
      }
    }
  }

  lemma {:induction false} ReplayColors(evs: seq<Event>)
    ensures Replay(NoStats, evs).colors == Dedup(ColorsOf(evs))
  {
    if evs != [] {
      var front, e := evs[..|evs| - 1], evs[|evs| - 1];
      ReplayColors(front);
      if e.ColorUsed? {
        DedupSnoc(ColorsOf(front), e.rgb);
      } else {
        assert ColorsOf(evs) == ColorsOf(front) + [] == ColorsOf(front);
      }
    }
  }

  lemma {:induction false} ReplayLayouts(evs: seq<Event>)
    ensures Replay(NoStats, evs).layouts == Dedup(LayoutsOf(evs))
  {
    if evs != [] {
      var front, e := evs[..|evs| - 1], evs[|evs| - 1];
      ReplayLayouts(front);
      if e.LayoutUsed? {
        DedupSnoc(LayoutsOf(front), e.layout);
      } else {
        assert LayoutsOf(evs) == LayoutsOf(front) + [] == LayoutsOf(front);
      }
    }
  }

  lemma {:induction false} ReplayAnimations(evs: seq<Event>)
    ensures Replay(NoStats, evs).animations == Count(evs, SlideAnimated)
  {
    if evs != [] {
      ReplayAnimations(evs[..|evs| - 1]);
    }
  }

  lemma {:induction false} ReplayTexts(evs: seq<Event>)
    ensures Replay(NoStats, evs).texts == TextsOf(evs)
  {
    if evs != [] {
      var front, e := evs[..|evs| - 1], evs[|evs| - 1];
      ReplayTexts(front);
      if !e.TextFound? {
        assert TextsOf(evs) == TextsOf(front) + [] == TextsOf(front);
      }
    }
  }

  lemma FontCountsSnoc(names: seq<string>, n: string)
    ensures FontCounts(names + [n]) ==
      FontCounts(names)[n := (if n in FontCounts(names) then FontCounts(names)[n] else 0) + 1]
  {
    var m, m' := FontCounts(names), FontCounts(names + [n]);
    forall k | k in names + [n] ensures Count(names + [n], k) == Count(names, k) + (if k == n then 1 else 0) {
      CountAppend(names, [n], k);
      assert [n][..0] == [];
    }
  }

  /** The events of one run: its font name when set and non-empty, its colour when explicit RGB. */
  function RunEvents(r: Run): seq<Event>
  {
    (if IsSetName(r.font.name) then [FontUsed(r.font.name.value)] else []) +
    (if r.font.color.RgbColor? then [ColorUsed(r.font.color.rgb)] else [])
  }

  function RunsEvents(rs: seq<Run>): seq<Event>
  {
    if rs == [] then [] else RunsEvents(rs[..|rs| - 1]) + RunEvents(rs[|rs| - 1])
  }

  /** The runs of every paragraph, in order. */
  function ParagraphsEvents(ps: seq<Paragraph>): seq<Event>
  {
    if ps == [] then [] else ParagraphsEvents(ps[..|ps| - 1]) + RunsEvents(Runs(ps[|ps| - 1].content))
  }

  /** `shape.text.strip()` is recorded when it is not empty. */
  function TextEvents(tf: TextFrame): seq<Event>
  {
    var t := Strip(FrameText(tf.paragraphs));
    if t != [] then [TextFound(t)] else []
  }

  /** A solid fill whose fore colour is explicit RGB; any other fill records nothing. */
  function FillEvents(fill: Option<Fill>): seq<Event>
  {
    if fill.Some? && fill.value.Solid? && fill.value.foreColor.RgbColor?
    then [ColorUsed(fill.value.foreColor.rgb)] else []
  }

  /** `_analyze_shape`: text, then fonts and colours of the runs, then the fill colour. */
  function ShapeEvents(s: Shape): seq<Event>
  {
    (if s.textFrame.Some? then TextEvents(s.textFrame.value) + ParagraphsEvents(s.textFrame.value.paragraphs) else [])
    + FillEvents(s.fill)
  }

  function ShapesEvents(ss: seq<Shape>): seq<Event>
  {
    if ss == [] then [] else ShapesEvents(ss[..|ss| - 1]) + ShapeEvents(ss[|ss| - 1])
  }

  /** The transition heuristic: any of the three attributes truthy. */
  predicate Animated(t: Option<Transition>)
  {
    t.Some? && (t.value.entryEffect || t.value.advanceOnClick || t.value.advanceAfterTime)
  }

  function LayoutEvents(layoutName: Option<string>): seq<Event>
  {
    if layoutName.Some? then [LayoutUsed(layoutName.value)] else []
  }

  function TransitionEvents(t: Option<Transition>): seq<Event>
  {
    if Animated(t) then [SlideAnimated] else []
  }

  /** `_analyze_slide`: the layout name when it can be read, the shapes, then the transition. */
  function SlideEvents(sl: Slide): seq<Event>
  {
    LayoutEvents(sl.layoutName) + ShapesEvents(sl.shapes) + TransitionEvents(sl.transition)
  }

  /** `analyze`: every slide in order. */
  function DeckEvents(ss: seq<Slide>): seq<Event>
  {
    if ss == [] then [] else DeckEvents(ss[..|ss| - 1]) + SlideEvents(ss[|ss| - 1])
  }

  /** One more slide of the deck loop, replayed. */
  lemma ReplayDeckStep(st: Stats, ss: seq<Slide>, i: nat)
    requires i < |ss|
    ensures Replay(st, DeckEvents(ss[..i + 1])) == Replay(Replay(st, DeckEvents(ss[..i])), SlideEvents(ss[i]))
  {
    assert ss[..i + 1][..i] == ss[..i];
    ReplayAppend(st, DeckEvents(ss[..i]), SlideEvents(ss[i]));
  }

  /** One more shape of the shape loop, replayed. */
  lemma ReplayShapesStep(st: Stats, ss: seq<Shape>, i: nat)
    requires i < |ss|
    ensures Replay(st, ShapesEvents(ss[..i + 1])) == Replay(Replay(st, ShapesEvents(ss[..i])), ShapeEvents(ss[i]))
  {
    assert ss[..i + 1][..i] == ss[..i];
    ReplayAppend(st, ShapesEvents(ss[..i]), ShapeEvents(ss[i]));
  }

  /** One more paragraph of the paragraph loop, replayed. */
  lemma ReplayParagraphsStep(st: Stats, ps: seq<Paragraph>, i: nat)
    requires i < |ps|
    ensures Replay(st, ParagraphsEvents(ps[..i + 1])) ==
            Replay(Replay(st, ParagraphsEvents(ps[..i])), RunsEvents(Runs(ps[i].content)))
  {
    assert ps[..i + 1][..i] == ps[..i];
    ReplayAppend(st, ParagraphsEvents(ps[..i]), RunsEvents(Runs(ps[i].content)));
  }

  /** One more run of the run loop, replayed. */
  lemma ReplayRunsStep(st: Stats, rs: seq<Run>, i: nat)
    requires i < |rs|
    ensures Replay(st, RunsEvents(rs[..i + 1])) == Replay(Replay(st, RunsEvents(rs[..i])), RunEvents(rs[i]))
  {
    assert rs[..i + 1][..i] == rs[..i];
    ReplayAppend(st, RunsEvents(rs[..i]), RunEvents(rs[i]));
  }

  /** Events below the slide level never include `SlideAnimated`. */
  lemma {:induction false} NoAnimationInShapes(ss: seq<Shape>)
    ensures SlideAnimated !in ShapesEvents(ss)
  {
    if ss != [] {
      NoAnimationInShapes(ss[..|ss| - 1]);
      var s := ss[|ss| - 1];
      if s.textFrame.Some? {
        NoAnimationInParagraphs(s.textFrame.value.paragraphs);
      }
    }
  }

  lemma {:induction false} NoAnimationInParagraphs(ps: seq<Paragraph>)
    ensures SlideAnimated !in ParagraphsEvents(ps)
  {
    if ps != [] {
      NoAnimationInParagraphs(ps[..|ps| - 1]);
      NoAnimationInRuns(Runs(ps[|ps| - 1].content));
    }
  }

  lemma {:induction false} NoAnimationInRuns(rs: seq<Run>)
    ensures SlideAnimated !in RunsEvents(rs)
  {
    if rs != [] {
      NoAnimationInRuns(rs[..|rs| - 1]);
    }
  }

  /** Each slide adds at most one to the animation count. */
  lemma {:induction false} AnimationsAtMostSlides(ss: seq<Slide>)
    ensures Count(DeckEvents(ss), SlideAnimated) <= |ss|
  {
    if ss != [] {
      var sl := ss[|ss| - 1];
      AnimationsAtMostSlides(ss[..|ss| - 1]);
      var lay, anim := LayoutEvents(sl.layoutName), TransitionEvents(sl.transition);
      NoAnimationInShapes(sl.shapes);
      CountAppend(DeckEvents(ss[..|ss| - 1]), SlideEvents(sl), SlideAnimated);
      CountAppend(lay + ShapesEvents(sl.shapes), anim, SlideAnimated);
      CountAppend(lay, ShapesEvents(sl.shapes), SlideAnimated);
    }
  }

  /**
   * The properties of a whole analysis: colours and layout names free of
   * duplicates, in first-seen order; every font name counted once per run that
   * names it, so the counts add up to the number of such runs; the animation
   * count bounded by the slide count.
   */
  lemma AnalysisProperties(ss: seq<Slide>)
    ensures var evs := DeckEvents(ss);
      var st := Replay(NoStats, evs);
      && NoDups(st.colors) && (forall c :: c in st.colors <==> c in ColorsOf(evs))
      && NoDups(st.layouts) && (forall n :: n in st.layouts <==> n in LayoutsOf(evs))
      && (forall i, j :: 0 <= i < j < |st.colors| ==>
            FirstIndex(ColorsOf(evs), st.colors[i]) < FirstIndex(ColorsOf(evs), st.colors[j]))
      && (forall i, j :: 0 <= i < j < |st.layouts| ==>
            FirstIndex(LayoutsOf(evs), st.layouts[i]) < FirstIndex(LayoutsOf(evs), st.layouts[j]))
      && (forall n :: n in st.fonts <==> n in st.fontOrder)
      && (forall n :: n in st.fonts ==> st.fonts[n] == Count(FontNames(evs), n))
      && SumCounts(st.fontOrder, FontNames(evs)) == |FontNames(evs)|
      && st.animations <= |ss|
  {
    var evs := DeckEvents(ss);
    ReplayFromFresh(evs);
    DedupKeepsFirstSeenOrder(ColorsOf(evs));
    DedupKeepsFirstSeenOrder(LayoutsOf(evs));
    DedupCountsSum(FontNames(evs));
    AnimationsAtMostSlides(ss);
  }
}
