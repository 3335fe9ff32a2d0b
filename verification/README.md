# UglySlide core in Dafny

UglySlide takes a PowerPoint deck and makes it deliberately tacky. It has three engines:

- **`TacoGenerator`** gives every text run a garish font, a neon colour, a 1.3× size and bold italics, depending on the level. It also paints shape fills neon and perturbs slide backgrounds.
- **`ContentTransformer`** rewrites paragraph text. It adds verbose fillers, parenthesised outdated jargon, tangential facts, sarcastic prefixes and repeated key words, each gated by the intensity and by a random draw.
- **`PPTAnalyzer`** collects fonts (with counts), colours, layouts, transitions and texts into a `DesignAnalysis`. It also ranks the dominant fonts and cuts a colour palette.

The web front end adds an upload-name check, output file naming, query-parameter parsing, a per-client sliding-window rate limiter and the order in which the engines run.

The model follows the source's own form.

- **The deck.** The python-pptx objects the engines touch are datatypes (module `Deck`). The engines' in-place updates of the deck are reassignments of a `presentation` field.
- **The engines.** Each engine is a class. Its methods loop over slides, shapes, paragraphs and runs. Each method is proved equal to a specification function, for example `(presentation.slides, drawn) == TackySlides(old(presentation.slides), level, rand, old(drawn))`. Lemmas then prove what the source promises of those functions: which attributes change, to what, and what is never touched.
- **Randomness.** `random.Random` is a stream of natural numbers `rand: nat -> nat` plus a cursor `drawn`. Every `choice`, `randint` and `random()` call consumes exactly one draw:
  - `choice(xs)` is `xs[d % |xs|]`
  - `randint(a, b)` is `a + d % (b - a + 1)`
  - `random() < p` is `d % 1000 < 1000·p`, which is exact because every threshold in the source is a multiple of 1/1000

  Short-circuit `and` means a rule switched off by the intensity consumes no draw.
- **The analyzer.** It is specified by an event log. `DeckEvents(slides)` lists what the scan sees, in order. `Replay` folds the events into the analysis record. The analyzer's methods are proved to leave exactly `Replay(NoStats, DeckEvents(slides))`.

The tests at tests/test_modules.py:172-194 are named after gradients, but the generator applies only solid fills, so the model follows the code.

## Model

| member | source | states |
|---|---|---|
| Levels.ClampLevel | src/taco_generator.py:52 | the level is clamped into 1..10: unchanged inside, 1 below, 10 above |
| Levels.ClampIdempotent | src/content_transformer.py:158 | clamping an already clamped level changes nothing |
| Rand.Choice | src/taco_generator.py:91 | `choice` returns an element of the list |
| Rand.ChoiceReachesAll | src/taco_generator.py:91 | every element of the list can be chosen |
| Rand.RandInt | src/taco_generator.py:127-129 | `randint(a, b)` lies in a..b inclusive |
| Rand.RandIntReachesAll | src/content_transformer.py:116 | every value in a..b can be drawn |
| Rand.BelowBounds | src/content_transformer.py:107 | a probability of 0 never fires and a probability of 1 always fires |
| Text.Strip | src/content_transformer.py:98 | `str.strip()` removes a white-space prefix and a white-space suffix, leaves non-space ends, and is empty exactly for all-space text |
| Text.Split | src/content_transformer.py:114 | `str.split()` yields only non-empty words without white space |
| Text.SplitJoin | src/content_transformer.py:118 | splitting the space-joined words gives the words back |
| Text.SplitNonBlank | src/content_transformer.py:130-131 | text that is not all space splits into at least one word |
| Text.RFind | web/app.py:77 | the last index of a character, or -1 exactly when it is absent |
| Text.Lower | src/ppt_analyzer.py:57 | `lower()` maps each character through the ASCII case mapping |
| Taco.TackyRun | src/taco_generator.py:88-105 | one run keeps its text; from level 3 its font is a tacky font, from 5 its colour is neon, from 7 a set size becomes 1.3 times bigger (rounded down), from 8 it is bold and italic; below each level that attribute is unchanged |
| Taco.TackyFill | src/taco_generator.py:109-115 | from level 6 the fill is solid neon; below that the shape and the draw position are unchanged; text frame and picture flag are never touched |
| Taco.TackyBackground | src/taco_generator.py:119-129 | the background is solid and each channel is within 50 of (200, 100, 150); exactly three draws are used |
| Taco.TackyContentEffect | src/taco_generator.py:88 | every run of a paragraph gets the run effect; line breaks and fields are untouched, and the count of children is kept |
| Taco.TackyParagraphsEffect | src/taco_generator.py:87-88 | every paragraph of the frame gets the run effect on its runs |
| Taco.TackyShapeEffect | src/taco_generator.py:69-75 | a shape keeps its picture flag and whether it has a text frame; its text gets the run effect; its fill becomes neon only at level 6 and up, only if it has a fill and only if it is not a picture |
| Taco.TackyShapesEffect | src/taco_generator.py:69 | every shape of a slide gets the shape effect, none is added or dropped |
| Taco.TackySlideEffect | src/taco_generator.py:65-79 | layout and transition are kept; shapes get the shape effect; the background is perturbed at level 6 and up and untouched below |
| Taco.TackySlidesEffect | src/taco_generator.py:61-63 | every slide gets the slide effect, none is added or dropped |
| Taco.BackgroundIsValidRgb | src/taco_generator.py:127-129 | the perturbed background colour is a valid RGB colour |
| Taco.NeonColorsValid | src/taco_generator.py:28-37 | every neon colour is a valid RGB colour |
| Taco.TacoGenerator.constructor | src/taco_generator.py:43-54 | the engine holds the deck and the stream, has drawn nothing, and its level is the clamped argument |
| Taco.TacoGenerator.ApplyTackyDesign | src/taco_generator.py:57-63 | the new slides and draw position are those of the specification; every slide gets the slide effect; the level is unchanged |
| Taco.TacoGenerator.MakeSlideTacky | src/taco_generator.py:65-79 | one slide is transformed as the specification says, draws included |
| Taco.TacoGenerator.TackyTextTransform | src/taco_generator.py:81-107 | only the text frame of the shape changes, to the specification's paragraphs |
| Taco.TacoGenerator.TackyContentTransform | src/taco_generator.py:88-105 | the runs of one paragraph are transformed in order as the specification says; line breaks and fields are skipped without a draw |
| Taco.TacoGenerator.TackyRunTransform | src/taco_generator.py:89-105 | one run is transformed as the specification says |
| Taco.TacoGenerator.TackyFillTransform | src/taco_generator.py:109-117 | the fill is transformed as the specification says |
| Taco.TacoGenerator.ApplyTackyBackground | src/taco_generator.py:119-131 | only the background changes, to the specification's fill |
| Taco.TacoGenerator.GetTackyLevel | src/taco_generator.py:133-135 | the current level, always within 1..10 |
| Taco.TacoGenerator.SetTackyLevel | src/taco_generator.py:137-139 | the level becomes the clamped argument |
| ContentRules.InsertAt | src/content_transformer.py:117 | `list.insert(k, w)` puts `w` at index `k` with everything before and after it kept |
| ContentRules.LastThree | src/content_transformer.py:132 | `words[-3:]` is the last at most three words, and is non-empty for non-empty input |
| ContentRules.FillerRule | src/content_transformer.py:106-108 | below intensity 1 nothing is drawn; otherwise the text is unchanged or a verbose filler, a space and the text |
| ContentRules.JargonRule | src/content_transformer.py:110-118 | below intensity 4 nothing is drawn; text of at most two words is never changed |
| ContentRules.JargonInsertedInside | src/content_transformer.py:114-118 | when the jargon rule changes the text, the text had more than two words, and its words are the old words, in order, with the words of `(jargon)` between two of them, so never before the first word nor after the last |
| ContentRules.FactRule | src/content_transformer.py:120-122 | below intensity 5 nothing is drawn; otherwise the text is unchanged or has a tangential fact appended |
| ContentRules.SarcasmRule | src/content_transformer.py:124-126 | below intensity 7 nothing is drawn; otherwise the text is unchanged or has a sarcastic prefix |
| ContentRules.RepetitionRule | src/content_transformer.py:128-133 | below intensity 9 nothing is drawn; otherwise the text is unchanged or has the emphasis sentence about one of its last three words appended |
| ContentRules.LowIntensityOnlyFiller | src/content_transformer.py:104-133 | below intensity 4 the whole rule chain can only prepend a filler |
| Content.ClearRuns | src/content_transformer.py:138-139 | every run's text is emptied and nothing else changes |
| Content.FirstRunIndex | src/content_transformer.py:143 | the index of the first run among a paragraph's children |
| Content.WriteBackShape | src/content_transformer.py:136-145 | writing back keeps line breaks and fields, empties every run but the first, and gives the first run the new text; a paragraph without runs gets one run holding the text |
| Content.WriteBackRunsText | src/content_transformer.py:136-145 | after writing back, the runs' text is exactly the new text |
| Content.WriteBackReadsBack | src/content_transformer.py:136-145 | for a paragraph made only of runs, reading the paragraph text back yields the new text |
| Content.TransformParagraphOutcome | src/content_transformer.py:96-145 | a paragraph is untouched, or its stripped text was not blank and differs from the new text written back into it; below intensity 4 that text is a filler, a space and the stripped original |
| Content.TransformParagraphsOutcome | src/content_transformer.py:96 | every paragraph of a frame has that outcome |
| Content.TransformShapeOutcome | src/content_transformer.py:86-88 | a shape without a text frame is untouched; otherwise only its paragraphs change, as above |
| Content.TransformShapesOutcome | src/content_transformer.py:86 | every shape of a slide has the shape outcome |
| Content.TransformSlidesOutcome | src/content_transformer.py:79-81 | layout, background and transition of every slide are untouched, and every shape has the shape outcome |
| Content.ContentTransformer.constructor | src/content_transformer.py:61-72 | the engine holds the deck and the stream, has drawn nothing, and its intensity is the clamped argument |
| Content.ContentTransformer.Draw | src/content_transformer.py:107 | one draw is the stream's next number |
| Content.ContentTransformer.TransformAllContent | src/content_transformer.py:75-81 | the new slides and draw position are those of the specification, and every slide has the slide outcome |
| Content.ContentTransformer.TransformSlideContent | src/content_transformer.py:83-88 | only the shapes of the slide change, as the specification says |
| Content.ContentTransformer.TransformTextShape | src/content_transformer.py:90-150 | only the text frame changes, to the specification's paragraphs |
| Content.ContentTransformer.TransformParagraphText | src/content_transformer.py:97-145 | one paragraph is transformed as the specification says |
| Content.ContentTransformer.RewriteText | src/content_transformer.py:104-133 | the five rules run in order, filler first |
| Content.ContentTransformer.AddFiller | src/content_transformer.py:107-108 | the filler rule, draws included |
| Content.ContentTransformer.InsertJargon | src/content_transformer.py:111-118 | the jargon rule, draws included |
| Content.ContentTransformer.AddFact | src/content_transformer.py:121-122 | the fact rule, draws included |
| Content.ContentTransformer.AddSarcasm | src/content_transformer.py:125-126 | the sarcasm rule, draws included |
| Content.ContentTransformer.AddRepetition | src/content_transformer.py:129-133 | the repetition rule, draws included |
| Content.ContentTransformer.WriteText | src/content_transformer.py:136-145 | clearing the runs and then writing the first run gives the write-back of the new text |
| Content.ContentTransformer.GetIntensity | src/content_transformer.py:152-154 | the current intensity, always within 1..10 |
| Content.ContentTransformer.SetIntensity | src/content_transformer.py:156-158 | the intensity becomes the clamped argument |
| Seqs.AddNew | src/ppt_analyzer.py:138-139 | append-if-absent adds exactly the new element and keeps the list duplicate-free |
| Seqs.Dedup | src/ppt_analyzer.py:91-92 | repeated append-if-absent keeps each distinct element once, and nothing else |
| Seqs.DedupKeepsFirstSeenOrder | src/ppt_analyzer.py:91-92 | distinct elements appear in the order of their first occurrence |
| Seqs.DedupCountsSum | src/ppt_analyzer.py:131 | summing per-name counts over the distinct names accounts for every occurrence once |
| Seqs.Take | src/ppt_analyzer.py:172 | `xs[:n]` is a prefix of length min(n, len) for n ≥ 0, and drops -n elements from the end otherwise |
| AnalysisSpec.ReplayAppend | src/ppt_analyzer.py:79-80 | analysing a concatenation is analysing the first part and then the second |
| AnalysisSpec.ProjectionsAppend | src/ppt_analyzer.py:79-80 | the font, colour, layout and text projections and the animation count distribute over concatenation |
| AnalysisSpec.FontCounts | src/ppt_analyzer.py:131 | the counted names are exactly the names seen |
| AnalysisSpec.ReplayFromFresh | src/ppt_analyzer.py:18-24 | from a fresh record, the fonts map counts each name, the colours and layouts are the distinct values in first-seen order, the animation count is the number of animated slides, and the texts are all texts seen |
| AnalysisSpec.ReplayKeepsWellFormed | src/ppt_analyzer.py:129-156 | every event keeps the record's invariant: the font keys are exactly the names in insertion order, and the font order, the colours and the layouts hold no duplicates |
| AnalysisSpec.AnimationsAtMostSlides | src/ppt_analyzer.py:101-112 | each slide adds at most one to the animation count |
| AnalysisSpec.AnalysisProperties | src/ppt_analyzer.py:116-158 | the colours and layouts are duplicate-free and in first-seen order; the fonts map has an entry exactly for each name seen, equal to its number of runs; the counts sum to the number of named runs; animations never exceed slides |
| Analyzer.TrimSlashes | src/ppt_analyzer.py:52 | trailing separators are removed, nothing else |
| Analyzer.BaseName | src/ppt_analyzer.py:57 | the last path component holds no separator |
| Analyzer.Suffix | src/ppt_analyzer.py:57 | `Path.suffix` is empty, or a dot-led tail of the name shorter than the name |
| Analyzer.PptxSuffixIff | src/ppt_analyzer.py:57 | a name has the `.pptx` suffix in any case exactly when it ends with `.pptx` in any case and has something before it |
| Analyzer.OpenCheck | src/ppt_analyzer.py:54-63 | a missing file, a wrong suffix and a parse failure are reported in that order; success exactly when none applies, with the parsed deck |
| Analyzer.Items | src/ppt_analyzer.py:171 | `fonts.items()` lists each name with its count, in insertion order |
| Analyzer.InsertByCountOrder | src/ppt_analyzer.py:171 | inserting into a descending list keeps it descending and adds exactly the item |
| Analyzer.InsertByCountTies | src/ppt_analyzer.py:171 | the new item goes after every item with its count |
| Analyzer.InsertByCountDescending | src/ppt_analyzer.py:171 | inserting into a list sorted by descending count keeps it sorted |
| Analyzer.InsertByCountMultiset | src/ppt_analyzer.py:171 | inserting adds exactly the item: the result is a permutation of the list plus the item |
| Analyzer.SortByCountProperties | src/ppt_analyzer.py:171 | `sorted(..., key=count, reverse=True)` is descending, a permutation, and stable: items of equal count keep their relative order |
| Analyzer.DominantFontsProperties | src/ppt_analyzer.py:160-172 | the dominant fonts are a prefix of the stable descending ranking of all fonts, at most `top_n` long |
| Analyzer.ColorPalette | src/ppt_analyzer.py:174-182 | the palette is the first min(10, n) colours |
| Analyzer.DesignAnalysis.constructor | src/ppt_analyzer.py:18-24 | the record starts empty with zero slides, and satisfies the invariant `Valid` |
| Analyzer.DesignAnalysis.ToDict | src/ppt_analyzer.py:26-35 | the summary reports every field, and the texts only by their number |
| Analyzer.DesignAnalysis.RecordRun | src/ppt_analyzer.py:129-141 | a run with a font name counts that name; a run with an RGB colour adds it if new; the record stays valid |
| Analyzer.DesignAnalysis.RecordText | src/ppt_analyzer.py:120-124 | the shape's stripped text is appended when it is not empty, and nothing else changes; the record stays valid |
| Analyzer.DesignAnalysis.RecordLayout | src/ppt_analyzer.py:89-92 | a slide's layout name is added if new; the record stays valid |
| Analyzer.DesignAnalysis.RecordTransition | src/ppt_analyzer.py:101-112 | a transition with an effect, a click advance or a timed advance adds one animation; the record stays valid |
| Analyzer.DesignAnalysis.RecordFill | src/ppt_analyzer.py:146-156 | a solid RGB fill adds its colour if new; the record stays valid |
| Analyzer.PPTAnalyzer.Open | src/ppt_analyzer.py:41-63 | the analyzer is created exactly when the open check succeeds, and the error is that check's |
| Analyzer.PPTAnalyzer.Analyze | src/ppt_analyzer.py:65-83 | a fresh record holding the replay of every slide's events and the number of slides; the record is valid |
| Analyzer.PPTAnalyzer.AnalyzeSlide | src/ppt_analyzer.py:85-114 | layout, then shapes in order, then transition are recorded |
| Analyzer.PPTAnalyzer.AnalyzeShape | src/ppt_analyzer.py:116-158 | stripped non-blank text, then each run's font and colour, then the fill colour are recorded |
| Analyzer.PPTAnalyzer.AnalyzeParagraphs | src/ppt_analyzer.py:127-141 | every run of every paragraph, in order, has its font name counted and its RGB colour added if new |
| Analyzer.PPTAnalyzer.GetDominantFonts | src/ppt_analyzer.py:160-172 | the dominant fonts of a fresh analysis |
| Analyzer.PPTAnalyzer.GetColorPalette | src/ppt_analyzer.py:174-182 | the palette of a fresh analysis |
| WebApp.AllowedFileIff | web/app.py:75-77 | an upload name is accepted exactly when it ends with `.pptx` in any letter case |
| WebApp.OutputFilenameProperties | web/app.py:80-83 | the output name ends with `_TACKY.pptx` and what precedes it is the input without at most its final extension |
| WebApp.OutputFilenameExamples | web/app.py:80-83 | only the last extension is dropped, and a name that is only an extension keeps it |
| WebApp.SavedPathsArePptx | web/app.py:141-182 | the saved upload path and the output path both pass the analyzer's suffix check |
| WebApp.DecimalValue | web/app.py:137 | a decimal digit's value is 0..9, and -1 marks a non-digit |
| WebApp.ShowNat | web/app.py:137 | the decimal form of a number is made of ASCII digits |
| WebApp.ParseShowInt | web/app.py:126-127 | `int(str(n)) == n` for every integer |
| WebApp.DecimalIsLiteral | web/app.py:137 | a string of decimal digits is a valid non-negative `int()` literal |
| WebApp.LevelParam | web/app.py:126-133 | a missing level is 7; an unparsable one is an error; a parsed one outside 1..10 becomes 7, inside it is kept |
| WebApp.SeedParam | web/app.py:136-137 | the corrected seed never fails; it is kept exactly when it is all decimal digits, and then it is its `int()` value |
| WebApp.SeedParamAgrees | web/app.py:136-137 | the corrected seed agrees with the written one on every seed that is decimal or fails `isdigit()` |
| WebApp.SuperscriptSeedRefused | web/app.py:136-139 | the written guard lets a superscript two through, and the request fails |
| WebApp.NormaliseParams | web/app.py:125-139 | an error exactly when a level fails to parse; both levels lie in 1..10; a seed exactly for a decimal seed |
| WebApp.Recent | web/app.py:56-62 | a timestamp is kept exactly when it is younger than the window, and then as many times as it occurs, so the count Admit compares is the number of recent requests |
| WebApp.RecentAppend | web/app.py:56-62 | the filter keeps relative order: filtering a concatenation filters each part |
| WebApp.RecentOfNonDecreasing | web/app.py:56-62 | on timestamps in arrival order under a clock that does not go back, the filter drops only the oldest: the kept list is a suffix |
| WebApp.RecentIdempotent | web/app.py:56-62 | filtering again at the same moment removes nothing more |
| WebApp.RateLimiter.constructor | web/app.py:45-47 | the limiter starts with no timestamps |
| WebApp.RateLimiter.Admit | web/app.py:47-72 | old timestamps are dropped; the request is refused exactly when the client has the maximum in the window, and otherwise `now` is recorded; other clients are untouched; no client exceeds the maximum; a first request is admitted |
| WebApp.ProcessDeck | web/app.py:170-178 | the output is the content pass applied to the design pass, each engine starting at the head of its own stream |
| WebApp.ProcessedDeckShape | web/app.py:170-178 | the processed deck keeps the slides, their layouts and transitions, and the shapes with their picture flags and text frames |

## Left out

- Logging, exceptions that the source catches and logs, the CLI entry points and the `__main__` demos are not modelled.
- python-pptx itself is not modelled. `hasattr(shape, "text_frame")` and `hasattr(shape, "fill")` become the `Option` fields of `Deck.Shape`. A theme colour whose `.rgb` raises is `SchemeColor`, which the analyzer skips.
- The Mersenne Twister behind `random.Random` is not modelled. A seed is a stream of draws, and an unseeded engine is a stream nobody chooses.
- `random() < p` is modelled in thousandths. This is exact for the source's thresholds 0.03·I, 0.04·I, 0.025·I, 0.2 and 0.15, but the draws are not uniformly distributed floats.
- Taco.TackyRun: `Pt(size.pt * 1.3)` is floating point in the source. The model scales the size in EMU by 13/10 and rounds down, so it ignores float rounding.
- Content.WriteBackShape: when a paragraph has no runs, the text setter splits on line feeds and vertical tabs into line breaks. The model writes one run holding the whole text.
- Text.Lower: only the ASCII case mapping is modelled. Python's Unicode case mapping is not.
- Analyzer.BaseName: the model takes the text after the last `/`. `Path` also collapses `.` components and repeated separators, and those are not modelled.
- WebApp.IsDigitChar, WebApp.DecimalValue: only the ASCII, Arabic-Indic, extended Arabic-Indic, Devanagari and full-width digits are decimal. Only the superscript and subscript digits are digits without being decimal. Other Unicode digit blocks are treated as non-digits.
- WebApp.NormaliseParams uses the corrected seed guard (see Findings). The guard as written is WebApp.SeedParamAsWritten.
- WebApp.RateLimiter.Admit: the clock is a parameter in whole microseconds, and the client key is a parameter. Flask's request context and `remote_addr` are not modelled, nor is concurrent access to the shared dictionary.
- `secure_filename`, saving the upload, the file size check, the JSON responses, the download endpoint and the health endpoint are not modelled.
- The analyses before and after processing at web/app.py:160-164 and 187-192 are not modelled as steps of the pipeline. Analysis is `Analyzer.PPTAnalyzer.Analyze`, and the paths it receives are covered by `WebApp.SavedPathsArePptx`.
- Aliasing between the deck object and the engines is not modelled. Each engine receives the deck as a value and hands back the new one.

## Findings

| source | as written | input that shows it | evidently intended | confidence | as-written member | corrected member |
|---|---|---|---|---|---|---|
| web/app.py:136-139 | the seed is converted with `int()` when `str.isdigit()` holds; `isdigit()` also accepts superscript and subscript digits, which `int()` rejects with `ValueError`, so the request fails with a 400 parameter error | `seed=²` (U+00B2) | a seed that is not a number is ignored and the request runs unseeded | medium; not executed | WebApp.SeedParamAsWritten (exhibited by WebApp.SuperscriptSeedRefused) | WebApp.SeedParam (never fails; proved in its contract and used by WebApp.NormaliseParams) |
