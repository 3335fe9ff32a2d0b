/**
 * The five text rewrites of `ContentTransformer._transform_text_shape`, in the
 * order the code applies them, each gated by the clamped intensity and by a
 * Bernoulli draw. Each rule takes the text so far and the position of the next
 * unused draw, and returns the new text and the next position. A rule whose
 * intensity gate is closed consumes no draw, because Python's `and` short-circuits.
 */
module ContentRules {
  import opened Text
  import opened Rand

  const VerboseFillers: seq<string> := [
    "In today's dynamic and rapidly evolving landscape,",
    "It is imperative to note that,",
    "As we navigate the complexities of modern business,",
    "Synergistically speaking,",
    "With all due respect to the aforementioned points,",
    "In the spirit of full transparency,",
    "One could argue that,",
    "From a holistic perspective,"
  ]

  const OutdatedJargon: seq<string> := [
    "paradigm shift", "leverage synergies", "circle back", "deep dive", "move the needle",
    "boil the ocean", "touch base", "take it offline", "think outside the box", "win-win situation"
  ]

  const TangentialFacts: seq<string> := [
    " (Did you know? Bananas are berries, but strawberries are not!)",
    " (Fun fact: A group of flamingos is called a 'flamboyance'!)",
    " (Interesting: The shortest war in history lasted 38 minutes!)",
    " (Trivia: Honey never spoils and can last forever!)",
    " (Fun fact: Octopuses have three hearts!)",
    " (Random fact: The Great Wall of China is NOT visible from space!)"
  ]

  const SarcasmPrefixes: seq<string> := [
    "Let me tell you, ", "Buckle up, because ", "Oh, how exciting - ", "Shockingly, ",
    "You won't believe this, but "
  ]

  /** Intensity thresholds of the rules (the filler rule's is 1). */
  const FillerIntensity: int := 1
  const JargonIntensity: int := 4
  const FactIntensity: int := 5
  const SarcasmIntensity: int := 7
  const RepetitionIntensity: int := 9

  /** Firing probabilities in thousandths: 0.3, 0.4 and 0.25 times intensity/10, then 0.2 and 0.15. */
  function FillerChance(intensity: int): int { 30 * intensity }
  function JargonChance(intensity: int): int { 40 * intensity }
  function FactChance(intensity: int): int { 25 * intensity }
  const SarcasmChance: int := 200
  const RepetitionChance: int := 150

  /** `list.insert(k, w)`. */
  function InsertAt(ws: seq<string>, k: nat, w: string): (r: seq<string>)
    requires k <= |ws|
    ensures |r| == |ws| + 1 && r[k] == w
    ensures r[..k] == ws[..k] && r[k + 1..] == ws[k..]
  {
    ws[..k] + [w] + ws[k..]
  }

  /** The parenthesised jargon token. */
  function JargonToken(jargon: string): string
  {
    "(" + jargon + ")"
  }

  /** `words[-3:]`. */
  function LastThree(ws: seq<string>): (r: seq<string>)
    ensures |ws| > 0 ==> |r| > 0
    ensures |r| <= 3 && |r| <= |ws| && r == ws[|ws| - |r|..]
  {
    if |ws| > 3 then ws[|ws| - 3..] else ws
  }

  function EmphasisSentence(key: string): string
  {
    " Did we mention " + key + "? Yes, " + key + " is very important."
  }

  /** Rule 1: a filler phrase and a space in front of the text. */
  function FillerRule(text: string, intensity: int, rand: Stream, pos: nat): (res: (string, nat))
    ensures intensity < FillerIntensity ==> res == (text, pos)
    ensures res.0 == text || exists f :: f in VerboseFillers && res.0 == f + " " + text
  {
    if intensity >= FillerIntensity then
      if Below(rand(pos), FillerChance(intensity)) then
        (Choice(VerboseFillers, rand(pos + 1)) + " " + text, pos + 2)
      else (text, pos + 1)
    else (text, pos)
  }

  /**
   * Rule 2: split the text into words, insert `(jargon)` at a word index drawn from
   * [1, len - 1], and join with single spaces. With two words or fewer the jargon
   * is drawn but nothing is inserted.
   */
  function JargonRule(text: string, intensity: int, rand: Stream, pos: nat): (res: (string, nat))
    ensures intensity < JargonIntensity ==> res == (text, pos)
    ensures |Split(text)| <= 2 ==> res.0 == text
  {
    if intensity >= JargonIntensity then
      if Below(rand(pos), JargonChance(intensity)) then
        var jargon := Choice(OutdatedJargon, rand(pos + 1));
        var words := Split(text);
        if |words| > 2 then (JargonInserted(words, jargon, rand(pos + 2)), pos + 3)
        else (text, pos + 2)
      else (text, pos + 1)
    else (text, pos)
  }

  /** The words joined with `(jargon)` inserted at the index `randint(1, len - 1)` draws. */
  function JargonInserted(words: seq<string>, jargon: string, d: nat): string
    requires |words| > 2
  {
    Join(InsertAt(words, RandInt(1, |words| - 1, d), JargonToken(jargon)))
  }

  /** Rule 3: a tangential fact after the text. */
  function FactRule(text: string, intensity: int, rand: Stream, pos: nat): (res: (string, nat))
    ensures intensity < FactIntensity ==> res == (text, pos)
    ensures res.0 == text || exists f :: f in TangentialFacts && res.0 == text + f
  {
    if intensity >= FactIntensity then
      if Below(rand(pos), FactChance(intensity)) then (text + Choice(TangentialFacts, rand(pos + 1)), pos + 2)
      else (text, pos + 1)
    else (text, pos)
  }

  /** Rule 4: a sarcastic prefix (which carries its own trailing space). */
  function SarcasmRule(text: string, intensity: int, rand: Stream, pos: nat): (res: (string, nat))
    ensures intensity < SarcasmIntensity ==> res == (text, pos)
    ensures res.0 == text || exists s :: s in SarcasmPrefixes && res.0 == s + text
  {
    if intensity >= SarcasmIntensity then
      if Below(rand(pos), SarcasmChance) then (Choice(SarcasmPrefixes, rand(pos + 1)) + text, pos + 2)
      else (text, pos + 1)
    else (text, pos)
  }

  /** Rule 5: repeat one of the last three words in an emphasis sentence. */
  function RepetitionRule(text: string, intensity: int, rand: Stream, pos: nat): (res: (string, nat))
    ensures intensity < RepetitionIntensity ==> res == (text, pos)
    ensures res.0 == text || exists key :: key in LastThree(Split(text)) && res.0 == text + EmphasisSentence(key)
  {
    if intensity >= RepetitionIntensity then
      if Below(rand(pos), RepetitionChance) then
        var words := Split(text);
        if |words| > 0 then (text + EmphasisSentence(Choice(LastThree(words), rand(pos + 1))), pos + 2)
        else (text, pos + 1)
      else (text, pos + 1)
    else (text, pos)
  }

  /** The five rules in the code's order, each applied to the previous one's output. */
  function RuleChain(text: string, intensity: int, rand: Stream, pos: nat): (string, nat)
  {
    var (t1, p1) := FillerRule(text, intensity, rand, pos);
    var (t2, p2) := JargonRule(t1, intensity, rand, p1);
    var (t3, p3) := FactRule(t2, intensity, rand, p2);
    var (t4, p4) := SarcasmRule(t3, intensity, rand, p3);
    RepetitionRule(t4, intensity, rand, p4)
  }

  /**
   * Jargon goes strictly inside: the text's words come back in order, with the
   * words of the jargon token between the k-th and the (k+1)-th, 1 <= k < len.
   */
  lemma JargonInsertedInside(text: string, intensity: int, rand: Stream, pos: nat)
    requires JargonRule(text, intensity, rand, pos).0 != text
    ensures |Split(text)| > 2 && InsertedInside(Split(text), JargonRule(text, intensity, rand, pos).0)
  {
    JargonRuleFired(text, intensity, rand, pos);
    JoinedInsertionInside(Split(text), rand(pos + 1), rand(pos + 2));
  }

  /** The words of `ws` in order, with the words of one jargon token between the k-th and the (k+1)-th. */
  ghost predicate InsertedInside(ws: seq<string>, r: string)
  {
    exists k, j :: InsertedAt(ws, r, k, j)
  }

  /** The words of `r` are those of `ws` with the words of `(j)` between the k-th and the (k+1)-th. */
  ghost predicate InsertedAt(ws: seq<string>, r: string, k: int, j: string)
  {
    1 <= k < |ws| && j in OutdatedJargon && Split(r) == ws[..k] + Split(JargonToken(j)) + ws[k..]
  }

  /** The rule's insertion, on any words and any two draws. */
  lemma JoinedInsertionInside(ws: seq<string>, d1: nat, d2: nat)
    requires |ws| > 2
    requires forall i :: 0 <= i < |ws| ==> IsWord(ws[i])
    ensures InsertedInside(ws, JargonInserted(ws, Choice(OutdatedJargon, d1), d2))
  {
    var k, j := RandInt(1, |ws| - 1, d2), Choice(OutdatedJargon, d1);
    SplitInsertAt(ws, k, JargonToken(j));
    assert InsertedAt(ws, Join(InsertAt(ws, k, JargonToken(j))), k, j);
  }

  /** When the jargon rule changes the text, it is the join of the words with the token inserted. */
  lemma JargonRuleFired(text: string, intensity: int, rand: Stream, pos: nat)
    requires JargonRule(text, intensity, rand, pos).0 != text
    ensures |Split(text)| > 2
    ensures JargonRule(text, intensity, rand, pos).0 ==
      JargonInserted(Split(text), Choice(OutdatedJargon, rand(pos + 1)), rand(pos + 2))
  {
  }

  /** Splitting the joined words with a token inserted strictly inside. */
  lemma SplitInsertAt(ws: seq<string>, k: nat, tok: string)
    requires 1 <= k < |ws|
    requires forall i :: 0 <= i < |ws| ==> IsWord(ws[i])
    ensures Split(Join(InsertAt(ws, k, tok))) == ws[..k] + Split(tok) + ws[k..]
  {
    var a, b := ws[..k], ws[k..];
    assert forall i :: 0 <= i < |a| ==> a[i] == ws[i];
    assert forall i :: 0 <= i < |b| ==> b[i] == ws[k + i];
    JoinSplitAround(a, tok, b);
  }

  /** Joining words around a token and splitting again yields the words and the token's own words. */
  lemma JoinSplitAround(a: seq<string>, tok: string, b: seq<string>)
    requires |a| > 0 && |b| > 0
    requires forall i :: 0 <= i < |a| ==> IsWord(a[i])
    requires forall i :: 0 <= i < |b| ==> IsWord(b[i])
    ensures Split(Join(a + [tok] + b)) == a + Split(tok) + b
  {
    JoinAround(a, tok, b);
    SplitAround(Join(a), tok, Join(b));
    SplitJoin(a);
    SplitJoin(b);
  }

  lemma JoinAround(a: seq<string>, tok: string, b: seq<string>)
    requires |a| > 0 && |b| > 0
    ensures Join(a + [tok] + b) == Join(a) + " " + (tok + " " + Join(b))
  {
    assert a + [tok] + b == a + ([tok] + b);
    JoinAppend(a, [tok] + b);
    JoinAppend([tok], b);
  }

  lemma SplitAround(x: string, tok: string, y: string)
    ensures Split(x + " " + (tok + " " + y)) == Split(x) + Split(tok) + Split(y)
  {
    SplitAroundSpace(x, tok + " " + y);
    SplitAroundSpace(tok, y);
  }

  /** At intensity 3 or less only the filler rule can fire. */
  lemma {:induction false} LowIntensityOnlyFiller(text: string, intensity: int, rand: Stream, pos: nat)
    requires intensity < JargonIntensity
    ensures var t := RuleChain(text, intensity, rand, pos).0;
      t == text || exists f :: f in VerboseFillers && t == f + " " + text
  {
  }
}
