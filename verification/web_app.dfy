/**
 * The request-level logic of the web front end: the upload name check, the name
 * of the returned file, the parsing of the level and seed query parameters, the
 * per-client sliding-window rate limiter, and the order in which the two engines
 * run on an uploaded deck.
 */
module WebApp {
  import opened Wrappers
  import opened Text
  import opened Levels
  import opened Rand
  import opened Deck
  import Taco
  import Content
  import Analyzer

  /** `ALLOWED_EXTENSIONS`. */
  const AllowedExtensions: set<string> := {"pptx"}

  /** `allowed_file`: a dot, and the text after the last dot is an allowed extension in any case. */
  predicate AllowedFile(filename: string)
  {
    '.' in filename && Lower(filename[RFind(filename, '.') + 1..]) in AllowedExtensions
  }

  /** An upload name is accepted exactly when it ends in `.pptx`, in any letter case. */
  lemma AllowedFileIff(filename: string)
    ensures AllowedFile(filename) <==> |filename| >= 5 && Lower(filename[|filename| - 5..]) == ".pptx"
  {
    var n := |filename|;
    if AllowedFile(filename) {
      var i := RFind(filename, '.');
      var ext := filename[i + 1..];
      assert |Lower(ext)| == 4;
      assert filename[n - 5..] == [filename[i]] + ext;
      assert Lower(filename[n - 5..]) == [LowerChar('.')] + Lower(ext);
    }
    if n >= 5 && Lower(filename[n - 5..]) == ".pptx" {
      var tail := filename[n - 5..];
      assert LowerChar(tail[0]) == '.';
      assert filename[n - 5] == '.';
      forall k | n - 5 < k < n ensures filename[k] != '.' {
        assert LowerChar(tail[k - (n - 5)]) == ".pptx"[k - (n - 5)];
      }
      var i := RFind(filename, '.');
      assert i == n - 5;
      assert Lower(filename[i + 1..]) == Lower(tail)[1..];
    }
  }

  /** The suffix appended to every output name. */
  const TackySuffix: string := "_TACKY.pptx"

  /**
   * The root `os.path.splitext` returns on POSIX: the extension starts at the last
   * dot of the last path component, unless only dots precede it in that component.
   */
  function SplitExtRoot(p: string): string
  {
    var sep := RFind(p, '/');
    var dot := RFind(p, '.');
    if dot > sep && exists k :: sep + 1 <= k < dot && p[k] != '.' then p[..dot] else p
  }

  /** `generate_output_filename`. */
  function GenerateOutputFilename(original: string): string
  {
    SplitExtRoot(original) + TackySuffix
  }

  /**
   * The output name ends in `_TACKY.pptx`, and what precedes it is the input with
   * at most its final extension removed: nothing, or a dot followed by no dot and
   * no separator.
   */
  lemma OutputFilenameProperties(original: string)
    ensures var r := GenerateOutputFilename(original);
      var root := r[..|r| - |TackySuffix|];
      && EndsWith(r, TackySuffix)
      && |root| <= |original| && original[..|root|] == root
      && var ext := original[|root|..];
         ext == [] || (ext[0] == '.' && '.' !in ext[1..] && '/' !in ext)
  {
    var r := GenerateOutputFilename(original);
    var root := SplitExtRoot(original);
    assert r[..|r| - |TackySuffix|] == root;
    var sep := RFind(original, '/');
    var dot := RFind(original, '.');
    if root != original {
      var ext := original[dot..];
      assert original[|root|..] == ext;
      assert ext[1..] == original[dot + 1..];
    } else {
      assert original[|root|..] == [];
    }
  }

  /** Only the last extension goes; a name that is all extension keeps it. */
  lemma OutputFilenameExamples()
    ensures GenerateOutputFilename("a.b.pptx") == "a.b" + TackySuffix
    ensures GenerateOutputFilename(".pptx") == ".pptx" + TackySuffix
  {
    InnerDotsKept();
    DotfileKept();
  }

  lemma InnerDotsKept()
    ensures SplitExtRoot("a.b.pptx") == "a.b"
  {
    var p := "a.b.pptx";
    assert RFind(p, '/') == -1 by { assert '/' !in p; }
    assert RFind(p, '.') == 3 by { assert p[3] == '.' && '.' !in p[4..]; }
    assert p[0] != '.';
  }

  lemma DotfileKept()
    ensures SplitExtRoot(".pptx") == ".pptx"
  {
    var q := ".pptx";
    assert RFind(q, '/') == -1 by { assert '/' !in q; }
    assert RFind(q, '.') == 0 by { assert q[0] == '.' && '.' !in q[1..]; }
  }

  /** `os.path.join(folder, name)` for two components. */
  function PathJoin(folder: string, name: string): string
  {
    if name != [] && name[0] == '/' then name
    else if folder == [] || folder[|folder| - 1] == '/' then folder + name
    else folder + "/" + name
  }

  /** A path ending in a component of the form `X.pptx`, X not empty, passes the analyzer's suffix check. */
  lemma NamedPptxPath(path: string)
    requires |path| >= 6 && path[|path| - 5..] == ".pptx" && path[|path| - 6] != '/'
    ensures Analyzer.IsPptxPath(path)
  {
    BaseNameTail(path);
    var name := Analyzer.BaseName(path);
    var tail := name[|name| - 5..];
    assert Lower(tail) == ".pptx" by {
      LowerOfLower(tail);
    }
    Analyzer.PptxSuffixIff(name);
  }

  /** Such a path's last component keeps its last six characters. */
  lemma BaseNameTail(path: string)
    requires |path| >= 6 && path[|path| - 5..] == ".pptx" && path[|path| - 6] != '/'
    ensures var name := Analyzer.BaseName(path); |name| >= 6 && name[|name| - 5..] == ".pptx"
  {
    var n := |path|;
    assert path[n - 1] == path[n - 5..][4];
    assert Analyzer.TrimSlashes(path) == path;
    forall k | n - 5 <= k < n
      ensures path[k] != '/'
    {
      assert path[k] == path[n - 5..][k - (n - 5)];
    }
    var i := RFind(path, '/');
    assert i < n - 6;
    var name := path[i + 1..];
    assert Analyzer.BaseName(path) == name;
    assert name[|name| - 5..] == path[n - 5..];
  }

  /** Text with no capital letter is its own lower case. */
  lemma LowerOfLower(s: string)
    requires forall i :: 0 <= i < |s| ==> !('A' <= s[i] <= 'Z')
    ensures Lower(s) == s
  {
  }

  /** The last `|t|` characters of `PathJoin(folder, t)` are `t`. */
  lemma PathJoinEnds(folder: string, t: string)
    ensures var p := PathJoin(folder, t); |t| <= |p| && p[|p| - |t|..] == t
  {
  }

  /**
   * The analyzer accepts the suffix of both files the handler writes: the saved
   * upload `input_<hex>.pptx` and the output named by `generate_output_filename`.
   */
  lemma SavedPathsArePptx(folder: string, hex: string, upload: string)
    requires '/' !in hex
    ensures Analyzer.IsPptxPath(PathJoin(folder, "input_" + hex + ".pptx"))
    ensures Analyzer.IsPptxPath(PathJoin(folder, GenerateOutputFilename(upload)))
  {
    var input := "input_" + hex + ".pptx";
    var p := PathJoin(folder, input);
    PathJoinEnds(folder, input);
    var m := |p| - |input|;
    assert p[|p| - 5..] == input[|input| - 5..] by {
      assert p[m..][|input| - 5..] == p[|p| - 5..];
    }
    assert input[|input| - 5..] == ".pptx";
    assert p[|p| - 6] == p[m..][|input| - 6];
    assert input[|input| - 6] != '/' by {
      if hex != [] {
        assert input[|input| - 6] == hex[|hex| - 1];
      } else {
        assert input[|input| - 6] == '_';
      }
    }
    NamedPptxPath(p);
    OutputPathIsPptx(folder, upload);
  }

  lemma OutputPathIsPptx(folder: string, upload: string)
    ensures Analyzer.IsPptxPath(PathJoin(folder, GenerateOutputFilename(upload)))
  {
    TackyPathIsPptx(folder, SplitExtRoot(upload));
  }

  lemma TackyPathIsPptx(folder: string, root: string)
    ensures Analyzer.IsPptxPath(PathJoin(folder, root + TackySuffix))
  {
    var output := root + TackySuffix;
    var q := PathJoin(folder, output);
    PathJoinEnds(folder, output);
    var m := |q| - |output|;
    assert q[|q| - 5..] == ".pptx" by {
      assert q[m..][|output| - 5..] == q[|q| - 5..];
      assert output[|output| - 5..] == TackySuffix[6..];
    }
    assert q[|q| - 6] == 'Y' by {
      assert q[|q| - 6] == q[m..][|output| - 6] == TackySuffix[5];
    }
    NamedPptxPath(q);
  }

  /**
   * Decimal digits (`str.isdecimal`, Unicode category Nd) in the blocks the model
   * covers: ASCII, Arabic-Indic, extended Arabic-Indic, Devanagari and full-width.
   * The value of a digit is its distance from its block's zero.
   */
  function DecimalValue(c: char): (v: int)
    ensures -1 <= v <= 9
  {
    var n := c as int;
    if 0x30 <= n <= 0x39 then n - 0x30
    else if 0x660 <= n <= 0x669 then n - 0x660
    else if 0x6F0 <= n <= 0x6F9 then n - 0x6F0
    else if 0x966 <= n <= 0x96F then n - 0x966
    else if 0xFF10 <= n <= 0xFF19 then n - 0xFF10
    else -1
  }

  predicate IsDecimalChar(c: char)
  {
    DecimalValue(c) >= 0
  }

  /**
   * `str.isdigit` for one character: the decimal digits, plus the superscript and
   * subscript digits, which are digits but not decimal.
   */
  predicate IsDigitChar(c: char)
  {
    var n := c as int;
    IsDecimalChar(c) || n == 0xB2 || n == 0xB3 || n == 0xB9 || n == 0x2070 || 0x2074 <= n <= 0x2079
    || 0x2080 <= n <= 0x2089
  }

  /** `s.isdigit()`: not empty and every character a digit. */
  predicate IsDigitString(s: string)
  {
    |s| > 0 && forall i :: 0 <= i < |s| ==> IsDigitChar(s[i])
  }

  /** Not empty and every character a decimal digit. */
  predicate IsDecimalString(s: string)
  {
    |s| > 0 && forall i :: 0 <= i < |s| ==> IsDecimalChar(s[i])
  }

  /** The digits `int()` accepts: decimal digits with single underscores between them. */
  predicate IsDigitLiteral(d: string)
  {
    && |d| > 0 && IsDecimalChar(d[0]) && IsDecimalChar(d[|d| - 1])
    && (forall i :: 0 <= i < |d| ==> IsDecimalChar(d[i]) || d[i] == '_')
    && (forall i :: 0 <= i < |d| - 1 ==> d[i] == '_' ==> d[i + 1] != '_')
  }

  /** The value of a digit literal, underscores ignored. */
  function DigitsValue(d: string): (v: nat)
  {
    if d == [] then 0
    else
      var v := DigitsValue(d[..|d| - 1]);
      var c := d[|d| - 1];
      if IsDecimalChar(c) then v * 10 + DecimalValue(c) else v
  }

  /** `int(s)` for a string: white space stripped, then an optional sign and a digit literal. */
  function ParseInt(s: string): Option<int>
  {
    ParseSigned(Strip(s))
  }

  function ParseSigned(t: string): Option<int>
  {
    if |t| > 0 && (t[0] == '+' || t[0] == '-') then
      if IsDigitLiteral(t[1..]) then
        Some(if t[0] == '-' then -(DigitsValue(t[1..]) as int) else DigitsValue(t[1..]))
      else None
    else if IsDigitLiteral(t) then Some(DigitsValue(t))
    else None
  }

  /** `str(n)`. */
  function ShowNat(n: nat): (s: string)
    ensures IsDecimalString(s)
    ensures forall i :: 0 <= i < |s| ==> '0' <= s[i] <= '9'
  {
    if n < 10 then [(n + 0x30) as char] else ShowNat(n / 10) + [(n % 10 + 0x30) as char]
  }

  function ShowInt(n: int): string
  {
    if n < 0 then "-" + ShowNat(-n) else ShowNat(n)
  }

  lemma {:induction false} ShowNatValue(n: nat)
    ensures DigitsValue(ShowNat(n)) == n
  {
    if n >= 10 {
      var s := ShowNat(n);
      ShowNatValue(n / 10);
      assert s[..|s| - 1] == ShowNat(n / 10);
    }
  }

  lemma ShowNatLiteral(n: nat)
    ensures IsDigitLiteral(ShowNat(n)) && DigitsValue(ShowNat(n)) == n
    ensures !IsSpace(ShowNat(n)[0]) && !IsSpace(ShowNat(n)[|ShowNat(n)| - 1])
    ensures ShowNat(n)[0] != '+' && ShowNat(n)[0] != '-'
  {
    ShowNatValue(n);
  }

  /** `int(str(n)) == n`: the parser reads back every integer's decimal form. */
  lemma ParseShowInt(n: int)
    ensures ParseInt(ShowInt(n)) == Some(n)
  {
    var s := ShowInt(n);
    var d := ShowNat(if n < 0 then -n else n);
    ShowNatLiteral(if n < 0 then -n else n);
    if n < 0 {
      assert s == "-" + d && s[1..] == d;
    }
    assert Strip(s) == s by {
      StripTrimmed(s);
    }
    assert ParseSigned(s) == Some(n);
  }

  /** A string of decimal digits is an `int()` literal. */
  lemma DecimalIsLiteral(s: string)
    requires IsDecimalString(s)
    ensures ParseInt(s).Some? && ParseInt(s).value >= 0
  {
    StripTrimmed(s);
  }

  datatype ParamError = InvalidParameters

  const DefaultLevel: int := 7

  /**
   * `int(request.args.get(name, 7))`, then 7 for a value outside 1..10; a value
   * `int()` rejects is an error (HTTP 400).
   */
  function LevelParam(arg: Option<string>): (r: Result<int, ParamError>)
    ensures r.Success? ==> MinLevel <= r.value <= MaxLevel
    ensures arg.None? ==> r == Success(DefaultLevel)
    ensures arg.Some? ==> (r.Failure? <==> ParseInt(arg.value).None?)
    ensures arg.Some? && r.Success? ==>
      r.value == if MinLevel <= ParseInt(arg.value).value <= MaxLevel then ParseInt(arg.value).value else DefaultLevel
  {
    if arg.None? then Success(DefaultLevel)
    else
      match ParseInt(arg.value)
      case None => Failure(InvalidParameters)
      case Some(n) => Success(if MinLevel <= n <= MaxLevel then n else DefaultLevel)
  }

  /**
   * The seed as written: kept when `isdigit()` holds, then `int()`. A digit that is
   * not decimal passes the guard but not `int()`, which makes the request fail.
   */
  function SeedParamAsWritten(arg: Option<string>): Result<Option<nat>, ParamError>
  {
    if arg.Some? && IsDigitString(arg.value) then
      match ParseInt(arg.value)
      case None => Failure(InvalidParameters)
      case Some(n) => Success(Some(if n >= 0 then n else 0))
    else Success(None)
  }

  /** A superscript two passes `isdigit()`, and the whole request is refused. */
  lemma SuperscriptSeedRefused()
    ensures SeedParamAsWritten(Some([0xB2 as char])) == Failure(InvalidParameters)
  {
    var s := [0xB2 as char];
    assert IsDigitString(s);
    assert Strip(s) == s by {
      StripTrimmed(s);
    }
    assert !IsDigitLiteral(s);
  }

  /** The seed with the guard `int()` needs: decimal digits only; anything else is no seed. */
  function SeedParam(arg: Option<string>): (r: Result<Option<nat>, ParamError>)
    ensures r.Success?
    ensures r.value.Some? <==> arg.Some? && IsDecimalString(arg.value)
    ensures r.value.Some? ==> ParseInt(arg.value) == Some(r.value.value as int)
  {
    if arg.Some? && IsDecimalString(arg.value) then
      DecimalIsLiteral(arg.value);
      Success(Some(ParseInt(arg.value).value as nat))
    else Success(None)
  }

  /** The two agree on every seed made of decimal digits or failing `isdigit()`. */
  lemma SeedParamAgrees(arg: Option<string>)
    requires arg.Some? ==> IsDecimalString(arg.value) || !IsDigitString(arg.value)
    ensures SeedParamAsWritten(arg) == SeedParam(arg)
  {
    if arg.Some? && IsDecimalString(arg.value) {
      DecimalIsLiteral(arg.value);
    }
  }

  datatype Params = Params(designLevel: int, contentLevel: int, seed: Option<nat>)

  /** Lines 125-138 of the upload handler: design level, content level, then the seed. */
  function NormaliseParams(design: Option<string>, content: Option<string>, seed: Option<string>)
    : (r: Result<Params, ParamError>)
    ensures r.Success? <==> LevelParam(design).Success? && LevelParam(content).Success?
    ensures r.Success? ==> MinLevel <= r.value.designLevel <= MaxLevel && MinLevel <= r.value.contentLevel <= MaxLevel
    ensures r.Success? ==> (r.value.seed.Some? <==> seed.Some? && IsDecimalString(seed.value))
  {
    match LevelParam(design)
    case Failure(e) => Failure(e)
    case Success(d) =>
      match LevelParam(content)
      case Failure(e) => Failure(e)
      case Success(c) => Success(Params(d, c, SeedParam(seed).value))
  }

  /** Integer timestamps count microseconds, the resolution of `datetime`. */
  const Microsecond: int := 1000000

  /** `[ts for ts in timestamps if now - ts < timedelta(seconds=window)]`. */
  function Recent(timestamps: seq<int>, now: int, windowSeconds: int): (r: seq<int>)
    ensures |r| <= |timestamps|
    ensures forall t :: t in r <==> t in timestamps && now - t < windowSeconds * Microsecond
    ensures forall t ::
      multiset(r)[t] == (if now - t < windowSeconds * Microsecond then multiset(timestamps)[t] else 0)
  {
    if timestamps == [] then []
    else
      var front, t := timestamps[..|timestamps| - 1], timestamps[|timestamps| - 1];
      assert timestamps == front + [t];
      Recent(front, now, windowSeconds) +
      (if now - t < windowSeconds * Microsecond then [t] else [])
  }

  /** The filter keeps relative order: filtering a concatenation filters each part. */
  lemma {:induction false} RecentAppend(xs: seq<int>, ys: seq<int>, now: int, windowSeconds: int)
    ensures Recent(xs + ys, now, windowSeconds) == Recent(xs, now, windowSeconds) + Recent(ys, now, windowSeconds)
  {
    if ys == [] {
      assert xs + ys == xs;
    } else {
      var zs, ys' := xs + ys, ys[..|ys| - 1];
      assert zs[..|zs| - 1] == xs + ys';
      assert zs[|zs| - 1] == ys[|ys| - 1];
      RecentAppend(xs, ys', now, windowSeconds);
    }
  }

  lemma {:induction false} RecentAllExpired(timestamps: seq<int>, now: int, windowSeconds: int)
    requires forall k :: 0 <= k < |timestamps| ==> now - timestamps[k] >= windowSeconds * Microsecond
    ensures Recent(timestamps, now, windowSeconds) == []
  {
    if timestamps != [] {
      RecentAllExpired(timestamps[..|timestamps| - 1], now, windowSeconds);
    }
  }

  ghost predicate NonDecreasing(ts: seq<int>)
  {
    forall i, j :: 0 <= i < j < |ts| ==> ts[i] <= ts[j]
  }

  /**
   * With timestamps in the order their requests arrived under a clock that does not
   * go back, the filter drops the oldest ones: what is kept is a suffix of the list.
   */
  lemma {:induction false} RecentOfNonDecreasing(timestamps: seq<int>, now: int, windowSeconds: int)
    requires NonDecreasing(timestamps)
    ensures var r := Recent(timestamps, now, windowSeconds);
      r == timestamps[|timestamps| - |r|..]
  {
    if timestamps != [] {
      var front, t := timestamps[..|timestamps| - 1], timestamps[|timestamps| - 1];
      assert timestamps == front + [t];
      assert NonDecreasing(front);
      RecentOfNonDecreasing(front, now, windowSeconds);
      var r := Recent(front, now, windowSeconds);
      if now - t < windowSeconds * Microsecond {
        assert r + [t] == timestamps[|timestamps| - |r| - 1..];
      } else {
        // every earlier timestamp is no younger than t, so none is kept
        forall k | 0 <= k < |front| ensures now - front[k] >= windowSeconds * Microsecond {
          assert timestamps[k] <= timestamps[|timestamps| - 1];
        }
        RecentAllExpired(front, now, windowSeconds);
      }
    }
  }

  /** Filtering twice at the same moment filters nothing more. */
  lemma {:induction false} RecentIdempotent(timestamps: seq<int>, now: int, windowSeconds: int)
    ensures Recent(Recent(timestamps, now, windowSeconds), now, windowSeconds) == Recent(timestamps, now, windowSeconds)
  {
    if timestamps != [] {
      var front, t := timestamps[..|timestamps| - 1], timestamps[|timestamps| - 1];
      var r := Recent(front, now, windowSeconds);
      RecentIdempotent(front, now, windowSeconds);
      if now - t < windowSeconds * Microsecond {
        assert (r + [t])[..|r|] == r;
      } else {
        assert r + [] == r;
      }
    }
  }

  /** The defaults of `rate_limit`, and the limits the upload handler is decorated with. */
  const DefaultMaxRequests: int := 20
  const DefaultWindowSeconds: int := 3600
  const ProcessMaxRequests: int := 10
  const ProcessWindowSeconds: int := 3600

  /** The decorator's state: `request_timestamps`, one list of admission times per client. */
  class RateLimiter {
    const maxRequests: int
    const windowSeconds: int
    var requestTimestamps: map<string, seq<int>>

    /** No client ever holds more than `max_requests` timestamps. */
    ghost predicate Valid()
      reads this
    {
      forall c :: c in requestTimestamps ==> |requestTimestamps[c]| <= if maxRequests < 0 then 0 else maxRequests
    }

    constructor (maxRequests: int, windowSeconds: int)
      ensures Valid()
      ensures this.maxRequests == maxRequests && this.windowSeconds == windowSeconds
      ensures requestTimestamps == map[]
    {
      this.maxRequests := maxRequests;
      this.windowSeconds := windowSeconds;
      requestTimestamps := map[];
    }

    /**
     * One decorated request from `client` at time `now`: forget the client's
     * timestamps that left the window, refuse when `max_requests` remain, and
     * otherwise record `now` and admit.
     */
    method Admit(client: string, now: int) returns (admitted: bool)
      requires Valid()
      modifies this
      ensures Valid()
      ensures var kept := if client in old(requestTimestamps) then Recent(old(requestTimestamps)[client], now, windowSeconds) else [];
        && admitted == (|kept| < maxRequests)
        && requestTimestamps == old(requestTimestamps)[client := if admitted then kept + [now] else kept]
      ensures client !in old(requestTimestamps) && maxRequests >= 1 ==> admitted
    {
      var kept: seq<int> := [];
      if client in requestTimestamps {
        var ts := requestTimestamps[client];
        var i := 0;
        while i < |ts|
          invariant 0 <= i <= |ts|
          invariant kept == Recent(ts[..i], now, windowSeconds)
        {
          assert ts[..i + 1][..i] == ts[..i];
          if now - ts[i] < windowSeconds * Microsecond {
            kept := kept + [ts[i]];
          }
          i := i + 1;
        }
        assert ts[..i] == ts;
      }
      requestTimestamps := requestTimestamps[client := kept];
      if |kept| >= maxRequests {
        return false;
      }
      requestTimestamps := requestTimestamps[client := kept + [now]];
      admitted := true;
    }
  }

  /**
   * Steps 2 to 4 of the upload handler: the design pass, then the content pass on
   * the same deck. With a seed both engines draw from the same stream
   * (`designRand == contentRand`); without one each has its own.
   */
  method ProcessDeck(deck: Presentation, designLevel: int, contentLevel: int, designRand: Stream, contentRand: Stream)
    returns (out: Presentation)
    ensures out.slides ==
      Content.TransformSlides(Taco.TackySlides(deck.slides, ClampLevel(designLevel), designRand, 0).0,
                              ClampLevel(contentLevel), contentRand, 0).0
  {
    var generator := new Taco.TacoGenerator(deck, designLevel, designRand);
    generator.ApplyTackyDesign();
    var transformer := new Content.ContentTransformer(generator.presentation, contentLevel, contentRand);
    transformer.TransformAllContent();
    out := transformer.presentation;
  }

  /**
   * The processed deck has the original's slides in order, each with its layout,
   * transition and number of shapes, and every shape keeps its picture flag and
   * whether it has a text frame.
   */
  lemma ProcessedDeckShape(deck: Presentation, designLevel: int, contentLevel: int, designRand: Stream, contentRand: Stream)
    ensures var mid := Taco.TackySlides(deck.slides, ClampLevel(designLevel), designRand, 0).0;
      var out := Content.TransformSlides(mid, ClampLevel(contentLevel), contentRand, 0).0;
      && |out| == |deck.slides|
      && forall i :: 0 <= i < |out| ==>
           && out[i].layoutName == deck.slides[i].layoutName
           && out[i].transition == deck.slides[i].transition
           && |out[i].shapes| == |deck.slides[i].shapes|
           && forall j :: 0 <= j < |out[i].shapes| ==>
                out[i].shapes[j].isPicture == deck.slides[i].shapes[j].isPicture
                && out[i].shapes[j].textFrame.Some? == deck.slides[i].shapes[j].textFrame.Some?
  {
    var mid := Taco.TackySlides(deck.slides, ClampLevel(designLevel), designRand, 0).0;
    var out := Content.TransformSlides(mid, ClampLevel(contentLevel), contentRand, 0).0;
    Taco.TackySlidesEffect(deck.slides, ClampLevel(designLevel), designRand, 0);
    Content.TransformSlidesOutcome(mid, ClampLevel(contentLevel), contentRand, 0);
    forall i | 0 <= i < |out|
      ensures |out[i].shapes| == |deck.slides[i].shapes|
      ensures forall j :: 0 <= j < |out[i].shapes| ==>
                out[i].shapes[j].isPicture == deck.slides[i].shapes[j].isPicture
                && out[i].shapes[j].textFrame.Some? == deck.slides[i].shapes[j].textFrame.Some?
    {
      SlideThroughPipeline(ClampLevel(designLevel), ClampLevel(contentLevel), deck.slides[i], mid[i], out[i]);
    }
  }

  /** One slide through both engines keeps its shapes' kinds. */
  lemma SlideThroughPipeline(designLevel: int, contentLevel: int, s: Slide, m: Slide, o: Slide)
    requires Taco.SlideEffect(designLevel, s, m) && Content.SlideOutcome(contentLevel, m, o)
    ensures |o.shapes| == |s.shapes|
    ensures forall j :: 0 <= j < |o.shapes| ==>
      o.shapes[j].isPicture == s.shapes[j].isPicture && o.shapes[j].textFrame.Some? == s.shapes[j].textFrame.Some?
  {
    forall j | 0 <= j < |o.shapes|
      ensures o.shapes[j].isPicture == s.shapes[j].isPicture
      ensures o.shapes[j].textFrame.Some? == s.shapes[j].textFrame.Some?
    {
      assert Taco.ShapeEffect(designLevel, s.shapes[j], m.shapes[j]);
      assert Content.ShapeOutcome(contentLevel, m.shapes[j], o.shapes[j]);
    }
  }
}
