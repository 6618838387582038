/**
  Post-processing of the completion text into tweet options (index.js:20, 66-78):
  clamp each option to 240 characters, split the trimmed text into lines, fall
  back to splitting it into sentences, and fall back again to a placeholder.
 */
module Parse {
  import opened Text

  const MaxOptionLength: nat := 240
  /** How many characters of an over-long option survive in front of the ellipsis. */
  const KeptBeforeEllipsis: nat := 237
  const Ellipsis: string := "..."
  const MaxOptions: nat := 3
  const Placeholder: string := "No output. Try a clearer topic."

  /** A well-formed tweet option: non-empty and at most 240 characters. */
  predicate IsOption(o: string) {
    o != [] && |o| <= MaxOptionLength
  }

  predicate EndsWithPeriod(s: string) {
    s != [] && s[|s| - 1] == '.'
  }

  /** `clamp`: short strings pass unchanged; longer ones keep their first 237
      characters and end in "...", 240 characters in all. */
  function Clamp(s: string): (r: string)
    ensures |r| <= MaxOptionLength
    ensures |s| <= MaxOptionLength ==> r == s
    ensures |s| > MaxOptionLength ==>
      && |r| == MaxOptionLength
      && r[..KeptBeforeEllipsis] == s[..KeptBeforeEllipsis]
      && r[KeptBeforeEllipsis..] == Ellipsis
    ensures r != [] <==> s != []
    ensures EndsWithPeriod(s) ==> EndsWithPeriod(r)
  {
    if |s| <= MaxOptionLength then s else s[..KeptBeforeEllipsis] + Ellipsis
  }

  /** Clamping an option that is already clamped changes nothing. */
  lemma ClampIdempotent(s: string)
    ensures Clamp(Clamp(s)) == Clamp(s)
  {
  }

  /** Trim every piece and keep the ones that are not empty, in order. */
  function Candidates(pieces: seq<string>): (r: seq<string>)
    ensures |r| <= |pieces|
    ensures forall k :: 0 <= k < |r| ==> r[k] != []
  {
    if pieces == [] then []
    else
      var t := Trim(pieces[0]);
      (if t == [] then [] else [t]) + Candidates(pieces[1..])
  }

  /** Trimming and filtering works piece by piece, so it distributes over concatenation. */
  lemma {:induction false} CandidatesAppend(p: seq<string>, q: seq<string>)
    ensures Candidates(p + q) == Candidates(p) + Candidates(q)
    decreases |p|
  {
    if p == [] {
      assert p + q == q;
    } else {
      var t := Trim(p[0]);
      var head := if t == [] then [] else [t];
      assert (p + q)[0] == p[0];
      assert (p + q)[1..] == p[1..] + q;
      assert Candidates(p + q) == head + Candidates(p[1..] + q);
      CandidatesAppend(p[1..], q);
    }
  }

  /** A piece survives trimming and filtering exactly when it is not all whitespace. */
  lemma CandidatesSingle(p: string)
    ensures AllSpace(p) ==> Candidates([p]) == []
    ensures !AllSpace(p) ==> Candidates([p]) == [Trim(p)]
  {
    TrimEmptyIff(p);
    assert [p][1..] == [];
  }

  /** At most the first three candidates, each clamped. */
  function FirstThreeClamped(cands: seq<string>): (r: seq<string>)
    ensures |r| == if |cands| < MaxOptions then |cands| else MaxOptions
    ensures forall k :: 0 <= k < |r| ==> r[k] == Clamp(cands[k])
  {
    var n := if |cands| < MaxOptions then |cands| else MaxOptions;
    seq(n, k requires 0 <= k < n => Clamp(cands[k]))
  }

  /** The options one splitting strategy produces from its pieces: at most
      three, each a well-formed option. */
  function Options(pieces: seq<string>): (r: seq<string>)
    ensures |r| <= MaxOptions
    ensures forall k :: 0 <= k < |r| ==> IsOption(r[k])
  {
    FirstThreeClamped(Candidates(pieces))
  }

  // ---------------------------------------------------------------------------
  // Sentence split: cut the text at each whitespace run that follows a period

  /** Position `k` starts a separator: a whitespace character right after a period. */
  predicate IsBreak(s: string, k: int) {
    1 <= k < |s| && s[k - 1] == '.' && IsSpace(s[k])
  }

  predicate NoBreak(s: string) {
    forall k :: 0 <= k < |s| ==> !IsBreak(s, k)
  }

  /** The first separator starting at or after `k`, or `|s|` when there is none. */
  function NextBreak(s: string, k: nat): (b: nat)
    requires k <= |s|
    ensures k <= b <= |s|
    ensures b < |s| ==> IsBreak(s, b)
    ensures forall m :: k <= m < b ==> !IsBreak(s, m)
    decreases |s| - k
  {
    if k == |s| || IsBreak(s, k) then k else NextBreak(s, k + 1)
  }

  /** The end of the whitespace run that starts at `k` (the regex's greedy `\s+`). */
  function RunEnd(s: string, k: nat): (e: nat)
    requires k <= |s|
    ensures k <= e <= |s|
    ensures AllSpace(s[k..e])
    ensures e < |s| ==> !IsSpace(s[e])
    decreases |s| - k
  {
    if k < |s| && IsSpace(s[k]) then
      var e := RunEnd(s, k + 1);
      assert s[k..e] == [s[k]] + s[k + 1..e];
      e
    else k
  }

  /** The pieces between separators; each separator is a maximal whitespace run
      that follows a period, and the period stays with the piece on its left. */
  function SentenceSplit(s: string): (r: seq<string>)
    ensures |r| >= 1
    ensures |r[0]| <= |s| && r[0] == s[..|r[0]|]
    decreases |s|
  {
    var b := NextBreak(s, 0);
    if b == |s| then [s]
    else
      var e := RunEnd(s, b);
      [s[..b]] + SentenceSplit(s[e..])
  }

  /** The separators the sentence split drops, in order. */
  ghost function SentenceGaps(s: string): (g: seq<string>)
    decreases |s|
  {
    var b := NextBreak(s, 0);
    if b == |s| then []
    else
      var e := RunEnd(s, b);
      [s[b..e]] + SentenceGaps(s[e..])
  }

  /** Pieces with the separators put back between them. */
  function Weave(pieces: seq<string>, gaps: seq<string>): string
    requires |pieces| == |gaps| + 1
    decreases |gaps|
  {
    if gaps == [] then pieces[0] else pieces[0] + gaps[0] + Weave(pieces[1..], gaps[1..])
  }

  /** Each piece but the last ends with the period that preceded its separator. */
  predicate PeriodsBetween(xs: seq<string>) {
    forall k :: 0 <= k < |xs| - 1 ==> EndsWithPeriod(xs[k])
  }

  /** The sentence split loses nothing but its separators: putting them back
      gives the text, and each separator is a non-empty run of whitespace. */
  lemma {:induction false} SentenceSplitRebuild(s: string)
    ensures |SentenceSplit(s)| == |SentenceGaps(s)| + 1
    ensures s == Weave(SentenceSplit(s), SentenceGaps(s))
    ensures forall k :: 0 <= k < |SentenceGaps(s)| ==>
      SentenceGaps(s)[k] != [] && AllSpace(SentenceGaps(s)[k])
    decreases |s|
  {
    var b := NextBreak(s, 0);
    if b < |s| {
      var e := RunEnd(s, b);
      var rest := s[e..];
      SentenceSplitRebuild(rest);
      var ps, gs := SentenceSplit(s), SentenceGaps(s);
      var ps', gs' := SentenceSplit(rest), SentenceGaps(rest);
      assert ps == [s[..b]] + ps' && gs == [s[b..e]] + gs';
      assert ps[1..] == ps' && gs[1..] == gs';
      assert Weave(ps, gs) == s[..b] + s[b..e] + Weave(ps', gs');
      assert s == s[..b] + s[b..e] + rest;
      forall k | 0 <= k < |gs| ensures gs[k] != [] && AllSpace(gs[k]) {
        if k > 0 { assert gs[k] == gs'[k - 1]; }
      }
    }
  }

  /** The shape of the sentence pieces: each piece but the last keeps the
      period in front of its separator, no piece contains a separator, and no
      piece after a separator starts with whitespace (the separators are maximal). */
  lemma {:induction false} SentenceSplitShape(s: string)
    ensures PeriodsBetween(SentenceSplit(s))
    ensures forall k :: 0 <= k < |SentenceSplit(s)| ==> NoBreak(SentenceSplit(s)[k])
    ensures forall k :: 1 <= k < |SentenceSplit(s)| ==>
      SentenceSplit(s)[k] == [] || !IsSpace(SentenceSplit(s)[k][0])
    decreases |s|
  {
    var b := NextBreak(s, 0);
    if b == |s| {
      assert NoBreak(s);
    } else {
      var e := RunEnd(s, b);
      var rest := s[e..];
      SentenceSplitShape(rest);
      var ps, ps' := SentenceSplit(s), SentenceSplit(rest);
      assert ps == [s[..b]] + ps';
      assert NoBreak(s[..b]) by {
        forall m | 0 <= m < b ensures !IsBreak(s[..b], m) {
          if IsBreak(s[..b], m) { assert IsBreak(s, m); }
        }
      }
      assert EndsWithPeriod(s[..b]);
      assert rest != [] ==> ps'[0] == [] || ps'[0][0] == rest[0];
      forall k | 1 <= k < |ps| ensures ps[k] == [] || !IsSpace(ps[k][0]) {
        assert ps[k] == ps'[k - 1];
      }
      forall k | 0 <= k < |ps| - 1 ensures EndsWithPeriod(ps[k]) {
        if k > 0 { assert ps[k] == ps'[k - 1]; }
      }
      forall k | 0 <= k < |ps| ensures NoBreak(ps[k]) {
        if k > 0 { assert ps[k] == ps'[k - 1]; }
      }
    }
  }

  /** A sentence ending in a period, followed by whitespace, is split off as
      the first piece, and the whitespace is dropped. */
  lemma SentenceSplitCons(x: string, gap: string, y: string)
    requires EndsWithPeriod(x) && NoBreak(x)
    requires gap != [] && AllSpace(gap)
    requires y == [] || !IsSpace(y[0])
    ensures SentenceSplit(x + gap + y) == [x] + SentenceSplit(y)
  {
    var s := x + gap + y;
    var e := |x| + |gap|;
    FirstBreakAfterSentence(x, gap + y);
    assert s == x + (gap + y);
    RunEndAfterGap(x, gap, y);
    assert s[..|x|] == x;
    assert s[e..] == y;
  }

  /** The first separator of `x + rest` is right after `x` when `x` ends in a
      period, holds no separator, and `rest` starts with whitespace. */
  lemma FirstBreakAfterSentence(x: string, rest: string)
    requires EndsWithPeriod(x) && NoBreak(x)
    requires rest != [] && IsSpace(rest[0])
    ensures NextBreak(x + rest, 0) == |x|
  {
    var s := x + rest;
    assert IsBreak(s, |x|);
    forall m | 0 <= m < |x| ensures !IsBreak(s, m) {
      assert !IsBreak(x, m);
      if 1 <= m { assert s[m - 1] == x[m - 1] && s[m] == x[m]; }
    }
  }

  /** The whitespace run after `x` ends where the gap ends. */
  lemma RunEndAfterGap(x: string, gap: string, y: string)
    requires AllSpace(gap)
    requires y == [] || !IsSpace(y[0])
    ensures RunEnd(x + gap + y, |x|) == |x| + |gap|
  {
    var s := x + gap + y;
    var e := |x| + |gap|;
    var r := RunEnd(s, |x|);
    assert forall m :: |x| <= m < e ==> s[m] == gap[m - |x|];
    assert e < |s| ==> s[e] == y[0];
    assert forall m :: |x| <= m < r ==> s[m] == s[|x|..r][m - |x|];
  }

  /** A text splits into more than one sentence exactly when it contains a separator. */
  lemma SentenceSplitSingleIff(s: string)
    ensures |SentenceSplit(s)| == 1 <==> NoBreak(s)
  {
  }

  /** Trimming, filtering, taking three and clamping keep the periods in place. */
  lemma {:induction false} CandidatesKeepPeriods(pieces: seq<string>)
    requires PeriodsBetween(pieces)
    ensures PeriodsBetween(Candidates(pieces))
    decreases |pieces|
  {
    if |pieces| > 1 {
      var p := pieces[0];
      TrimKeepsLast(p);
      assert PeriodsBetween(pieces[1..]);
      CandidatesKeepPeriods(pieces[1..]);
    }
  }

  // ---------------------------------------------------------------------------
  // The two strategies and the choice between them

  /** The options of the line split of the trimmed text. */
  function LineOptions(text: string): (r: seq<string>)
    ensures |r| <= MaxOptions
    ensures forall k :: 0 <= k < |r| ==> IsOption(r[k])
  {
    Options(SplitLines(text))
  }

  /** The options of the sentence split of the trimmed text. */
  function SentenceOptions(text: string): (r: seq<string>)
    ensures |r| <= MaxOptions
    ensures forall k :: 0 <= k < |r| ==> IsOption(r[k])
  {
    Options(SentenceSplit(text))
  }

  /** The parsing part of `generateTweets`: one to three well-formed options. */
  function ParseOptions(raw: string): (r: seq<string>)
    ensures 1 <= |r| <= MaxOptions
    ensures forall k :: 0 <= k < |r| ==> IsOption(r[k])
  {
    var text := Trim(raw);
    var options := LineOptions(text);
    var alt := SentenceOptions(text);
    if |options| < MaxOptions && |alt| >= 2 then alt
    else if |options| > 0 then options
    else [Placeholder]
  }

  /** At least three non-blank lines: the first three, trimmed and clamped, in order. */
  lemma LinesWin(raw: string)
    requires |Candidates(SplitLines(Trim(raw)))| >= MaxOptions
    ensures var c := Candidates(SplitLines(Trim(raw)));
      ParseOptions(raw) == [Clamp(c[0]), Clamp(c[1]), Clamp(c[2])]
  {
  }

  /** Fewer than three line options and at least two sentence options: the
      sentence options win, and all of them but the last end with a period. */
  lemma SentencesWin(raw: string)
    requires |LineOptions(Trim(raw))| < MaxOptions
    requires |SentenceOptions(Trim(raw))| >= 2
    ensures ParseOptions(raw) == SentenceOptions(Trim(raw))
    ensures PeriodsBetween(ParseOptions(raw))
  {
    var text := Trim(raw);
    SentenceSplitShape(text);
    var c := Candidates(SentenceSplit(text));
    CandidatesKeepPeriods(SentenceSplit(text));
    var r := ParseOptions(raw);
    forall k | 0 <= k < |r| - 1 ensures EndsWithPeriod(r[k]) {
      assert r[k] == Clamp(c[k]);
    }
  }

  /** Empty or whitespace-only text yields exactly the placeholder. */
  lemma BlankGivesPlaceholder(raw: string)
    requires AllSpace(raw)
    ensures ParseOptions(raw) == [Placeholder]
  {
    TrimEmptyIff(raw);
    assert SplitLines([]) == [[]];
    CandidatesSingle([]);
    assert SentenceSplit([]) == [[]];
  }

  /** Text that is not blank always yields at least one line option, so the
      result comes from one of the two splits and never from the placeholder branch. */
  lemma NonBlankNeverPlaceholder(raw: string)
    requires !AllSpace(raw)
    ensures |LineOptions(Trim(raw))| >= 1
    ensures ParseOptions(raw) == LineOptions(Trim(raw)) || ParseOptions(raw) == SentenceOptions(Trim(raw))
  {
    var text := Trim(raw);
    TrimEmptyIff(raw);
    TrimSlice(raw);
    var lines := SplitLines(text);
    var first := lines[0];
    assert first[0] == text[0];
    assert !AllSpace(first);
    CandidatesSingle(first);
    assert lines == [first] + lines[1..];
    CandidatesAppend([first], lines[1..]);
  }

  /** One or two line options and fewer than two sentence options: the line
      options are kept. */
  lemma LinesKept(raw: string)
    requires 1 <= |LineOptions(Trim(raw))| < MaxOptions
    requires |SentenceOptions(Trim(raw))| < 2
    ensures ParseOptions(raw) == LineOptions(Trim(raw))
  {
  }

  /** Pieces that are non-empty and already trimmed pass the filter unchanged. */
  lemma {:induction false} CandidatesOfClean(pieces: seq<string>)
    requires forall k :: 0 <= k < |pieces| ==> pieces[k] != [] && Trim(pieces[k]) == pieces[k]
    ensures Candidates(pieces) == pieces
    decreases |pieces|
  {
    if pieces != [] {
      CandidatesOfClean(pieces[1..]);
      assert pieces == [pieces[0]] + pieces[1..];
    }
  }

  /** A line with no newline, no surrounding whitespace and at most 240 characters. */
  predicate CleanLine(x: string) {
    IsOption(x) && NoNewline(x) && !IsSpace(x[0]) && !IsSpace(x[|x| - 1])
  }

  /** A completion of three clean lines gives exactly those three lines, in order. */
  lemma ThreeLinesScenario(a: string, b: string, c: string, raw: string)
    requires CleanLine(a) && CleanLine(b) && CleanLine(c)
    requires raw == a + "\n" + b + "\n" + c
    ensures ParseOptions(raw) == [a, b, c]
  {
    var lines := [a, b, c];
    assert raw[0] == a[0] && raw[|raw| - 1] == c[|c| - 1];
    TrimClean(raw);
    assert Join(lines, "\n") == raw;
    JoinSplitLines(lines);
    TrimClean(a);
    TrimClean(b);
    TrimClean(c);
    CandidatesOfClean(lines);
    LinesWin(raw);
  }

  /** A short sentence: a clean line that ends in a period and holds no
      period followed by whitespace. */
  predicate CleanSentence(x: string) {
    CleanLine(x) && EndsWithPeriod(x) && NoBreak(x)
  }

  /** Two lines without surrounding whitespace give two line options, each
      its line clamped. */
  lemma TwoLineOptions(first: string, second: string)
    requires first != [] && NoNewline(first) && !IsSpace(first[0]) && !IsSpace(first[|first| - 1])
    requires CleanLine(second)
    ensures LineOptions(first + "\n" + second) == [Clamp(first), second]
  {
    assert Join([first, second], "\n") == first + "\n" + second;
    JoinSplitLines([first, second]);
    TrimClean(first);
    TrimClean(second);
    CandidatesOfClean([first, second]);
  }

  /** Three clean sentences separated by whitespace give three sentence options. */
  lemma ThreeSentenceOptions(a: string, g1: string, b: string, g2: string, c: string)
    requires CleanSentence(a) && CleanSentence(b) && CleanSentence(c)
    requires g1 != [] && AllSpace(g1) && g2 != [] && AllSpace(g2)
    ensures SentenceOptions(a + g1 + b + g2 + c) == [a, b, c]
  {
    assert SentenceSplit(a + g1 + b + g2 + c) == [a, b, c] by {
      assert a + g1 + b + g2 + c == a + g1 + (b + g2 + c);
      SentenceSplitCons(a, g1, b + g2 + c);
      SentenceSplitCons(b, g2, c);
      SentenceSplitSingleIff(c);
    }
    TrimClean(a);
    TrimClean(b);
    TrimClean(c);
    CandidatesOfClean([a, b, c]);
  }

  /** The tie-break between the strategies: two lines, the first holding two
      sentences, give two line options, but the three sentence options win. */
  lemma SentencesBeatTwoLines(a: string, b: string, c: string)
    requires CleanSentence(a) && CleanSentence(b) && CleanSentence(c)
    ensures |LineOptions(a + " " + b + "\n" + c)| == 2
    ensures ParseOptions(a + " " + b + "\n" + c) == [a, b, c]
  {
    var first := a + " " + b;
    var raw := first + "\n" + c;
    assert raw[0] == a[0] && raw[|raw| - 1] == c[|c| - 1];
    TrimClean(raw);
    assert NoNewline(first) by {
      forall k | 0 <= k < |first| ensures first[k] != '\n' {
        if k < |a| { assert first[k] == a[k]; }
        else if k > |a| { assert first[k] == b[k - |a| - 1]; }
      }
    }
    assert first[0] == a[0] && first[|first| - 1] == b[|b| - 1];
    TwoLineOptions(first, c);
    ThreeSentenceOptions(a, " ", b, "\n", c);
  }

  /** The scenario with the completion "A.\nB.\nC.". */
  lemma ThreeSentenceLines(raw: string)
    requires raw == "A.\nB.\nC."
    ensures ParseOptions(raw) == ["A.", "B.", "C."]
  {
    assert CleanLine("A.") && CleanLine("B.") && CleanLine("C.") by {
      assert !IsSpace('A') && !IsSpace('B') && !IsSpace('C') && !IsSpace('.');
      assert NoNewline("A.") && NoNewline("B.") && NoNewline("C.");
    }
    assert raw == "A." + "\n" + "B." + "\n" + "C.";
    ThreeLinesScenario("A.", "B.", "C.", raw);
  }
}
