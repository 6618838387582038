/**
  String helpers that stand for the JavaScript string operations the bot uses:
  `String.prototype.trim`, `toLowerCase`, `split('\n')` and `join`.
  Strings are sequences of characters; JavaScript counts UTF-16 code units,
  which this model approximates by the length of the sequence.
 */
module Text {

  /** The characters JavaScript's `trim` removes and the regular expression
      class `\s` matches: the WhiteSpace and LineTerminator code points. */
  predicate IsSpace(c: char) {
    || c == ' ' || c == '\t' || c == '\n' || c == '\r'
    || c == '\U{000B}' || c == '\U{000C}' || c == '\U{00A0}' || c == '\U{1680}'
    || ('\U{2000}' <= c <= '\U{200A}')
    || c == '\U{2028}' || c == '\U{2029}' || c == '\U{202F}' || c == '\U{205F}'
    || c == '\U{3000}' || c == '\U{FEFF}'
  }

  predicate AllSpace(s: string) {
    forall i :: 0 <= i < |s| ==> IsSpace(s[i])
  }

  /** `s` with its leading whitespace removed. */
  function TrimStart(s: string): (r: string)
    ensures |r| <= |s|
  {
    if s != [] && IsSpace(s[0]) then TrimStart(s[1..]) else s
  }

  /** `s` with its trailing whitespace removed. */
  function TrimEnd(s: string): (r: string)
    ensures |r| <= |s|
  {
    if s != [] && IsSpace(s[|s| - 1]) then TrimEnd(s[..|s| - 1]) else s
  }

  /** TrimStart removes a whitespace prefix, and only that: what is left is a
      suffix of `s` that does not start with whitespace. */
  lemma {:induction false} TrimStartSpec(s: string)
    ensures var r := TrimStart(s);
      && r == s[|s| - |r|..]
      && AllSpace(s[..|s| - |r|])
      && (r == [] || !IsSpace(r[0]))
  {
    if s != [] && IsSpace(s[0]) {
      TrimStartSpec(s[1..]);
      var r := TrimStart(s);
      assert s[..|s| - |r|] == [s[0]] + s[1..][..|s| - 1 - |r|];
    }
  }

  /** TrimEnd removes a whitespace suffix, and only that: what is left is a
      prefix of `s` that does not end with whitespace. */
  lemma {:induction false} TrimEndSpec(s: string)
    ensures var r := TrimEnd(s);
      && r == s[..|r|]
      && AllSpace(s[|r|..])
      && (r == [] || !IsSpace(r[|r| - 1]))
  {
    if s != [] && IsSpace(s[|s| - 1]) {
      var p := s[..|s| - 1];
      TrimEndSpec(p);
      var r := TrimEnd(s);
      assert s[|r|..] == p[|r|..] + [s[|s| - 1]];
    }
  }

  /** JavaScript's `s.trim()`. */
  function Trim(s: string): string {
    TrimEnd(TrimStart(s))
  }

  /** Trim removes exactly a whitespace prefix and a whitespace suffix, and
      what is left neither starts nor ends with whitespace. */
  lemma TrimSlice(s: string)
    ensures var r := Trim(s); var i := |s| - |TrimStart(s)|;
      && i + |r| <= |s|
      && r == s[i..i + |r|]
      && AllSpace(s[..i]) && AllSpace(s[i + |r|..])
      && (r == [] || (!IsSpace(r[0]) && !IsSpace(r[|r| - 1])))
  {
    var t := TrimStart(s);
    var r := TrimEnd(t);
    var i := |s| - |t|;
    TrimStartSpec(s);
    TrimEndSpec(t);
    assert r == t[..|r|];
    assert s[i + |r|..] == t[|r|..];
  }

  /** The trimmed text is empty exactly when the input is all whitespace. */
  lemma TrimEmptyIff(s: string)
    ensures Trim(s) == [] <==> AllSpace(s)
  {
    TrimSlice(s);
    var i := |s| - |TrimStart(s)|;
    if Trim(s) == [] {
      forall k | 0 <= k < |s| ensures IsSpace(s[k]) {
        if k < i { assert s[k] == s[..i][k]; } else { assert s[k] == s[i..][k - i]; }
      }
    }
  }

  /** Trimming twice is trimming once. */
  lemma TrimIdempotent(s: string)
    ensures Trim(Trim(s)) == Trim(s)
  {
    var r := Trim(s);
    TrimSlice(s);
    TrimStartSpec(r);
    TrimEndSpec(r);
    if r != [] {
      assert TrimStart(r) == r;
      assert TrimEnd(r) == r;
    }
  }

  /** A string that neither starts nor ends with whitespace is its own trim. */
  lemma TrimClean(s: string)
    requires s == [] || (!IsSpace(s[0]) && !IsSpace(s[|s| - 1]))
    ensures Trim(s) == s
  {
  }

  /** Leading whitespace in front of a string is all that TrimStart removes. */
  lemma {:induction false} TrimStartPadded(pad: string, w: string)
    requires AllSpace(pad)
    requires w == [] || !IsSpace(w[0])
    ensures TrimStart(pad + w) == w
    decreases |pad|
  {
    if pad == [] {
      assert pad + w == w;
    } else {
      assert (pad + w)[1..] == pad[1..] + w;
      TrimStartPadded(pad[1..], w);
    }
  }

  /** Trailing whitespace after a string is all that TrimEnd removes. */
  lemma {:induction false} TrimEndPadded(w: string, pad: string)
    requires AllSpace(pad)
    requires w == [] || !IsSpace(w[|w| - 1])
    ensures TrimEnd(w + pad) == w
    decreases |pad|
  {
    if pad == [] {
      assert w + pad == w;
    } else {
      var s := w + pad;
      assert s[..|s| - 1] == w + pad[..|pad| - 1];
      TrimEndPadded(w, pad[..|pad| - 1]);
    }
  }

  /** Trimming a clean string wrapped in whitespace gives the string back. */
  lemma TrimPadded(before: string, w: string, after: string)
    requires AllSpace(before) && AllSpace(after)
    requires w != [] && !IsSpace(w[0]) && !IsSpace(w[|w| - 1])
    ensures Trim(before + w + after) == w
  {
    assert before + w + after == before + (w + after);
    TrimStartPadded(before, w + after);
    TrimEndPadded(w, after);
  }

  /** A string that ends with a non-whitespace character keeps it when trimmed. */
  lemma TrimKeepsLast(s: string)
    requires s != [] && !IsSpace(s[|s| - 1])
    ensures Trim(s) != [] && Trim(s)[|Trim(s)| - 1] == s[|s| - 1]
  {
    TrimSlice(s);
    TrimEmptyIff(s);
  }

  /** JavaScript's `toLowerCase` on one character, restricted to the ASCII letters. */
  function LowerChar(c: char): char {
    if 'A' <= c <= 'Z' then (c as int - 'A' as int + 'a' as int) as char else c
  }

  /** JavaScript's `s.toLowerCase()`, character by character. */
  function ToLower(s: string): (r: string)
    ensures |r| == |s|
    ensures forall i :: 0 <= i < |s| ==> r[i] == LowerChar(s[i])
  {
    seq(|s|, i requires 0 <= i < |s| => LowerChar(s[i]))
  }

  /** Lowercasing a lowercased string changes nothing. */
  lemma ToLowerIdempotent(s: string)
    ensures ToLower(ToLower(s)) == ToLower(s)
  {
  }

  /** JavaScript's `pieces.join(sep)`. */
  function Join(pieces: seq<string>, sep: string): (r: string)
    ensures |pieces| == 1 ==> r == pieces[0]
    decreases |pieces|
  {
    if |pieces| == 0 then []
    else if |pieces| == 1 then pieces[0]
    else pieces[0] + sep + Join(pieces[1..], sep)
  }

  function SumLengths(pieces: seq<string>): nat {
    if pieces == [] then 0 else |pieces[0]| + SumLengths(pieces[1..])
  }

  /** A join adds one separator between each two neighbouring pieces and nothing else. */
  lemma {:induction false} JoinLength(pieces: seq<string>, sep: string)
    requires pieces != []
    ensures |Join(pieces, sep)| == SumLengths(pieces) + (|pieces| - 1) * |sep|
    decreases |pieces|
  {
    if |pieces| > 1 {
      JoinLength(pieces[1..], sep);
    }
  }

  /** Where a join puts piece `k`: after the earlier pieces and one separator
      for each of them. */
  function JoinOffset(pieces: seq<string>, sep: string, k: nat): nat
    requires k <= |pieces|
  {
    SumLengths(pieces[..k]) + k * |sep|
  }

  /** Joining two non-empty lists is joining each and putting one separator between. */
  lemma {:induction false} JoinAppend(p: seq<string>, q: seq<string>, sep: string)
    requires p != [] && q != []
    ensures Join(p + q, sep) == Join(p, sep) + sep + Join(q, sep)
    decreases |p|
  {
    if |p| == 1 {
      assert (p + q)[1..] == q;
    } else {
      assert (p + q)[1..] == p[1..] + q;
      JoinAppend(p[1..], q, sep);
    }
  }

  /** Piece `k` of a join sits at its offset, and a separator follows it
      unless it is the last piece. */
  lemma JoinPlace(pieces: seq<string>, sep: string, k: nat)
    requires k < |pieces|
    ensures var j := Join(pieces, sep); var off := JoinOffset(pieces, sep, k);
      && off + |pieces[k]| <= |j|
      && j[off..off + |pieces[k]|] == pieces[k]
      && (k < |pieces| - 1 ==>
            off + |pieces[k]| + |sep| <= |j| && j[off + |pieces[k]|..off + |pieces[k]| + |sep|] == sep)
  {
    var pk := pieces[k];
    var tail := if k < |pieces| - 1 then sep + Join(pieces[k + 1..], sep) else [];
    assert pieces[k..][1..] == pieces[k + 1..];
    assert Join(pieces[k..], sep) == pk + tail;
    var head := if k == 0 then [] else Join(pieces[..k], sep) + sep;
    if k > 0 {
      assert pieces == pieces[..k] + pieces[k..];
      JoinAppend(pieces[..k], pieces[k..], sep);
      JoinLength(pieces[..k], sep);
      assert (k - 1) * |sep| + |sep| == k * |sep|;
    } else {
      assert pieces[..0] == [];
      assert pieces[0..] == pieces;
    }
    var j := Join(pieces, sep);
    assert j == head + pk + tail;
    assert |head| == JoinOffset(pieces, sep, k);
  }

  /** After a prefix `head`, every piece of a join sits at its offset shifted
      by `|head|`, each followed by a separator except the last. */
  lemma JoinPlaces(head: string, pieces: seq<string>, sep: string)
    ensures forall k :: 0 <= k < |pieces| ==>
      var r := head + Join(pieces, sep); var off := |head| + JoinOffset(pieces, sep, k);
      && off + |pieces[k]| <= |r|
      && r[off..off + |pieces[k]|] == pieces[k]
      && (k < |pieces| - 1 ==>
            off + |pieces[k]| + |sep| <= |r| && r[off + |pieces[k]|..off + |pieces[k]| + |sep|] == sep)
  {
    var j := Join(pieces, sep);
    var r := head + j;
    forall k | 0 <= k < |pieces| ensures
      var off := |head| + JoinOffset(pieces, sep, k);
      && off + |pieces[k]| <= |r|
      && r[off..off + |pieces[k]|] == pieces[k]
      && (k < |pieces| - 1 ==>
            off + |pieces[k]| + |sep| <= |r| && r[off + |pieces[k]|..off + |pieces[k]| + |sep|] == sep)
    {
      JoinPlace(pieces, sep, k);
      var a := JoinOffset(pieces, sep, k);
      var b := a + |pieces[k]|;
      assert r[|head| + a..|head| + b] == j[a..b];
      if k < |pieces| - 1 {
        assert r[|head| + b..|head| + b + |sep|] == j[b..b + |sep|];
      }
    }
  }

  predicate NoNewline(s: string) {
    forall i :: 0 <= i < |s| ==> s[i] != '\n'
  }

  /** JavaScript's `s.split('\n')`: the text between newlines, always at least one piece. */
  function SplitLines(s: string): (r: seq<string>)
    ensures |r| >= 1
  {
    if s == [] then [[]]
    else
      var rest := SplitLines(s[1..]);
      if s[0] == '\n' then [[]] + rest
      else [[s[0]] + rest[0]] + rest[1..]
  }

  /** No piece of a line split holds a newline. */
  lemma {:induction false} SplitLinesNoNewline(s: string)
    ensures forall k :: 0 <= k < |SplitLines(s)| ==> NoNewline(SplitLines(s)[k])
  {
    if s != [] {
      SplitLinesNoNewline(s[1..]);
      var rest := SplitLines(s[1..]);
      if s[0] != '\n' {
        assert NoNewline(rest[0]);
        assert NoNewline([s[0]] + rest[0]);
      }
    }
  }

  /** Joining the lines of a text with newlines gives back the text. */
  lemma {:induction false} SplitLinesJoin(s: string)
    ensures Join(SplitLines(s), "\n") == s
  {
    if s != [] {
      SplitLinesJoin(s[1..]);
      var rest := SplitLines(s[1..]);
      if s[0] == '\n' {
        assert s == "\n" + s[1..];
      } else if |rest| == 1 {
        assert s == [s[0]] + s[1..];
      } else {
        assert rest == [rest[0]] + rest[1..];
        assert Join(rest, "\n") == rest[0] + "\n" + Join(rest[1..], "\n");
        assert s == [s[0]] + s[1..];
      }
    }
  }

  /** A text without a newline is a single line. */
  lemma {:induction false} SplitLinesSingle(x: string)
    requires NoNewline(x)
    ensures SplitLines(x) == [x]
  {
    if x != [] {
      SplitLinesSingle(x[1..]);
      assert x == [x[0]] + x[1..];
    }
  }

  /** A line followed by a newline is split off as the first piece. */
  lemma {:induction false} SplitLinesCons(x: string, rest: string)
    requires NoNewline(x)
    ensures SplitLines(x + "\n" + rest) == [x] + SplitLines(rest)
  {
    var s := x + "\n" + rest;
    if x == [] {
      assert s == "\n" + rest;
      assert s[1..] == rest;
    } else {
      assert s[1..] == x[1..] + "\n" + rest;
      SplitLinesCons(x[1..], rest);
      assert x == [x[0]] + x[1..];
    }
  }

  /** Splitting newline-joined lines gives back the lines. */
  lemma {:induction false} JoinSplitLines(pieces: seq<string>)
    requires pieces != []
    requires forall k :: 0 <= k < |pieces| ==> NoNewline(pieces[k])
    ensures SplitLines(Join(pieces, "\n")) == pieces
    decreases |pieces|
  {
    if |pieces| == 1 {
      SplitLinesSingle(pieces[0]);
    } else {
      JoinSplitLines(pieces[1..]);
      SplitLinesCons(pieces[0], Join(pieces[1..], "\n"));
    }
  }
}
