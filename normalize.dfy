/** The text clean-up done by `normalizeContent` once the page's text has
    been extracted: `text.replace(/\s+/g, ' ').trim()`. Every maximal run of
    whitespace becomes one space, and whitespace at either end is removed.
    The extraction of the text from HTML is not part of this module. */
module Normalize {
  import opened Values

  /** A character matched by the ECMAScript `\s` class, which is also the
      set `String.prototype.trim` removes: the WhiteSpace characters (tab,
      vertical tab, form feed, space, no-break space, byte order mark and
      the other space separators) and the LineTerminator characters. */
  predicate IsWhitespace(c: char)
  {
    || c == '\t' || c == '\n' || c == '\U{B}' || c == '\U{C}' || c == '\r'
    || c == ' ' || c == '\U{A0}' || c == '\U{1680}'
    || ('\U{2000}' <= c <= '\U{200A}')
    || c == '\U{2028}' || c == '\U{2029}' || c == '\U{202F}' || c == '\U{205F}'
    || c == '\U{3000}' || c == '\U{FEFF}'
  }

  /** Every whitespace character of `t` is a plain space (U+0020). */
  predicate SpacesOnly(t: string)
  {
    forall i :: 0 <= i < |t| && IsWhitespace(t[i]) ==> t[i] == ' '
  }

  /** No two adjacent characters of `t` are both whitespace. */
  ghost predicate NoWhitespaceRun(t: string)
  {
    forall i, j :: 0 <= i < j < |t| && j == i + 1 ==> !IsWhitespace(t[i]) || !IsWhitespace(t[j])
  }

  /** `t` neither starts nor ends with whitespace. */
  predicate NoOuterWhitespace(t: string)
  {
    t == [] || (!IsWhitespace(t[0]) && !IsWhitespace(t[|t| - 1]))
  }

  /** The form every normalized text has. */
  ghost predicate Canonical(t: string)
  {
    SpacesOnly(t) && NoWhitespaceRun(t) && NoOuterWhitespace(t)
  }

  /** The non-whitespace characters of `s`, in order. */
  function NonWhitespace(s: string): string
  {
    if s == [] then []
    else (if IsWhitespace(s[0]) then [] else [s[0]]) + NonWhitespace(s[1..])
  }

  /** `s.replace(/\s+/g, ' ')`: the last character of every whitespace run
      becomes a space, the others are dropped. */
  function CollapseRuns(s: string): string
  {
    if s == [] then []
    else if IsWhitespace(s[0]) then
      if |s| > 1 && IsWhitespace(s[1]) then CollapseRuns(s[1..]) else " " + CollapseRuns(s[1..])
    else [s[0]] + CollapseRuns(s[1..])
  }

  /** The number of whitespace characters `s` starts with. */
  function LeadingSpace(s: string): (k: nat)
    ensures k <= |s|
    ensures forall i :: 0 <= i < k ==> IsWhitespace(s[i])
    ensures k < |s| ==> !IsWhitespace(s[k])
  {
    if s == [] || !IsWhitespace(s[0]) then 0 else 1 + LeadingSpace(s[1..])
  }

  /** The number of whitespace characters `s` ends with. */
  function TrailingSpace(s: string): (k: nat)
    ensures k <= |s|
    ensures forall i :: |s| - k <= i < |s| ==> IsWhitespace(s[i])
    ensures k < |s| ==> !IsWhitespace(s[|s| - 1 - k])
  {
    if s == [] || !IsWhitespace(s[|s| - 1]) then 0 else 1 + TrailingSpace(s[..|s| - 1])
  }

  /** `s` without its leading whitespace. */
  function TrimStart(s: string): string
  {
    s[LeadingSpace(s)..]
  }

  /** `s` without its trailing whitespace. */
  function TrimEnd(s: string): string
  {
    s[..|s| - TrailingSpace(s)]
  }

  /** The length of the longest prefix of `s` that holds no whitespace. */
  function WordLength(s: string): (n: nat)
    ensures n <= |s|
    ensures forall i :: 0 <= i < n ==> !IsWhitespace(s[i])
    ensures n < |s| ==> IsWhitespace(s[n])
  {
    if s == [] || IsWhitespace(s[0]) then 0 else 1 + WordLength(s[1..])
  }

  /** A word: a non-empty string free of whitespace. */
  predicate IsWord(w: string)
  {
    w != [] && forall i :: 0 <= i < |w| ==> !IsWhitespace(w[i])
  }

  /** The words of `s`: its maximal whitespace-free runs, in order. This is
      the reference against which normalization is proved. */
  function Words(s: string): (ws: seq<string>)
    ensures forall k :: 0 <= k < |ws| ==> IsWord(ws[k])
    ensures ws == [] <==> TrimStart(s) == []
    decreases |s|
  {
    var t := TrimStart(s);
    if t == [] then []
    else
      var n := WordLength(t);
      assert n > 0;
      var w := t[..n];
      assert IsWord(w);
      var rest := Words(t[n..]);
      assert forall k :: 0 < k <= |rest| ==> ([w] + rest)[k] == rest[k - 1];
      [w] + rest
  }

  /** The words of a list, separated by single spaces. */
  function JoinWords(ws: seq<string>): (r: string)
    ensures ws != [] ==> |r| >= |ws[0]|
  {
    if ws == [] then ""
    else if |ws| == 1 then ws[0]
    else ws[0] + " " + JoinWords(ws[1..])
  }

  /** `normalizeContent`'s final step: `text.replace(/\s+/g, ' ').trim()`.
      The result is the words of the input joined by single spaces; it is
      canonical, and it keeps every non-whitespace character in order. */
  function Collapse(text: string): (r: string)
    ensures r == JoinWords(Words(text))
    ensures Canonical(r)
    ensures NonWhitespace(r) == NonWhitespace(text)
  {
    CollapseRunsShape(text);
    CollapseRunsKeepsNonWhitespace(text);
    var r := TrimEnd(TrimStart(CollapseRuns(text)));  // `.trim()`
    TrimKeepsShape(CollapseRuns(text));
    TrimKeepsNonWhitespace(CollapseRuns(text));
    CollapseMatchesWords(text);
    r
  }

  /** Normalizing twice is the same as normalizing once. */
  lemma CollapseIdempotent(text: string)
    ensures Collapse(Collapse(text)) == Collapse(text)
  {
    CanonicalIsFixedPoint(Collapse(text));
  }

  // ---------------------------------------------------------------------
  // One step of trimming

  lemma TrimStartStep(s: string)
    requires s != [] && IsWhitespace(s[0])
    ensures TrimStart(s) == TrimStart(s[1..])
  {
    assert s[LeadingSpace(s)..] == s[1..][LeadingSpace(s[1..])..];
  }

  lemma TrimStartFixed(s: string)
    requires s == [] || !IsWhitespace(s[0])
    ensures TrimStart(s) == s
  {
  }

  lemma TrimEndStep(s: string)
    requires s != [] && IsWhitespace(s[|s| - 1])
    ensures TrimEnd(s) == TrimEnd(s[..|s| - 1])
  {
    var init := s[..|s| - 1];
    assert s[..|s| - TrailingSpace(s)] == init[..|init| - TrailingSpace(init)];
  }

  lemma TrimEndFixed(s: string)
    requires s == [] || !IsWhitespace(s[|s| - 1])
    ensures TrimEnd(s) == s
  {
  }

  // ---------------------------------------------------------------------
  // Shape of the result

  /** Collapsing keeps a text empty or not, and keeps the kind of its
      first character. */
  lemma CollapseRunsFirst(s: string)
    ensures |CollapseRuns(s)| == 0 <==> |s| == 0
    ensures s != [] ==> (IsWhitespace(CollapseRuns(s)[0]) <==> IsWhitespace(s[0]))
  {
  }

  /** Every run is collapsed to a single space. */
  lemma {:induction false} CollapseRunsShape(s: string)
    ensures SpacesOnly(CollapseRuns(s)) && NoWhitespaceRun(CollapseRuns(s))
  {
    if s != [] {
      CollapseRunsShape(s[1..]);
      CollapseRunsFirst(s[1..]);
      var rest := CollapseRuns(s[1..]);
      if IsWhitespace(s[0]) && !(|s| > 1 && IsWhitespace(s[1])) {
        var r := " " + rest;
        assert r == CollapseRuns(s);
        forall i, j | 0 <= i && j == i + 1 && j < |r|
          ensures !IsWhitespace(r[i]) || !IsWhitespace(r[j])
        {
          assert r[j] == rest[i];
          if i > 0 {
            assert r[i] == rest[i - 1];
          }
        }
      } else if !IsWhitespace(s[0]) {
        var r := [s[0]] + rest;
        assert r == CollapseRuns(s);
        forall i, j | 0 <= i && j == i + 1 && j < |r|
          ensures !IsWhitespace(r[i]) || !IsWhitespace(r[j])
        {
          assert r[j] == rest[i];
          if i > 0 {
            assert r[i] == rest[i - 1];
          }
        }
      }
    }
  }

  /** A slice of a string keeps the two run properties. */
  lemma SliceKeepsShape(s: string, a: nat, b: nat)
    requires a <= b <= |s|
    requires SpacesOnly(s) && NoWhitespaceRun(s)
    ensures SpacesOnly(s[a..b]) && NoWhitespaceRun(s[a..b])
  {
    var t := s[a..b];
    forall i | 0 <= i < |t| && IsWhitespace(t[i]) ensures t[i] == ' ' {
      assert t[i] == s[a + i];
    }
    forall i, j | 0 <= i && j == i + 1 && j < |t|
      ensures !IsWhitespace(t[i]) || !IsWhitespace(t[j])
    {
      assert t[i] == s[a + i] && t[j] == s[a + j];
    }
  }

  lemma TrimKeepsShape(s: string)
    requires SpacesOnly(s) && NoWhitespaceRun(s)
    ensures Canonical(TrimEnd(TrimStart(s)))
  {
    var t := TrimStart(s);
    SliceKeepsShape(s, LeadingSpace(s), |s|);
    assert t == s[LeadingSpace(s)..|s|];
    var u := TrimEnd(t);
    SliceKeepsShape(t, 0, |t| - TrailingSpace(t));
    assert u == t[0..|t| - TrailingSpace(t)];
    if u != [] {
      assert u[0] == t[0];
      assert u[|u| - 1] == t[|t| - 1 - TrailingSpace(t)];
    }
  }

  // ---------------------------------------------------------------------
  // Non-whitespace content

  lemma {:induction false} NonWhitespaceAppend(a: string, b: string)
    ensures NonWhitespace(a + b) == NonWhitespace(a) + NonWhitespace(b)
  {
    if a != [] {
      assert (a + b)[1..] == a[1..] + b;
      NonWhitespaceAppend(a[1..], b);
    } else {
      assert a + b == b;
    }
  }

  lemma {:induction false} CollapseRunsKeepsNonWhitespace(s: string)
    ensures NonWhitespace(CollapseRuns(s)) == NonWhitespace(s)
  {
    if s != [] {
      CollapseRunsKeepsNonWhitespace(s[1..]);
      var rest := CollapseRuns(s[1..]);
      if IsWhitespace(s[0]) && !(|s| > 1 && IsWhitespace(s[1])) {
        assert (" " + rest)[1..] == rest;
      } else if !IsWhitespace(s[0]) {
        assert ([s[0]] + rest)[1..] == rest;
      }
    }
  }

  lemma {:induction false} TrimStartKeepsNonWhitespace(s: string)
    ensures NonWhitespace(TrimStart(s)) == NonWhitespace(s)
  {
    if s != [] && IsWhitespace(s[0]) {
      TrimStartStep(s);
      TrimStartKeepsNonWhitespace(s[1..]);
    } else {
      TrimStartFixed(s);
    }
  }

  lemma {:induction false} TrimEndKeepsNonWhitespace(s: string)
    ensures NonWhitespace(TrimEnd(s)) == NonWhitespace(s)
  {
    if s != [] && IsWhitespace(s[|s| - 1]) {
      var init := s[..|s| - 1];
      TrimEndStep(s);
      TrimEndKeepsNonWhitespace(init);
      assert s == init + [s[|s| - 1]];
      NonWhitespaceAppend(init, [s[|s| - 1]]);
      assert NonWhitespace([s[|s| - 1]]) == [];
    } else {
      TrimEndFixed(s);
    }
  }

  lemma TrimKeepsNonWhitespace(s: string)
    ensures NonWhitespace(TrimEnd(TrimStart(s))) == NonWhitespace(s)
  {
    TrimStartKeepsNonWhitespace(s);
    TrimEndKeepsNonWhitespace(TrimStart(s));
  }

  // ---------------------------------------------------------------------
  // Idempotence

  lemma {:induction false} CollapseRunsFixesCanonical(t: string)
    requires SpacesOnly(t) && NoWhitespaceRun(t)
    ensures CollapseRuns(t) == t
  {
    if t != [] {
      SliceKeepsShape(t, 1, |t|);
      CollapseRunsFixesCanonical(t[1..]);
      if IsWhitespace(t[0]) {
        assert t[0] == ' ';
        if |t| > 1 {
          assert !IsWhitespace(t[1]);
        }
        assert t == " " + t[1..];
      } else {
        assert t == [t[0]] + t[1..];
      }
    }
  }

  /** A canonical text is left as it is by normalization. */
  lemma CanonicalIsFixedPoint(t: string)
    requires Canonical(t)
    ensures TrimEnd(TrimStart(CollapseRuns(t))) == t
  {
    CollapseRunsFixesCanonical(t);
    TrimStartFixed(t);
    TrimEndFixed(t);
  }

  // ---------------------------------------------------------------------
  // Agreement with the word-based reference

  /** A whitespace run at the front becomes one space. */
  lemma {:induction false} CollapseRunsLeadingRun(s: string)
    requires s != [] && IsWhitespace(s[0])
    ensures CollapseRuns(s) == " " + CollapseRuns(TrimStart(s))
  {
    TrimStartStep(s);
    if |s| > 1 && IsWhitespace(s[1]) {
      CollapseRunsLeadingRun(s[1..]);
    } else {
      TrimStartFixed(s[1..]);
    }
  }

  /** A leading word is copied unchanged. */
  lemma {:induction false} CollapseRunsLeadingWord(s: string)
    ensures CollapseRuns(s) == s[..WordLength(s)] + CollapseRuns(s[WordLength(s)..])
  {
    if s != [] && !IsWhitespace(s[0]) {
      CollapseRunsLeadingWord(s[1..]);
      assert s[1..][WordLength(s[1..])..] == s[WordLength(s)..];
      assert s[..WordLength(s)] == [s[0]] + s[1..][..WordLength(s[1..])];
    }
  }

  /** Trailing whitespace is only looked for after the last word. */
  lemma {:induction false} TrimEndAppend(a: string, b: string)
    requires TrimEnd(b) != []
    ensures TrimEnd(a + b) == a + TrimEnd(b)
    decreases |b|
  {
    if IsWhitespace(b[|b| - 1]) {
      TrimEndStep(b);
      TrimEndStep(a + b);
      assert (a + b)[..|a + b| - 1] == a + b[..|b| - 1];
      TrimEndAppend(a, b[..|b| - 1]);
    } else {
      TrimEndFixed(b);
      TrimEndFixed(a + b);
    }
  }

  lemma WordsSkipsLeading(s: string)
    ensures Words(s) == Words(TrimStart(s))
  {
    var t := TrimStart(s);
    assert t == [] || !IsWhitespace(t[0]);
    TrimStartFixed(t);
    if t != [] {
      var n := WordLength(t);
      assert Words(s) == [t[..n]] + Words(t[n..]);
      assert Words(t) == [t[..n]] + Words(t[n..]);
    }
  }

  lemma WordsOfLeadingWord(s: string)
    requires s != [] && !IsWhitespace(s[0])
    ensures Words(s) == [s[..WordLength(s)]] + Words(s[WordLength(s)..])
  {
    TrimStartFixed(s);
  }

  lemma JoinWordsCons(w: string, ws: seq<string>)
    requires ws != []
    ensures JoinWords([w] + ws) == w + " " + JoinWords(ws)
  {
    assert ([w] + ws)[1..] == ws;
  }

  /** A text made only of whitespace collapses to at most one space. */
  lemma CollapseRunsAllSpace(u: string)
    requires TrimStart(u) == []
    ensures CollapseRuns(u) == if u == [] then [] else " "
  {
    if u != [] {
      CollapseRunsLeadingRun(u);
    }
  }

  /** The last word loses the space that may follow it. */
  lemma TrimEndLastWord(w: string, tail: string)
    requires IsWord(w) && (tail == [] || tail == " ")
    ensures TrimEnd(w + tail) == w
  {
    TrimEndFixed(w);
    if tail == " " {
      TrimEndStep(w + tail);
      assert (w + tail)[..|w + tail| - 1] == w;
    } else {
      assert w + tail == w;
    }
  }

  /** For a text with no leading whitespace, collapsing runs and trimming
      the end gives the words joined by single spaces. */
  lemma {:induction false} CollapseRunsMatchesWords(s: string)
    requires s == [] || !IsWhitespace(s[0])
    ensures TrimEnd(CollapseRuns(s)) == JoinWords(Words(s))
    decreases |s|
  {
    if s == [] {
      TrimEndFixed(s);
    } else {
      var n := WordLength(s);
      var w, u := s[..n], s[n..];
      assert IsWord(w);
      WordsOfLeadingWord(s);
      CollapseRunsLeadingWord(s);
      WordsSkipsLeading(u);
      var t' := TrimStart(u);
      if t' == [] {
        CollapseRunsAllSpace(u);
        TrimEndLastWord(w, CollapseRuns(u));
      } else {
        assert u != [] && IsWhitespace(u[0]);
        CollapseRunsLeadingRun(u);
        assert !IsWhitespace(t'[0]);
        CollapseRunsMatchesWords(t');
        var rest := CollapseRuns(t');
        assert CollapseRuns(u) == " " + rest;
        AppendAssoc(w, " ", rest);
        TrimStartFixed(t');
        var ws := Words(t');
        assert ws != [] && IsWord(ws[0]);
        assert TrimEnd(rest) != [];
        TrimEndAppend(w + " ", rest);
        JoinWordsCons(w, ws);
      }
    }
  }

  /** Collapsing runs and then trimming the start is the same as trimming
      the start first. */
  lemma TrimStartOfCollapseRuns(text: string)
    ensures TrimStart(CollapseRuns(text)) == CollapseRuns(TrimStart(text))
  {
    var t := TrimStart(text);
    var c := CollapseRuns(t);
    assert t == [] || !IsWhitespace(t[0]);
    CollapseRunsFirst(t);
    assert c == [] || !IsWhitespace(c[0]);
    TrimStartFixed(c);
    if text != [] && IsWhitespace(text[0]) {
      CollapseRunsLeadingRun(text);
      var d := " " + c;
      assert CollapseRuns(text) == d;
      TrimStartStep(d);
      assert d[1..] == c;
    } else {
      TrimStartFixed(text);
      assert t == text;
    }
  }

  lemma CollapseMatchesWords(text: string)
    ensures TrimEnd(TrimStart(CollapseRuns(text))) == JoinWords(Words(text))
  {
    WordsSkipsLeading(text);
    TrimStartOfCollapseRuns(text);
    CollapseRunsMatchesWords(TrimStart(text));
  }
}
