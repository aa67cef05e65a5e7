/**
 * The three JavaScript string operations the chat client relies on:
 * `String.prototype.trim`, `split(/\s+/)` and `join(" ")`. JavaScript's
 * white space for both `trim` and the `\s` class is the WhiteSpace and
 * LineTerminator code points of the ECMAScript language specification.
 */
module JsText {

  /** WhiteSpace or LineTerminator: TAB, LF, VT, FF, CR, SPACE, NBSP, U+1680,
      U+2000..U+200A, LS, PS, U+202F, U+205F, U+3000 and the BOM U+FEFF. */
  predicate IsWhitespace(c: char) {
    var n := c as int;
    (9 <= n <= 13) || n == 0x20 || n == 0xA0 || n == 0x1680 || (0x2000 <= n <= 0x200A)
    || n == 0x2028 || n == 0x2029 || n == 0x202F || n == 0x205F || n == 0x3000 || n == 0xFEFF
  }

  predicate NoWhitespace(w: string) {
    forall i :: 0 <= i < |w| ==> !IsWhitespace(w[i])
  }

  predicate AllWhitespace(s: string) {
    forall i :: 0 <= i < |s| ==> IsWhitespace(s[i])
  }

  /** The length of the run of white space at the start of `s`. */
  function LeadingSpace(s: string): (n: nat)
    ensures n <= |s|
    ensures forall i :: 0 <= i < n ==> IsWhitespace(s[i])
    ensures n == |s| || !IsWhitespace(s[n])
  {
    if s != [] && IsWhitespace(s[0]) then 1 + LeadingSpace(s[1..]) else 0
  }

  /** The length of the run of white space at the end of `s`. */
  function TrailingSpace(s: string): (n: nat)
    ensures n <= |s|
    ensures forall i :: |s| - n <= i < |s| ==> IsWhitespace(s[i])
    ensures n == |s| || !IsWhitespace(s[|s| - n - 1])
  {
    if s != [] && IsWhitespace(s[|s| - 1]) then 1 + TrailingSpace(s[..|s| - 1]) else 0
  }

  /** `trimStart`: the suffix of `s` left after its leading white space. */
  function TrimStart(s: string): (r: string)
    ensures |r| <= |s| && r == s[|s| - |r|..]
    ensures r == [] || !IsWhitespace(r[0])
    ensures AllWhitespace(s[..|s| - |r|])
  {
    s[LeadingSpace(s)..]
  }

  /** `trimEnd`: the prefix of `s` left before its trailing white space. */
  function TrimEnd(s: string): (r: string)
    ensures |r| <= |s| && r == s[..|r|]
    ensures r == [] || !IsWhitespace(r[|r| - 1])
    ensures AllWhitespace(s[|r|..])
  {
    s[..|s| - TrailingSpace(s)]
  }

  /** `trim`. */
  function Trim(s: string): string {
    TrimEnd(TrimStart(s))
  }

  /** `s.trim()` is empty (falsy) exactly when `s` holds nothing but white space. */
  lemma TrimEmptyIffBlank(s: string)
    ensures Trim(s) == "" <==> AllWhitespace(s)
  {
    var t := TrimStart(s);
    if Trim(s) == "" {
      assert AllWhitespace(t[0..]);
      assert s == s[..|s| - |t|] + t;
    } else {
      var u := TrimEnd(t);
      assert !IsWhitespace(u[|u| - 1]);
      assert s[|s| - |t| + |u| - 1] == u[|u| - 1];
    }
  }

  /** What `split(/\s+/)` returns: at least one token, no token holds white
      space, and only the first and the last token can be empty. */
  predicate WellFormedTokens(t: seq<string>) {
    && |t| >= 1
    && (forall k :: 0 <= k < |t| ==> NoWhitespace(t[k]))
    && (forall k :: 0 < k < |t| - 1 ==> t[k] != "")
  }

  /** `s.split(/\s+/)`: cut at every maximal run of white space. A leading run
      yields an empty first token, a trailing run an empty last token. */
  function Split(s: string): (r: seq<string>)
    ensures |r| >= 1
    ensures r[0] == "" <==> s == "" || IsWhitespace(s[0])
    decreases |s|
  {
    if s == [] then [""]
    else if IsWhitespace(s[0]) then [""] + Split(TrimStart(s[1..]))
    else
      var t := Split(s[1..]);
      [[s[0]] + t[0]] + t[1..]
  }

  /** What `split` promises: every token is free of white space, and only the
      first and the last can be empty. */
  lemma {:induction false} SplitWellFormed(s: string)
    ensures WellFormedTokens(Split(s))
    decreases |s|
  {
    if s == [] {
    } else if IsWhitespace(s[0]) {
      SplitWellFormed(TrimStart(s[1..]));
      var u := Split(TrimStart(s[1..]));
      assert Split(s) == [""] + u;
      var r := Split(s);
      forall k | 0 < k < |r| - 1 ensures r[k] != "" {
        assert r[k] == u[k - 1];
        if k == 1 {
          assert TrimStart(s[1..]) != "";
        }
      }
    } else {
      SplitWellFormed(s[1..]);
      var t := Split(s[1..]);
      var r := Split(s);
      assert r == [[s[0]] + t[0]] + t[1..];
      forall k | 0 <= k < |r| ensures NoWhitespace(r[k]) {
        if k > 0 { assert r[k] == t[k]; }
      }
      forall k | 0 < k < |r| - 1 ensures r[k] != "" {
        assert r[k] == t[k];
      }
    }
  }

  /** Tokens with a separator between each two: `t[0] + gaps[0] + t[1] + …`. */
  function Weave(t: seq<string>, gaps: seq<string>): string
    decreases |t|
  {
    if |t| == 0 then ""
    else if |t| == 1 || |gaps| == 0 then t[0]
    else t[0] + gaps[0] + Weave(t[1..], gaps[1..])
  }

  /** The maximal runs of white space in `s`, in order: where `split` cuts. */
  function Gaps(s: string): seq<string>
    decreases |s|
  {
    if s == [] then []
    else if IsWhitespace(s[0]) then
      var rest := TrimStart(s[1..]);
      [s[..|s| - |rest|]] + Gaps(rest)
    else Gaps(s[1..])
  }

  /** `s` is the tokens `t` with the runs `g` between them: one run fewer than
      tokens, each run non-empty and nothing but white space. */
  predicate Weaves(s: string, t: seq<string>, g: seq<string>) {
    && |g| == |t| - 1
    && (forall k :: 0 <= k < |g| ==> g[k] != "" && AllWhitespace(g[k]))
    && Weave(t, g) == s
  }

  /** The text is its tokens with its white-space runs between them. With
      `SplitWellFormed` this fixes every token of `split`. */
  lemma {:induction false} SplitWeaves(s: string)
    ensures Weaves(s, Split(s), Gaps(s))
    decreases |s|
  {
    if s == [] {
      assert Weave([""], []) == "";
    } else if IsWhitespace(s[0]) {
      SplitWeaves(TrimStart(s[1..]));
      SplitWeavesSpace(s);
    } else {
      SplitWeaves(s[1..]);
      SplitWeavesWord(s);
    }
  }

  /** The step of `SplitWeaves` for text that starts with white space. */
  lemma {:induction false} SplitWeavesSpace(s: string)
    requires s != [] && IsWhitespace(s[0])
    requires var rest := TrimStart(s[1..]); Weaves(rest, Split(rest), Gaps(rest))
    ensures Weaves(s, Split(s), Gaps(s))
  {
    var rest := TrimStart(s[1..]);
    var run := s[..|s| - |rest|];
    LeadingRun(s);
    assert Split(s) == [""] + Split(rest);
    assert Gaps(s) == [run] + Gaps(rest);
    WeaveSpace(run, rest, Split(rest), Gaps(rest));
  }

  /** Text that starts with white space is its leading run followed by the
      rest that `trimStart` leaves. */
  lemma LeadingRun(s: string)
    requires s != [] && IsWhitespace(s[0])
    ensures var rest := TrimStart(s[1..]);
      var run := s[..|s| - |rest|];
      run != "" && AllWhitespace(run) && s == run + rest
  {
    var n := LeadingSpace(s[1..]);
    assert TrimStart(s[1..]) == s[n + 1..];
    var run := s[..n + 1];
    forall i | 0 <= i < |run| ensures IsWhitespace(run[i]) {
      if i > 0 { assert run[i] == s[1..][i - 1]; }
    }
    assert s == s[..n + 1] + s[n + 1..];
  }

  /** The step of `SplitWeaves` for text that starts with another character. */
  lemma {:induction false} SplitWeavesWord(s: string)
    requires s != [] && !IsWhitespace(s[0])
    requires Weaves(s[1..], Split(s[1..]), Gaps(s[1..]))
    ensures Weaves(s, Split(s), Gaps(s))
  {
    var t := Split(s[1..]);
    assert Split(s) == [[s[0]] + t[0]] + t[1..] && Gaps(s) == Gaps(s[1..]);
    assert s == [s[0]] + s[1..];
    WeaveWord(s[0], s[1..], t, Gaps(s[1..]));
  }

  /** A run of white space in front adds an empty first token and a first run. */
  lemma WeaveSpace(run: string, rest: string, u: seq<string>, h: seq<string>)
    requires run != "" && AllWhitespace(run) && Weaves(rest, u, h)
    ensures Weaves(run + rest, [""] + u, [run] + h)
  {
    var t := [""] + u;
    var g := [run] + h;
    assert t[0] == "" && t[1..] == u && g[0] == run && g[1..] == h;
    assert Weave(t, g) == "" + run + Weave(u, h);
    assert "" + run == run;
    forall k | 0 <= k < |g| ensures g[k] != "" && AllWhitespace(g[k]) {
      if k > 0 { assert g[k] == h[k - 1]; }
    }
  }

  /** A character that is not white space in front joins the first token. */
  lemma WeaveWord(c: char, rest: string, t: seq<string>, g: seq<string>)
    requires Weaves(rest, t, g)
    ensures Weaves([c] + rest, [[c] + t[0]] + t[1..], g)
  {
    WeaveHead([c], t, g);
  }

  /** A word glued onto the first token comes out in front of the weave. */
  lemma WeaveHead(w: string, t: seq<string>, gaps: seq<string>)
    requires |t| >= 1
    ensures Weave([w + t[0]] + t[1..], gaps) == w + Weave(t, gaps)
  {
    var t' := [w + t[0]] + t[1..];
    assert t'[0] == w + t[0] && t'[1..] == t[1..];
    if |t| > 1 && |gaps| > 0 {
      var rest := Weave(t[1..], gaps[1..]);
      assert (w + t[0]) + gaps[0] + rest == w + (t[0] + gaps[0] + rest);
    }
  }

  /** `tokens.join(" ")`. */
  function Join(t: seq<string>): string {
    if |t| == 0 then ""
    else if |t| == 1 then t[0]
    else t[0] + " " + Join(t[1..])
  }

  /** A word with no white space glues onto the first token of what follows it. */
  lemma {:induction false} SplitAfterWord(w: string, rest: string)
    requires NoWhitespace(w)
    ensures Split(w + rest) == [w + Split(rest)[0]] + Split(rest)[1..]
    decreases |w|
  {
    if w != [] {
      var sr := Split(rest);
      assert (w + rest)[0] == w[0] && !IsWhitespace(w[0]);
      assert (w + rest)[1..] == w[1..] + rest;
      SplitAfterWord(w[1..], rest);
      var t := Split(w[1..] + rest);
      assert t[0] == w[1..] + sr[0] && t[1..] == sr[1..];
      assert Split(w + rest) == [[w[0]] + t[0]] + t[1..];
      calc {
        [w[0]] + (w[1..] + sr[0]);
        ([w[0]] + w[1..]) + sr[0];
        { assert [w[0]] + w[1..] == w; }
        w + sr[0];
      }
    } else {
      var sr := Split(rest);
      assert w + rest == rest && w + sr[0] == sr[0];
      assert [sr[0]] + sr[1..] == sr;
    }
  }

  /** Splitting any text made of well-formed tokens and white-space runs gives
      the tokens back: with `SplitWeaves`, the tokens of `split` are exactly the
      maximal runs of text without white space. */
  lemma {:induction false} SplitOfWeave(t: seq<string>, g: seq<string>)
    requires WellFormedTokens(t) && Weaves(Weave(t, g), t, g)
    ensures Split(Weave(t, g)) == t
    decreases |t|
  {
    if |t| == 1 {
      SplitWord(t[0]);
    } else {
      TailWellFormed(t);
      TailWeaves(t, g);
      SplitOfWeave(t[1..], g[1..]);
      WeaveTailStart(t, g);
      SplitOfWeaveStep(t[0], g[0], Weave(t[1..], g[1..]), t[1..]);
      assert Weave(t, g) == t[0] + g[0] + Weave(t[1..], g[1..]);
      assert [t[0]] + t[1..] == t;
    }
  }

  /** Joining tokens with single spaces and splitting again gives the tokens back. */
  lemma SplitJoin(t: seq<string>)
    requires WellFormedTokens(t)
    ensures Split(Join(t)) == t
  {
    var spaces := seq(|t| - 1, _ => " ");
    JoinIsWeave(t, spaces);
    forall k | 0 <= k < |spaces| ensures spaces[k] != "" && AllWhitespace(spaces[k]) {
      assert spaces[k] == " ";
    }
    SplitOfWeave(t, spaces);
  }

  /** `join(" ")` weaves the tokens with single spaces. */
  lemma {:induction false} JoinIsWeave(t: seq<string>, spaces: seq<string>)
    requires |t| >= 1 && |spaces| == |t| - 1
    requires forall k :: 0 <= k < |spaces| ==> spaces[k] == " "
    ensures Join(t) == Weave(t, spaces)
    decreases |t|
  {
    if |t| > 1 {
      JoinIsWeave(t[1..], spaces[1..]);
    }
  }

  /** A word without white space splits into itself. */
  lemma SplitWord(w: string)
    requires NoWhitespace(w)
    ensures Split(w) == [w]
  {
    SplitAfterWord(w, "");
    assert w + "" == w;
    assert Split("") == [""];
  }

  /** The step of `SplitOfWeave`: a word, a run of white space and text that
      splits into `rest` split into the word followed by `rest`. */
  lemma SplitOfWeaveStep(w: string, run: string, j: string, rest: seq<string>)
    requires NoWhitespace(w) && run != "" && AllWhitespace(run)
    requires (j == "" || !IsWhitespace(j[0])) && Split(j) == rest
    ensures Split(w + run + j) == [w] + rest
  {
    var spaced := Split(run + j);
    SplitAfterRun(run, j);
    assert spaced[0] == "" && spaced[1..] == rest;
    SplitAfterWord(w, run + j);
    assert w + run + j == w + (run + j);
    assert w + "" == w;
  }

  /** Dropping the first of several well-formed tokens leaves well-formed tokens. */
  lemma TailWellFormed(t: seq<string>)
    requires WellFormedTokens(t) && |t| >= 2
    ensures WellFormedTokens(t[1..])
  {
    forall k | 0 < k < |t[1..]| - 1 ensures t[1..][k] != "" {
      assert t[1..][k] == t[k + 1];
    }
  }

  /** Dropping the first token and the first run leaves a weave of the rest. */
  lemma TailWeaves(t: seq<string>, g: seq<string>)
    requires Weaves(Weave(t, g), t, g) && |t| >= 2
    ensures Weaves(Weave(t[1..], g[1..]), t[1..], g[1..])
  {
    forall k | 0 <= k < |g[1..]| ensures g[1..][k] != "" && AllWhitespace(g[1..][k]) {
      assert g[1..][k] == g[k + 1];
    }
  }

  /** What follows the first run of a weave does not start with white space. */
  lemma WeaveTailStart(t: seq<string>, g: seq<string>)
    requires WellFormedTokens(t) && |t| >= 2 && |g| == |t| - 1
    ensures var j := Weave(t[1..], g[1..]); j == "" || !IsWhitespace(j[0])
  {
    var j := Weave(t[1..], g[1..]);
    if t[1] != "" {
      WeaveStartsWithHead(t[1..], g[1..]);
      assert j[0] == t[1][0];
      assert NoWhitespace(t[1]);
    } else {
      assert |t| == 2;
      assert t[1..] == [t[1]];
    }
  }

  /** A run of white space before text that does not start with white space
      adds an empty first token. */
  lemma SplitAfterRun(run: string, j: string)
    requires run != "" && AllWhitespace(run) && (j == "" || !IsWhitespace(j[0]))
    ensures Split(run + j) == [""] + Split(j)
  {
    var x := run + j;
    assert x[0] == run[0];
    assert x[1..] == run[1..] + j;
    TrimStartAfterRun(run[1..], j);
  }

  /** `trimStart` removes exactly a leading run of white space. */
  lemma TrimStartAfterRun(w: string, j: string)
    requires AllWhitespace(w) && (j == "" || !IsWhitespace(j[0]))
    ensures TrimStart(w + j) == j
  {
    var x := w + j;
    var r := TrimStart(x);
    assert r == x[|w|..];
  }

  /** A weave begins with its first token. */
  lemma WeaveStartsWithHead(t: seq<string>, g: seq<string>)
    requires |t| >= 1
    ensures |Weave(t, g)| >= |t[0]| && Weave(t, g)[..|t[0]|] == t[0]
  {
    if |t| > 1 && |g| > 0 {
      assert Weave(t, g) == t[0] + (g[0] + Weave(t[1..], g[1..]));
    }
  }

  /** A non-empty prefix of well-formed tokens is well-formed. */
  lemma PrefixWellFormed(t: seq<string>, n: nat)
    requires WellFormedTokens(t) && 1 <= n <= |t|
    ensures WellFormedTokens(t[..n])
  {
    forall k | 0 < k < n - 1 ensures t[..n][k] != "" {
      assert t[..n][k] == t[k];
    }
  }
}
