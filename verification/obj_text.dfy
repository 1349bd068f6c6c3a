/** The string operations the OBJ loader relies on, with JavaScript's
    meaning: `split('\n')`, `trim()`, `split(/\s+/)` and the `/^tag\s/` tests. */
module ObjText {

  /** The characters JavaScript's `\s` matches, which are also the ones
      `String.prototype.trim` removes. */
  predicate IsSpace(c: char)
  {
    || c == ' ' || c == '\t' || c == '\n' || c == '\r' || c == '\U{000B}' || c == '\U{000C}'
    || c == '\U{00A0}' || c == '\U{1680}' || ('\U{2000}' <= c <= '\U{200A}')
    || c == '\U{2028}' || c == '\U{2029}' || c == '\U{202F}' || c == '\U{205F}'
    || c == '\U{3000}' || c == '\U{FEFF}'
  }

  // ---------------------------------------------------------------- split('\n')

  /** The index of the first `'\n'` at or after `i`, or `|s|` when there is none. */
  function NextNewline(s: string, i: nat): (k: nat)
    requires i <= |s|
    ensures i <= k <= |s|
    ensures forall m :: i <= m < k ==> s[m] != '\n'
    ensures k < |s| ==> s[k] == '\n'
    decreases |s| - i
  {
    if i == |s| || s[i] == '\n' then i else NextNewline(s, i + 1)
  }

  /** `s.split('\n')`: the pieces between newlines, empty ones included. */
  function SplitLines(s: string): (r: seq<string>)
    ensures |r| >= 1
    ensures forall n :: 0 <= n < |r| ==> '\n' !in r[n]
    decreases |s|
  {
    var k := NextNewline(s, 0);
    if k == |s| then [s] else [s[..k]] + SplitLines(s[k + 1..])
  }

  /** `lines.join('\n')`. */
  function JoinLines(lines: seq<string>): string
    requires |lines| >= 1
  {
    if |lines| == 1 then lines[0] else lines[0] + "\n" + JoinLines(lines[1..])
  }

  /** Splitting loses nothing: joining the pieces gives the text back. */
  lemma {:induction false} JoinSplit(s: string)
    ensures JoinLines(SplitLines(s)) == s
    decreases |s|
  {
    var k := NextNewline(s, 0);
    if k < |s| {
      JoinSplit(s[k + 1..]);
      assert s == s[..k] + "\n" + s[k + 1..];
    }
  }

  /** Joining lines that hold no newline and splitting again gives the same
      lines. */
  lemma {:induction false} SplitJoin(lines: seq<string>)
    requires |lines| >= 1
    requires forall n :: 0 <= n < |lines| ==> '\n' !in lines[n]
    ensures SplitLines(JoinLines(lines)) == lines
    decreases |lines|
  {
    var s := JoinLines(lines);
    if |lines| == 1 {
      assert NextNewline(s, 0) == |s|;
    } else {
      var head := lines[0];
      var rest := JoinLines(lines[1..]);
      assert s == head + "\n" + rest;
      Parts(head, "\n", rest);
      NewlineAt(s, head);
      SplitJoin(lines[1..]);
    }
  }

  lemma NewlineAt(s: string, head: string)
    requires |head| < |s| && s[|head|] == '\n' && '\n' !in head
    requires forall m :: 0 <= m < |head| ==> s[m] == head[m]
    ensures NextNewline(s, 0) == |head|
  {
  }

  // ---------------------------------------------------------------- trim()

  /** `s[lo..hi]` is all whitespace. */
  predicate AllSpace(s: string, lo: int, hi: int)
    requires 0 <= lo && hi <= |s|
  {
    forall m :: lo <= m < hi ==> IsSpace(s[m])
  }

  /** Scanning back from `j`, not below `lo`: the end of the last
      non-whitespace character, or `lo`. */
  function SkipSpacesBack(s: string, lo: nat, j: nat): (k: nat)
    requires lo <= j <= |s|
    ensures lo <= k <= j
    ensures AllSpace(s, k, j)
    ensures k > lo ==> !IsSpace(s[k - 1])
    decreases j
  {
    if j == lo || !IsSpace(s[j - 1]) then j else SkipSpacesBack(s, lo, j - 1)
  }

  /** `s.trim()`: the text between the leading and the trailing whitespace. */
  function Trim(s: string): string
  {
    var i := SkipSpaces(s, 0);
    s[i..SkipSpacesBack(s, i, |s|)]
  }

  /** No whitespace at either end. */
  predicate Trimmed(t: string)
  {
    t == [] || (!IsSpace(t[0]) && !IsSpace(t[|t| - 1]))
  }

  /** `trim` takes off exactly the whitespace at both ends: what it returns is
      a slice of `s` with no whitespace at either end, and everything before
      and after that slice is whitespace. */
  lemma TrimSlice(s: string)
    ensures exists i, k :: 0 <= i <= k <= |s| && Trim(s) == s[i..k] && AllSpace(s, 0, i) && AllSpace(s, k, |s|)
    ensures Trimmed(Trim(s))
  {
    var i := SkipSpaces(s, 0);
    var k := SkipSpacesBack(s, i, |s|);
    var t := s[i..k];
    if t != [] {
      assert t[0] == s[i] && t[|t| - 1] == s[k - 1];
    }
    assert Trim(s) == s[i..k] && AllSpace(s, 0, i) && AllSpace(s, k, |s|);
  }

  /** Trimming a trimmed string changes nothing. */
  lemma TrimTrimmed(t: string)
    requires Trimmed(t)
    ensures Trim(t) == t
  {
    if t != [] {
      assert SkipSpaces(t, 0) == 0;
      assert SkipSpacesBack(t, 0, |t|) == |t|;
    }
  }

  // ---------------------------------------------------------------- split(/\s+/)

  /** The index of the first whitespace character at or after `i`, or `|s|`. */
  function NextSpace(s: string, i: nat): (k: nat)
    requires i <= |s|
    ensures i <= k <= |s|
    ensures forall m :: i <= m < k ==> !IsSpace(s[m])
    ensures k < |s| ==> IsSpace(s[k])
    decreases |s| - i
  {
    if i == |s| || IsSpace(s[i]) then i else NextSpace(s, i + 1)
  }

  /** The index of the first non-whitespace character at or after `i`, or `|s|`. */
  function SkipSpaces(s: string, i: nat): (k: nat)
    requires i <= |s|
    ensures i <= k <= |s|
    ensures AllSpace(s, i, k)
    ensures k < |s| ==> !IsSpace(s[k])
    decreases |s| - i
  {
    if i == |s| || !IsSpace(s[i]) then i else SkipSpaces(s, i + 1)
  }

  /** `s.split(/\s+/)`: the pieces between maximal runs of whitespace. */
  function SplitWords(s: string): (r: seq<string>)
    ensures |r| >= 1
    ensures forall n :: 0 <= n < |r| ==> forall m :: 0 <= m < |r[n]| ==> !IsSpace(r[n][m])
    decreases |s|
  {
    var k := NextSpace(s, 0);
    if k == |s| then [s] else [s[..k]] + SplitWords(s[SkipSpaces(s, k)..])
  }

  /** On a trimmed line that is not empty, no piece is empty. */
  lemma {:induction false} WordsNonEmpty(t: string)
    requires Trimmed(t) && t != []
    ensures forall n :: 0 <= n < |SplitWords(t)| ==> SplitWords(t)[n] != []
    decreases |t|
  {
    var k := NextSpace(t, 0);
    if k < |t| {
      var m := SkipSpaces(t, k);
      assert m < |t|;
      var rest := t[m..];
      assert rest[|rest| - 1] == t[|t| - 1];
      WordsNonEmpty(rest);
    }
  }

  /** The whitespace runs between the pieces of `SplitWords(s)`. */
  function Gaps(s: string): seq<string>
    decreases |s|
  {
    var k := NextSpace(s, 0);
    if k == |s| then [] else [s[k..SkipSpaces(s, k)]] + Gaps(s[SkipSpaces(s, k)..])
  }

  /** The pieces put back together with the given runs between them. */
  function JoinWords(words: seq<string>, gaps: seq<string>): string
    requires |words| == |gaps| + 1
    decreases |gaps|
  {
    if gaps == [] then words[0] else words[0] + gaps[0] + JoinWords(words[1..], gaps[1..])
  }

  predicate Word(w: string)
  {
    forall m :: 0 <= m < |w| ==> !IsSpace(w[m])
  }

  predicate Gap(g: string)
  {
    g != [] && forall m :: 0 <= m < |g| ==> IsSpace(g[m])
  }

  /** The shape of a `split(/\s+/)` result: pieces without whitespace, none
      empty except the first and the last (the empty strings JavaScript gives
      for leading and trailing whitespace), separated by non-empty runs of
      whitespace. */
  predicate Words(words: seq<string>, gaps: seq<string>)
  {
    && |words| == |gaps| + 1
    && (forall n :: 0 <= n < |words| ==> Word(words[n]))
    && (forall n :: 0 < n < |words| - 1 ==> words[n] != [])
    && (forall n :: 0 <= n < |gaps| ==> Gap(gaps[n]))
  }

  /** The pieces of `s` are its maximal runs of non-whitespace, in order:
      with the runs of whitespace between them they make up `s` again. */
  lemma {:induction false} JoinSplitWords(s: string)
    ensures Words(SplitWords(s), Gaps(s))
    ensures JoinWords(SplitWords(s), Gaps(s)) == s
    decreases |s|
  {
    var k := NextSpace(s, 0);
    if k < |s| {
      var m := SkipSpaces(s, k);
      var rest := s[m..];
      JoinSplitWords(rest);
      var ws, gs := SplitWords(rest), Gaps(rest);
      assert SplitWords(s) == [s[..k]] + ws && Gaps(s) == [s[k..m]] + gs;
      if |ws| >= 2 {
        assert NextSpace(rest, 0) > 0;
      }
      WordsCons(s[..k], s[k..m], ws, gs);
      ThreeSlices(s, k, m);
    }
  }

  lemma ThreeSlices(s: string, k: nat, m: nat)
    requires k <= m <= |s|
    ensures s[..k] + s[k..m] + s[m..] == s
  {
  }

  /** A piece and a run put in front of a split keep its shape and its join. */
  lemma WordsCons(w: string, g: string, ws: seq<string>, gs: seq<string>)
    requires Word(w) && Gap(g) && Words(ws, gs)
    requires |ws| >= 2 ==> ws[0] != []
    ensures Words([w] + ws, [g] + gs)
    ensures JoinWords([w] + ws, [g] + gs) == w + g + JoinWords(ws, gs)
  {
    assert ([w] + ws)[1..] == ws && ([g] + gs)[1..] == gs;
  }

  /** Splitting pieces joined by whitespace runs gives the pieces and the runs
      back. */
  lemma {:induction false} SplitJoinWords(words: seq<string>, gaps: seq<string>)
    requires Words(words, gaps)
    ensures SplitWords(JoinWords(words, gaps)) == words
    ensures Gaps(JoinWords(words, gaps)) == gaps
    decreases |gaps|
  {
    if gaps == [] {
      SplitSingle(words[0]);
    } else {
      WordsTail(words, gaps);
      JoinFirst(words[1..], gaps[1..]);
      SplitCons(words[0], gaps[0], JoinWords(words[1..], gaps[1..]));
      SplitJoinWords(words[1..], gaps[1..]);
      assert words == [words[0]] + words[1..] && gaps == [gaps[0]] + gaps[1..];
    }
  }

  lemma SplitSingle(w: string)
    requires Word(w)
    ensures SplitWords(w) == [w] && Gaps(w) == []
  {
    NextSpaceAt(w, 0, |w|);
  }

  /** A piece, a run and the rest split into the piece and the split of the
      rest. */
  lemma SplitCons(w: string, g: string, rest: string)
    requires Word(w) && Gap(g) && (rest == [] || !IsSpace(rest[0]))
    ensures SplitWords(w + g + rest) == [w] + SplitWords(rest)
    ensures Gaps(w + g + rest) == [g] + Gaps(rest)
  {
    JoinCons(w, g, rest);
  }

  lemma WordsTail(words: seq<string>, gaps: seq<string>)
    requires Words(words, gaps) && gaps != []
    ensures Words(words[1..], gaps[1..])
    ensures words[1] != [] || gaps[1..] == []
  {
  }

  /** Where a piece and the run after it end in `w + g + rest`. */
  lemma JoinCons(w: string, g: string, rest: string)
    requires Word(w) && Gap(g) && (rest == [] || !IsSpace(rest[0]))
    ensures var s := w + g + rest;
      && NextSpace(s, 0) == |w| && SkipSpaces(s, |w|) == |w| + |g|
      && s[..|w|] == w && s[|w|..|w| + |g|] == g && s[|w| + |g|..] == rest
  {
    var s := w + g + rest;
    Parts(w, g, rest);
    NextSpaceAt(s, 0, |w|);
    SkipSpacesAt(s, |w|, |w| + |g|);
  }

  /** Indexing and slicing a text made of three parts. */
  lemma Parts(a: string, b: string, c: string)
    ensures var s := a + b + c;
      && (forall m :: 0 <= m < |a| ==> s[m] == a[m])
      && (forall m :: |a| <= m < |a| + |b| ==> s[m] == b[m - |a|])
      && (c != [] ==> s[|a| + |b|] == c[0])
      && s[..|a|] == a && s[|a|..|a| + |b|] == b && s[|a| + |b|..] == c
  {
  }

  /** A join whose first piece is not empty, or that is a single piece,
      does not start with whitespace. */
  lemma JoinFirst(words: seq<string>, gaps: seq<string>)
    requires Words(words, gaps)
    requires words[0] != [] || gaps == []
    ensures JoinWords(words, gaps) == [] || !IsSpace(JoinWords(words, gaps)[0])
  {
    if gaps != [] {
      assert JoinWords(words, gaps)[0] == words[0][0];
    }
  }

  lemma NextSpaceAt(s: string, i: nat, j: nat)
    requires i <= j <= |s|
    requires forall m :: i <= m < j ==> !IsSpace(s[m])
    requires j < |s| ==> IsSpace(s[j])
    ensures NextSpace(s, i) == j
    decreases j - i
  {
    if i < j {
      NextSpaceAt(s, i + 1, j);
    }
  }

  lemma SkipSpacesAt(s: string, i: nat, j: nat)
    requires i <= j <= |s|
    requires forall m :: i <= m < j ==> IsSpace(s[m])
    requires j < |s| ==> !IsSpace(s[j])
    ensures SkipSpaces(s, i) == j
    decreases j - i
  {
    if i < j {
      SkipSpacesAt(s, i + 1, j);
    }
  }

  /** `/^tag\s/.test(t)`. */
  predicate HasTag(t: string, tag: string)
  {
    |t| > |tag| && t[..|tag|] == tag && IsSpace(t[|tag|])
  }
}
