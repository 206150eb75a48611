/** The string operations the agents rely on: Python's `str.isspace`,
    `str.strip`, `str.split()` (no argument), `str.lower` restricted to
    ASCII and `str.startswith`; and `Join`, words joined by single spaces,
    the reference against which the streamed reply is stated. */
module Text {

  /** Python's `str.isspace` for one character: the code points that Python
      treats as whitespace when it strips or splits a string. */
  predicate IsSpace(c: char) {
    var n := c as int;
    || (0x09 <= n <= 0x0D) || (0x1C <= n <= 0x20)
    || n == 0x85 || n == 0xA0 || n == 0x1680
    || (0x2000 <= n <= 0x200A)
    || n == 0x2028 || n == 0x2029 || n == 0x202F || n == 0x205F || n == 0x3000
  }

  /** A token that `split()` can produce: non-empty and free of whitespace. */
  predicate IsWord(w: string) {
    w != [] && forall i :: 0 <= i < |w| ==> !IsSpace(w[i])
  }

  /** A sequence of tokens that `split()` can produce. */
  predicate AllWords(words: seq<string>) {
    forall i :: 0 <= i < |words| ==> IsWord(words[i])
  }

  /** ASCII case folding of one character. */
  function LowerChar(c: char): (d: char)
    ensures 'A' <= c <= 'Z' ==> 'a' <= d <= 'z' && d as int == c as int + 32
    ensures !('A' <= c <= 'Z') ==> d == c
  {
    if 'A' <= c <= 'Z' then (c as int + 32) as char else c
  }

  /** `s.lower()`, folding only ASCII letters. */
  function Lower(s: string): (r: string)
    ensures |r| == |s|
  {
    if s == [] then [] else [LowerChar(s[0])] + Lower(s[1..])
  }

  /** `lower` works character by character. */
  lemma {:induction false} LowerAt(s: string, i: nat)
    requires i < |s|
    ensures Lower(s)[i] == LowerChar(s[i])
  {
    if i > 0 {
      LowerAt(s[1..], i - 1);
    }
  }

  /** Lower-casing twice is lower-casing once. */
  lemma {:induction false} LowerIdempotent(s: string)
    ensures Lower(Lower(s)) == Lower(s)
  {
    if s != [] {
      var r := Lower(s);
      assert r == [LowerChar(s[0])] + Lower(s[1..]);
      assert r[1..] == Lower(s[1..]);
      LowerIdempotent(s[1..]);
    }
  }

  predicate StartsWith(s: string, prefix: string) {
    |prefix| <= |s| && s[..|prefix|] == prefix
  }

  predicate EndsWith(s: string, suffix: string) {
    |suffix| <= |s| && s[|s| - |suffix|..] == suffix
  }

  /** `s.lstrip()`: drops exactly the leading run of whitespace. */
  function TrimLeft(s: string): (r: string)
    ensures |r| <= |s| && r == s[|s| - |r|..]
    ensures forall i :: 0 <= i < |s| - |r| ==> IsSpace(s[i])
    ensures r == [] || !IsSpace(r[0])
  {
    if s != [] && IsSpace(s[0]) then TrimLeft(s[1..]) else s
  }

  /** `s.rstrip()`: drops exactly the trailing run of whitespace. */
  function TrimRight(s: string): (r: string)
    ensures |r| <= |s| && r == s[..|r|]
    ensures forall i :: |r| <= i < |s| ==> IsSpace(s[i])
    ensures r == [] || !IsSpace(r[|r| - 1])
  {
    if s != [] && IsSpace(s[|s| - 1]) then TrimRight(s[..|s| - 1]) else s
  }

  /** `s.strip()`: the result neither starts nor ends with whitespace;
      `StripRemovesOuterWhitespace` shows that it is the input with exactly
      its outer whitespace removed. */
  function Strip(s: string): (r: string)
    ensures r == [] || (!IsSpace(r[0]) && !IsSpace(r[|r| - 1]))
    ensures |r| <= |s|
  {
    TrimLeft(TrimRight(s))
  }

  /** `strip()` removes whitespace and nothing else, and only at the ends:
      the result is a slice of the input with only whitespace before and
      after it. */
  lemma StripRemovesOuterWhitespace(s: string)
    ensures var r := Strip(s);
            exists a, b :: 0 <= a <= b <= |s| && r == s[a..b] &&
              (forall i :: 0 <= i < a ==> IsSpace(s[i])) && (forall i :: b <= i < |s| ==> IsSpace(s[i]))
  {
    var right := TrimRight(s);
    var r := TrimLeft(right);
    var a, b := |right| - |r|, |right|;
    assert right == s[..b];
    assert r == s[a..b];
    forall i | 0 <= i < a
      ensures IsSpace(s[i])
    {
      assert s[i] == right[i];
    }
  }

  /** Stripping a string that already starts and ends with non-whitespace
      leaves it unchanged. */
  lemma StripStripped(s: string)
    requires s == [] || (!IsSpace(s[0]) && !IsSpace(s[|s| - 1]))
    ensures Strip(s) == s
  {
  }

  /** The length of the leading run of non-whitespace characters. */
  function WordLength(s: string): (n: nat)
    ensures n <= |s|
    ensures forall i :: 0 <= i < n ==> !IsSpace(s[i])
    ensures n < |s| ==> IsSpace(s[n])
  {
    if s == [] || IsSpace(s[0]) then 0 else 1 + WordLength(s[1..])
  }

  /** `s.split()`: the maximal runs of non-whitespace characters, in order.
      Every token it yields is a word. */
  function Split(s: string): (words: seq<string>)
    ensures AllWords(words)
    decreases |s|
  {
    var t := TrimLeft(s);
    if t == [] then []
    else
      var n := WordLength(t);
      assert n > 0 && IsWord(t[..n]);
      AllWordsCons(t[..n], Split(t[n..]));
      [t[..n]] + Split(t[n..])
  }

  /** A word in front of words gives words. */
  lemma AllWordsCons(w: string, words: seq<string>)
    requires IsWord(w) && AllWords(words)
    ensures AllWords([w] + words)
  {
    forall i | 0 <= i < |[w] + words|
      ensures IsWord(([w] + words)[i])
    {
      if i > 0 {
        assert ([w] + words)[i] == words[i - 1];
      }
    }
  }

  /** The words after the first are words. */
  lemma AllWordsTail(words: seq<string>)
    requires words != [] && AllWords(words)
    ensures IsWord(words[0]) && AllWords(words[1..])
  {
    forall i | 0 <= i < |words| - 1
      ensures IsWord(words[1..][i])
    {
      assert words[1..][i] == words[i + 1];
    }
  }

  /** The characters of `s` that are not whitespace, in order. */
  function NonSpace(s: string): string {
    if s == [] then []
    else if IsSpace(s[0]) then NonSpace(s[1..])
    else [s[0]] + NonSpace(s[1..])
  }

  /** The concatenation of a sequence of strings. */
  function Concat(parts: seq<string>): string {
    if parts == [] then "" else parts[0] + Concat(parts[1..])
  }

  /** `" ".join(words)`. */
  function Join(words: seq<string>): string {
    if |words| == 0 then ""
    else if |words| == 1 then words[0]
    else words[0] + " " + Join(words[1..])
  }

  lemma {:induction false} ConcatSnoc(parts: seq<string>, last: string)
    ensures Concat(parts + [last]) == Concat(parts) + last
  {
    if parts != [] {
      assert (parts + [last])[1..] == parts[1..] + [last];
      ConcatSnoc(parts[1..], last);
    }
  }

  /** Dropping leading whitespace keeps the non-whitespace characters. */
  lemma {:induction false} NonSpaceTrimLeft(s: string)
    ensures NonSpace(TrimLeft(s)) == NonSpace(s)
  {
    if s != [] && IsSpace(s[0]) {
      NonSpaceTrimLeft(s[1..]);
    }
  }

  /** The non-whitespace characters of a string are its first word followed
      by those of the remainder. */
  lemma {:induction false} NonSpaceFirstWord(t: string)
    ensures var n := WordLength(t); NonSpace(t) == t[..n] + NonSpace(t[n..])
  {
    if t != [] && !IsSpace(t[0]) {
      var n := WordLength(t);
      NonSpaceFirstWord(t[1..]);
      assert t[1..][..n - 1] == t[1..n];
      assert t[1..][n - 1..] == t[n..];
      assert t[..n] == [t[0]] + t[1..n];
    }
  }

  /** `split()` loses nothing but whitespace: gluing its tokens back together
      gives the non-whitespace characters of the input, in order. */
  lemma {:induction false} SplitKeepsNonSpace(s: string)
    ensures Concat(Split(s)) == NonSpace(s)
    decreases |s|
  {
    var t := TrimLeft(s);
    NonSpaceTrimLeft(s);
    if t != [] {
      var n := WordLength(t);
      var word, rest := t[..n], t[n..];
      NonSpaceFirstWord(t);
      SplitKeepsNonSpace(rest);
      var tail := Split(rest);
      assert Split(s) == [word] + tail;
      assert ([word] + tail)[1..] == tail;
    }
  }

  /** A string with a non-whitespace character after its first word has a
      second token. */
  lemma SplitHasSecondWord(s: string, j: nat)
    requires s != [] && !IsSpace(s[0])
    requires WordLength(s) < j < |s| && !IsSpace(s[j])
    ensures |Split(s)| >= 2
  {
    var n := WordLength(s);
    assert TrimLeft(s) == s;
    var rest := s[n..];
    assert !IsSpace(rest[j - n]);
    assert TrimLeft(rest) != [];
  }

  /** A string made only of whitespace. */
  predicate AllSpace(g: string) {
    forall i :: 0 <= i < |g| ==> IsSpace(g[i])
  }

  /** Every one of `gaps` is whitespace only. */
  predicate AllGapsSpace(gaps: seq<string>) {
    forall i :: 0 <= i < |gaps| ==> AllSpace(gaps[i])
  }

  /** The string made of `gaps[0]`, `words[0]`, `gaps[1]`, ..., the last
      word and the last gap. */
  function Weave(gaps: seq<string>, words: seq<string>): string
    requires |gaps| == |words| + 1
  {
    if words == [] then gaps[0] else gaps[0] + words[0] + Weave(gaps[1..], words[1..])
  }

  /** The whitespace runs `split()` discards: the one before each token and
      the one after the last. */
  function SplitGaps(s: string): seq<string>
    decreases |s|
  {
    var t := TrimLeft(s);
    var lead := s[..|s| - |t|];
    if t == [] then [lead]
    else
      var n := WordLength(t);
      assert n > 0;
      [lead] + SplitGaps(t[n..])
  }

  /** `split()` loses nothing: the input is its tokens interleaved with the
      whitespace runs between them. */
  lemma {:induction false} SplitWeavesBack(s: string)
    ensures |SplitGaps(s)| == |Split(s)| + 1
    ensures Weave(SplitGaps(s), Split(s)) == s
    decreases |s|
  {
    var t := TrimLeft(s);
    if t == [] {
      assert s[..|s| - |t|] == s;
      assert SplitGaps(s) == [s] && Split(s) == [];
    } else {
      var n := WordLength(t);
      var rest := t[n..];
      SplitWeavesBack(rest);
      var lead := s[..|s| - |t|];
      assert SplitGaps(s) == [lead] + SplitGaps(rest);
      assert Split(s) == [t[..n]] + Split(rest);
      WeaveCons(lead, t[..n], SplitGaps(rest), Split(rest));
      WeaveParts(s, lead, t, n);
    }
  }

  lemma WeaveParts(s: string, lead: string, t: string, n: nat)
    requires |t| <= |s| && t == s[|s| - |t|..] && lead == s[..|s| - |t|] && n <= |t|
    ensures lead + t[..n] + t[n..] == s
  {
    assert t[..n] + t[n..] == t;
    assert lead + t == s;
  }

  lemma WeaveCons(gap: string, word: string, gaps: seq<string>, words: seq<string>)
    requires |gaps| == |words| + 1
    ensures Weave([gap] + gaps, [word] + words) == gap + word + Weave(gaps, words)
  {
    assert ([gap] + gaps)[1..] == gaps && ([word] + words)[1..] == words;
  }

  /** The whitespace runs `split()` discards are whitespace only. */
  lemma {:induction false} GapsAreSpace(s: string)
    ensures AllGapsSpace(SplitGaps(s))
    decreases |s|
  {
    var t := TrimLeft(s);
    LeadIsSpace(s, t);
    if t != [] {
      var n := WordLength(t);
      GapsAreSpace(t[n..]);
      SplitGapsCons(s, t, n);
      AllSpaceCons(s[..|s| - |t|], SplitGaps(t[n..]));
    }
  }

  /** One step of `SplitGaps`: the leading run, then the runs after the
      first word. */
  lemma SplitGapsCons(s: string, t: string, n: nat)
    requires t == TrimLeft(s) && t != [] && n == WordLength(t)
    ensures SplitGaps(s) == [s[..|s| - |t|]] + SplitGaps(t[n..])
  {
  }

  /** What `lstrip()` drops is whitespace. */
  lemma LeadIsSpace(s: string, t: string)
    requires t == TrimLeft(s)
    ensures AllSpace(s[..|s| - |t|])
  {
    var lead := s[..|s| - |t|];
    forall i | 0 <= i < |lead|
      ensures IsSpace(lead[i])
    {
      assert lead[i] == s[i];
    }
  }

  lemma AllSpaceCons(gap: string, gaps: seq<string>)
    requires AllSpace(gap) && AllGapsSpace(gaps)
    ensures AllGapsSpace([gap] + gaps)
  {
    forall i | 0 <= i < |[gap] + gaps|
      ensures AllSpace(([gap] + gaps)[i])
    {
      if i > 0 {
        assert ([gap] + gaps)[i] == gaps[i - 1];
      }
    }
  }

  /** There is one whitespace run more than there are tokens. */
  lemma {:induction false} SplitGapsLength(s: string)
    ensures |SplitGaps(s)| == |Split(s)| + 1
    decreases |s|
  {
    var t := TrimLeft(s);
    if t != [] {
      var n := WordLength(t);
      SplitGapsLength(t[n..]);
    }
  }

  /** Between two tokens of `split()` there is at least one whitespace
      character. */
  lemma {:induction false} InnerGapsNonEmpty(s: string)
    ensures |SplitGaps(s)| == |Split(s)| + 1
    ensures forall i :: 0 < i < |Split(s)| ==> SplitGaps(s)[i] != []
    decreases |s|
  {
    SplitGapsLength(s);
    var t := TrimLeft(s);
    if t != [] {
      var n := WordLength(t);
      var rest := t[n..];
      InnerGapsNonEmpty(rest);
      assert SplitGaps(s) == [s[..|s| - |t|]] + SplitGaps(rest);
      assert |Split(s)| == 1 + |Split(rest)|;
      if Split(rest) != [] {
        assert rest != [];
        GapAfterWord(rest);
      }
      InnerNonEmptyCons(s[..|s| - |t|], SplitGaps(rest), |Split(rest)|);
    }
  }

  lemma InnerNonEmptyCons(gap: string, gaps: seq<string>, k: nat)
    requires |gaps| == k + 1
    requires forall i :: 0 < i < k ==> gaps[i] != []
    requires k > 0 ==> gaps[0] != []
    ensures forall i :: 0 < i < k + 1 ==> ([gap] + gaps)[i] != []
  {
    forall i | 0 < i < k + 1
      ensures ([gap] + gaps)[i] != []
    {
      assert ([gap] + gaps)[i] == gaps[i - 1];
    }
  }

  /** After a word, the next whitespace run is not empty. */
  lemma GapAfterWord(r: string)
    requires r != [] && IsSpace(r[0])
    ensures SplitGaps(r)[0] != []
  {
    assert TrimLeft(r) == TrimLeft(r[1..]);
  }

  /** The tokens of `split()` are exactly the maximal runs of
      non-whitespace: the input is the tokens interleaved with runs of
      whitespace, and every run between two tokens is non-empty. */
  lemma SplitIsWhitespaceSeparated(s: string)
    ensures |SplitGaps(s)| == |Split(s)| + 1
    ensures AllGapsSpace(SplitGaps(s))
    ensures forall i :: 0 < i < |Split(s)| ==> SplitGaps(s)[i] != []
    ensures Weave(SplitGaps(s), Split(s)) == s
  {
    SplitWeavesBack(s);
    GapsAreSpace(s);
    InnerGapsNonEmpty(s);
  }

  /** A word followed by whitespace or by nothing: the leading run of
      non-whitespace is exactly the word. */
  lemma {:induction false} WordLengthOfWord(w: string, tail: string)
    requires IsWord(w)
    requires tail == [] || IsSpace(tail[0])
    ensures WordLength(w + tail) == |w|
    decreases |w|
  {
    assert (w + tail)[0] == w[0];
    if |w| == 1 {
      assert (w + tail)[1..] == tail;
    } else {
      assert (w + tail)[1..] == w[1..] + tail;
      assert IsWord(w[1..]) by {
        forall i | 0 <= i < |w| - 1
          ensures !IsSpace(w[1..][i])
        {
          assert w[1..][i] == w[i + 1];
        }
      }
      WordLengthOfWord(w[1..], tail);
    }
  }

  /** A word followed by whitespace or by nothing is the first token. */
  lemma SplitWordThen(w: string, tail: string)
    requires IsWord(w)
    requires tail == [] || IsSpace(tail[0])
    ensures Split(w + tail) == [w] + Split(tail)
  {
    var s := w + tail;
    WordLengthOfWord(w, tail);
    assert s[0] == w[0];
    assert TrimLeft(s) == s;
    assert s[..|w|] == w && s[|w|..] == tail;
  }

  /** Leading whitespace does not change the tokens. */
  lemma SplitSkipsSpace(c: char, x: string)
    requires IsSpace(c)
    ensures Split([c] + x) == Split(x)
  {
    assert ([c] + x)[1..] == x;
    assert TrimLeft([c] + x) == TrimLeft(x);
  }

  /** A word, a space, and anything: the word is the first token and the
      rest are the tokens of what follows. */
  lemma SplitJoinStep(w: string, rest: string)
    requires IsWord(w)
    ensures Split(w + " " + rest) == [w] + Split(rest)
  {
    assert w + " " + rest == w + (" " + rest);
    SplitWordThen(w, " " + rest);
    SplitSkipsSpace(' ', rest);
  }

  /** Joining two or more words: the first, a space, then the others joined. */
  lemma SplitJoinCons(words: seq<string>)
    requires |words| > 1 && IsWord(words[0])
    ensures Split(Join(words)) == [words[0]] + Split(Join(words[1..]))
  {
    SplitJoinStep(words[0], Join(words[1..]));
  }

  /** A single word splits to itself. */
  lemma SplitOneWord(words: seq<string>)
    requires |words| == 1 && IsWord(words[0])
    ensures Split(Join(words)) == words
  {
    assert Join(words) == words[0] + [];
    SplitWordThen(words[0], []);
  }

  /** `split()` undoes `" ".join` on words: joining whitespace-free,
      non-empty words by single spaces and splitting gives them back. */
  lemma {:induction false} SplitJoin(words: seq<string>)
    requires AllWords(words)
    ensures Split(Join(words)) == words
  {
    if words != [] {
      AllWordsTail(words);
      if |words| == 1 {
        SplitOneWord(words);
      } else {
        SplitJoinCons(words);
        SplitJoin(words[1..]);
        assert [words[0]] + words[1..] == words;
      }
    }
  }
}
