/** The JavaScript string operations the core uses: `trim`, `startsWith`,
    `includes`, `split` on a character or on runs of whitespace, and `join`.
    Strings are sequences of `char`; JavaScript counts UTF-16 code units. */
module Text {

  /** The characters that `String.prototype.trim` removes and that the regular
      expression class `\s` matches: WhiteSpace and LineTerminator of ECMAScript. */
  predicate IsWhitespace(c: char) {
    c == ' ' || c == '\t' || c == '\n' || c == '\r' || c == '\U{000B}' || c == '\U{000C}'
    || c == '\U{00A0}' || c == '\U{1680}' || ('\U{2000}' <= c <= '\U{200A}')
    || c == '\U{2028}' || c == '\U{2029}' || c == '\U{202F}' || c == '\U{205F}'
    || c == '\U{3000}' || c == '\U{FEFF}'
  }

  predicate AllWhitespace(s: string) {
    forall k :: 0 <= k < |s| ==> IsWhitespace(s[k])
  }

  predicate NoWhitespace(s: string) {
    forall k :: 0 <= k < |s| ==> !IsWhitespace(s[k])
  }

  /** The length of the whitespace run at the start of `s`. */
  function LeadingSpace(s: string): (n: nat)
    ensures n <= |s|
    ensures forall k :: 0 <= k < n ==> IsWhitespace(s[k])
    ensures n < |s| ==> !IsWhitespace(s[n])
  {
    if s == [] || !IsWhitespace(s[0]) then 0 else 1 + LeadingSpace(s[1..])
  }

  /** The length of `s` without the whitespace run at its end. */
  function TrailingStart(s: string): (n: nat)
    ensures n <= |s|
    ensures forall k :: n <= k < |s| ==> IsWhitespace(s[k])
    ensures n > 0 ==> !IsWhitespace(s[n - 1])
  {
    if s == [] || !IsWhitespace(s[|s| - 1]) then |s| else TrailingStart(s[..|s| - 1])
  }

  /** `s` with its leading whitespace run removed. */
  function TrimStart(s: string): string {
    s[LeadingSpace(s)..]
  }

  /** `String.prototype.trim`: the middle of `s` between its leading and
      trailing whitespace runs. */
  function Trim(s: string): (r: string)
    ensures LeadingSpace(s) + |r| <= |s| && r == s[LeadingSpace(s)..LeadingSpace(s) + |r|]
    ensures forall k :: LeadingSpace(s) + |r| <= k < |s| ==> IsWhitespace(s[k])
    ensures r == [] || (!IsWhitespace(r[0]) && !IsWhitespace(r[|r| - 1]))
  {
    var t := TrimStart(s);
    var j := TrailingStart(t);
    TrimEndShift(s, LeadingSpace(s), j);
    t[..j]
  }

  /** The trailing run of the suffix `s[i..]` is a trailing run of `s`. */
  lemma TrimEndShift(s: string, i: nat, j: nat)
    requires i + j <= |s|
    requires forall k :: j <= k < |s| - i ==> IsWhitespace(s[i..][k])
    ensures forall k :: i + j <= k < |s| ==> IsWhitespace(s[k])
    ensures s[i..][..j] == s[i..i + j]
  {
    forall k | i + j <= k < |s| ensures IsWhitespace(s[k]) {
      assert s[k] == s[i..][k - i];
    }
  }

  /** Trimming a string that neither starts nor ends with whitespace changes nothing. */
  lemma TrimOfTrimmed(s: string)
    requires s == [] || (!IsWhitespace(s[0]) && !IsWhitespace(s[|s| - 1]))
    ensures Trim(s) == s
  {
    assert LeadingSpace(s) == 0 && TrimStart(s) == s;
  }

  /** Trimming a string without whitespace changes nothing. */
  lemma TrimNoWhitespace(s: string)
    requires NoWhitespace(s)
    ensures Trim(s) == s
  {
    TrimOfTrimmed(s);
  }

  /** Trimming is idempotent. */
  lemma TrimIdempotent(s: string)
    ensures Trim(Trim(s)) == Trim(s)
  {
    TrimOfTrimmed(Trim(s));
  }

  /** Leading whitespace does not survive a trim. */
  lemma TrimLeadingWhitespace(w: string, s: string)
    requires AllWhitespace(w)
    ensures Trim(w + s) == Trim(s)
  {
    LeadingSpaceAppend(w, s);
    assert (w + s)[|w| + LeadingSpace(s)..] == s[LeadingSpace(s)..];
  }

  lemma {:induction false} LeadingSpaceAppend(w: string, s: string)
    requires AllWhitespace(w)
    ensures LeadingSpace(w + s) == |w| + LeadingSpace(s)
    decreases |w|
  {
    if w == [] {
      assert w + s == s;
    } else {
      assert (w + s)[1..] == w[1..] + s;
      LeadingSpaceAppend(w[1..], s);
    }
  }

  predicate StartsWith(s: string, prefix: string) {
    |prefix| <= |s| && s[..|prefix|] == prefix
  }

  /** `String.prototype.includes`. */
  predicate Contains(s: string, sub: string)
    decreases |s|
  {
    StartsWith(s, sub) || (s != [] && Contains(s[1..], sub))
  }

  /** `String.prototype.split` on a single character: the maximal pieces between
      separators, always at least one (the empty string splits into `[""]`). */
  function Split(s: string, sep: char): (r: seq<string>)
    ensures |r| >= 1
    ensures forall k :: 0 <= k < |r| ==> sep !in r[k]
  {
    if s == [] then [""]
    else
      var rest := Split(s[1..], sep);
      if s[0] == sep then [""] + rest
      else
        assert forall k :: 1 <= k < |rest| ==> rest[1..][k - 1] == rest[k];
        [[s[0]] + rest[0]] + rest[1..]
  }

  /** `Array.prototype.join(sep)`. */
  function Join(parts: seq<string>, sep: string): (r: string)
  {
    if parts == [] then ""
    else if |parts| == 1 then parts[0]
    else parts[0] + sep + Join(parts[1..], sep)
  }

  /** Joining the pieces of a split with the same separator gives the string back. */
  lemma {:induction false} JoinSplit(s: string, sep: char)
    ensures Join(Split(s, sep), [sep]) == s
  {
    if s != [] {
      var rest := Split(s[1..], sep);
      JoinSplit(s[1..], sep);
      if s[0] == sep {
        assert Split(s, sep) == [""] + rest;
        assert ([""] + rest)[1..] == rest;
      } else {
        JoinHead(s[0], rest, [sep]);
      }
    }
  }

  /** Prepending a character to the first piece prepends it to the join. */
  lemma JoinHead(c: char, parts: seq<string>, sep: string)
    requires |parts| >= 1
    ensures Join([[c] + parts[0]] + parts[1..], sep) == [c] + Join(parts, sep)
  {
    var q := [[c] + parts[0]] + parts[1..];
    assert q[1..] == parts[1..];
    if |parts| > 1 {
      assert Join(q, sep) == q[0] + sep + Join(q[1..], sep);
    }
  }

  /** Splitting a join of separator-free pieces gives the pieces back. */
  lemma {:induction false} SplitJoin(parts: seq<string>, sep: char)
    requires |parts| >= 1
    requires forall k :: 0 <= k < |parts| ==> sep !in parts[k]
    ensures Split(Join(parts, [sep]), sep) == parts
  {
    if |parts| == 1 {
      SplitNoSep(parts[0], sep);
    } else {
      SplitJoin(parts[1..], sep);
      var tail := Join(parts[1..], [sep]);
      SplitPrefix(parts[0], tail, sep);
      assert Join(parts, [sep]) == parts[0] + ([sep] + tail);
      assert [parts[0]] + parts[1..] == parts;
    }
  }

  /** A string without the separator splits into itself. */
  lemma {:induction false} SplitNoSep(s: string, sep: char)
    requires sep !in s
    ensures Split(s, sep) == [s]
  {
    if s != [] {
      SplitNoSep(s[1..], sep);
      assert [s[0]] + s[1..] == s;
    }
  }

  /** A separator-free prefix followed by a separator becomes a piece of its own. */
  lemma {:induction false} SplitPrefix(w: string, tail: string, sep: char)
    requires sep !in w
    ensures Split(w + ([sep] + tail), sep) == [w] + Split(tail, sep)
  {
    if w == [] {
      assert w + ([sep] + tail) == [sep] + tail;
      assert ([sep] + tail)[1..] == tail;
    } else {
      var s := w + ([sep] + tail);
      assert s[1..] == w[1..] + ([sep] + tail);
      SplitPrefix(w[1..], tail, sep);
      var rest := Split(s[1..], sep);
      assert rest == [w[1..]] + Split(tail, sep);
      assert [s[0]] + w[1..] == w;
      assert rest[1..] == Split(tail, sep);
    }
  }

  /** The maximal prefix of `s` that contains no whitespace. */
  function LeadingWord(s: string): (w: string)
    ensures |w| <= |s| && w == s[..|w|]
    ensures NoWhitespace(w)
    ensures |w| == |s| || IsWhitespace(s[|w|])
  {
    if s == [] || IsWhitespace(s[0]) then []
    else
      var w := LeadingWord(s[1..]);
      assert [s[0]] + w == s[..|w| + 1];
      [s[0]] + w
  }

  /** `s.split(/\s+/)`: the pieces between maximal whitespace runs; a leading
      (trailing) run yields an empty first (last) piece, as in JavaScript. */
  function SplitWhitespace(s: string): (r: seq<string>)
    ensures |r| >= 1
    ensures forall k :: 0 <= k < |r| ==> NoWhitespace(r[k])
    decreases |s|
  {
    var w := LeadingWord(s);
    if |w| == |s| then
      assert w == s;
      [s]
    else
      var after := s[|w|..];
      var t := TrimStart(after);
      assert IsWhitespace(after[0]);
      assert |t| < |after|;
      var rest := SplitWhitespace(t);
      [w] + rest
  }

  /** A trimmed, non-blank string splits into non-empty words. */
  lemma {:induction false} WordsOfTrimmedNonEmpty(s: string)
    requires s != [] && !IsWhitespace(s[0]) && !IsWhitespace(s[|s| - 1])
    ensures forall k :: 0 <= k < |SplitWhitespace(s)| ==> SplitWhitespace(s)[k] != []
    decreases |s|
  {
    var w := LeadingWord(s);
    if |w| < |s| {
      var rest := TrimStart(s[|w|..]);
      assert rest != [];
      assert rest[|rest| - 1] == s[|s| - 1];
      WordsOfTrimmedNonEmpty(rest);
      assert SplitWhitespace(s) == [w] + SplitWhitespace(rest);
    }
  }

  /** Joining non-empty, whitespace-free words with single spaces and splitting
      again on whitespace gives the words back. */
  lemma {:induction false} SplitWhitespaceJoin(words: seq<string>)
    requires |words| >= 1
    requires forall k :: 0 <= k < |words| ==> words[k] != [] && NoWhitespace(words[k])
    ensures SplitWhitespace(Join(words, " ")) == words
  {
    if |words| == 1 {
      LeadingWordOf(words[0], []);
      assert words[0] + [] == words[0];
    } else {
      var tail := Join(words[1..], " ");
      SplitWhitespaceJoin(words[1..]);
      JoinStartsWith(words[1..], " ");
      assert !IsWhitespace(words[1][0]);
      SplitWhitespaceStep(words[0], tail);
      assert [words[0]] + words[1..] == words;
    }
  }

  /** One step of splitting: a word, one space, and a string starting with a
      non-whitespace character. */
  lemma SplitWhitespaceStep(w: string, tail: string)
    requires NoWhitespace(w)
    requires tail != [] && !IsWhitespace(tail[0])
    ensures SplitWhitespace(w + " " + tail) == [w] + SplitWhitespace(tail)
  {
    var s := w + " " + tail;
    assert s == w + (" " + tail);
    LeadingWordOf(w, " " + tail);
    assert s[|w|..] == " " + tail;
    assert (" " + tail)[1..] == tail;
    assert TrimStart(" " + tail) == TrimStart(tail);
    assert TrimStart(tail) == tail;
  }

  /** `words[0] gaps[0] words[1] ... gaps[n-2] words[n-1]`: words with the
      given separators between them. */
  function Interleave(words: seq<string>, gaps: seq<string>): string
    requires |words| == |gaps| + 1
    decreases |gaps|
  {
    if gaps == [] then words[0] else words[0] + gaps[0] + Interleave(words[1..], gaps[1..])
  }

  /** The whitespace runs that `split(/\s+/)` cuts at, in order. */
  function Gaps(s: string): (g: seq<string>)
    ensures |g| + 1 == |SplitWhitespace(s)|
    ensures forall k :: 0 <= k < |g| ==> g[k] != [] && AllWhitespace(g[k])
    decreases |s|
  {
    var w := LeadingWord(s);
    if |w| == |s| then []
    else
      var after := s[|w|..];
      var t := TrimStart(after);
      SplitWordsStep(s);
      [after[..LeadingSpace(after)]] + Gaps(t)
  }

  /** Putting the whitespace runs back between the pieces of `split(/\s+/)`
      gives the string back: the pieces are the text between the runs. */
  lemma {:induction false} SplitInterleave(s: string)
    ensures Interleave(SplitWhitespace(s), Gaps(s)) == s
    decreases |s|
  {
    var w := LeadingWord(s);
    if |w| == |s| {
      assert w == s;
    } else {
      var after := s[|w|..];
      var g := after[..LeadingSpace(after)];
      var t := TrimStart(after);
      SplitStep(s);
      SplitInterleave(t);
      InterleaveCons(w, g, SplitWhitespace(t), Gaps(t));
      ThreeParts(s, |w|, |w| + LeadingSpace(after));
    }
  }

  lemma ThreeParts(s: string, i: nat, j: nat)
    requires i <= j <= |s|
    ensures s[..i] + s[i..][..j - i] + s[i..][j - i..] == s
  {
    assert s[i..][..j - i] == s[i..j] && s[i..][j - i..] == s[j..];
  }

  /** One step of `split(/\s+/)` on a string that holds whitespace: the leading
      word, the run after it, and the split of the rest. */
  lemma SplitStep(s: string)
    requires |LeadingWord(s)| < |s|
    ensures var w := LeadingWord(s);
      var after := s[|w|..];
      SplitWhitespace(s) == [w] + SplitWhitespace(TrimStart(after))
      && Gaps(s) == [after[..LeadingSpace(after)]] + Gaps(TrimStart(after))
  {
  }

  /** The pieces half of SplitStep. */
  lemma SplitWordsStep(s: string)
    requires |LeadingWord(s)| < |s|
    ensures var w := LeadingWord(s);
      var t := TrimStart(s[|w|..]);
      |t| < |s| && SplitWhitespace(s) == [w] + SplitWhitespace(t)
  {
    var w := LeadingWord(s);
    assert IsWhitespace(s[|w|..][0]);
  }

  lemma InterleaveCons(w: string, g: string, words: seq<string>, gaps: seq<string>)
    requires |words| == |gaps| + 1
    ensures Interleave([w] + words, [g] + gaps) == w + g + Interleave(words, gaps)
  {
    assert ([w] + words)[1..] == words && ([g] + gaps)[1..] == gaps;
  }

  /** Conversely, non-empty whitespace-free words separated by non-empty
      whitespace runs split into exactly those words. */
  lemma {:induction false} InterleaveSplit(words: seq<string>, gaps: seq<string>)
    requires |words| == |gaps| + 1
    requires forall k :: 0 <= k < |words| ==> words[k] != [] && NoWhitespace(words[k])
    requires forall k :: 0 <= k < |gaps| ==> gaps[k] != [] && AllWhitespace(gaps[k])
    ensures SplitWhitespace(Interleave(words, gaps)) == words
    decreases |gaps|
  {
    if gaps == [] {
      LeadingWordOf(words[0], []);
      assert words[0] + [] == words[0];
      assert words == [words[0]];
    } else {
      var tail := Interleave(words[1..], gaps[1..]);
      InterleaveSplit(words[1..], gaps[1..]);
      InterleaveEnds(words[1..], gaps[1..]);
      SplitGapStep(words[0], gaps[0], tail);
      assert [words[0]] + words[1..] == words;
    }
  }

  /** One step of splitting: a word, a whitespace run, and a string starting
      with a non-whitespace character. */
  lemma SplitGapStep(w: string, g: string, tail: string)
    requires NoWhitespace(w)
    requires g != [] && AllWhitespace(g)
    requires tail != [] && !IsWhitespace(tail[0])
    ensures SplitWhitespace(w + g + tail) == [w] + SplitWhitespace(tail)
  {
    var s := w + g + tail;
    assert s == w + (g + tail);
    LeadingWordOf(w, g + tail);
    assert s[|w|..] == g + tail;
    LeadingSpaceAppend(g, tail);
    assert LeadingSpace(tail) == 0;
    assert (g + tail)[|g|..] == tail;
  }

  /** An interleaving of non-empty words starts with the first word's first
      character and ends with the last word's last character. */
  lemma {:induction false} InterleaveEnds(words: seq<string>, gaps: seq<string>)
    requires |words| == |gaps| + 1
    requires forall k :: 0 <= k < |words| ==> words[k] != []
    ensures var s := Interleave(words, gaps);
      s != [] && s[0] == words[0][0] && s[|s| - 1] == words[|words| - 1][|words[|words| - 1]| - 1]
    decreases |gaps|
  {
    if gaps != [] {
      InterleaveEnds(words[1..], gaps[1..]);
      assert words[1..][|words| - 2] == words[|words| - 1];
    }
  }

  /** Trimming whitespace runs off both ends of a string that neither starts
      nor ends with whitespace gives that string. */
  lemma TrimSurrounded(lead: string, s: string, trail: string)
    requires AllWhitespace(lead) && AllWhitespace(trail)
    requires s != [] && !IsWhitespace(s[0]) && !IsWhitespace(s[|s| - 1])
    ensures Trim(lead + s + trail) == s
  {
    assert lead + s + trail == lead + (s + trail);
    TrimLeadingWhitespace(lead, s + trail);
    TrimTrailingWhitespace(s, trail);
  }

  /** A whitespace run after a string that ends in a non-whitespace character
      does not survive a trim. */
  lemma TrimTrailingWhitespace(s: string, trail: string)
    requires AllWhitespace(trail)
    requires s != [] && !IsWhitespace(s[0]) && !IsWhitespace(s[|s| - 1])
    ensures Trim(s + trail) == s
  {
    var x := s + trail;
    assert x[0] == s[0];
    assert LeadingSpace(x) == 0;
    var r := Trim(x);
    assert r == x[..|r|];
    assert !IsWhitespace(x[|s| - 1]);
    assert |r| >= |s|;
    assert |r| == |s|;
    assert x[..|s|] == s;
  }

  lemma {:induction false} JoinStartsWith(words: seq<string>, sep: string)
    requires |words| >= 1 && words[0] != []
    ensures Join(words, sep) != [] && Join(words, sep)[0] == words[0][0]
  {
  }

  /** The leading word of a whitespace-free word followed by whitespace (or
      nothing) is that word. */
  lemma {:induction false} LeadingWordOf(w: string, tail: string)
    requires NoWhitespace(w)
    requires tail == [] || IsWhitespace(tail[0])
    ensures LeadingWord(w + tail) == w
  {
    if w == [] {
      assert w + tail == tail;
    } else {
      assert (w + tail)[1..] == w[1..] + tail;
      LeadingWordOf(w[1..], tail);
      assert [w[0]] + w[1..] == w;
    }
  }
}
