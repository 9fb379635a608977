/**
 * `capitalize` and `capitalizeWords` (app/utils/capitalizeFormatter.ts).
 *
 * Whitespace is the ASCII part of JavaScript's `\s` and `trim` (space and
 * U+0009..U+000D); upper-casing is ASCII upper-casing.
 */
module CapitalizeFormatter {
  import opened Wrappers

  predicate IsSpace(c: char) {
    c == ' ' || '\t' <= c <= '\r'
  }

  predicate AllSpace(s: string) {
    forall i :: 0 <= i < |s| ==> IsSpace(s[i])
  }

  predicate NoSpace(s: string) {
    forall i :: 0 <= i < |s| ==> !IsSpace(s[i])
  }

  /** A non-empty run of non-whitespace characters. */
  predicate IsWord(w: string) {
    w != [] && NoSpace(w)
  }

  predicate AllWords(ws: seq<string>) {
    forall i :: 0 <= i < |ws| ==> IsWord(ws[i])
  }

  /** `s` neither starts nor ends with whitespace. */
  predicate Trimmed(s: string) {
    s == [] || (!IsSpace(s[0]) && !IsSpace(s[|s| - 1]))
  }

  function ToUpper(c: char): (u: char)
    ensures IsSpace(u) <==> IsSpace(c)
    ensures 'a' <= c <= 'z' ==> u as int == c as int - 32
    ensures !('a' <= c <= 'z') ==> u == c
  {
    if 'a' <= c <= 'z' then (c as int - 32) as char else c
  }

  /** Leading whitespace dropped: what is left is a suffix of `s` after whitespace only. */
  function TrimStart(s: string): (r: string)
    ensures |r| <= |s| && r == s[|s| - |r|..] && AllSpace(s[..|s| - |r|])
    ensures r == [] || !IsSpace(r[0])
  {
    if s != [] && IsSpace(s[0]) then TrimStart(s[1..]) else s
  }

  /** Trailing whitespace dropped: what is left is a prefix of `s` before whitespace only. */
  function TrimEnd(s: string): (r: string)
    ensures |r| <= |s| && r == s[..|r|]
    ensures forall i :: |r| <= i < |s| ==> IsSpace(s[i])
    ensures r == [] || !IsSpace(r[|r| - 1])
  {
    if s != [] && IsSpace(s[|s| - 1]) then
      var r := TrimEnd(s[..|s| - 1]);
      assert s[..|s| - 1][..|r|] == s[..|r|];
      r
    else s
  }

  /** `String.prototype.trim`. */
  function Trim(s: string): (r: string)
    ensures Trimmed(r) && |r| <= |s|
  {
    TrimEnd(TrimStart(s))
  }

  lemma TrimOfTrimmed(s: string)
    requires Trimmed(s)
    ensures Trim(s) == s
  {
  }

  /** Trimming yields the empty string exactly for whitespace-only input. */
  lemma TrimEmptyIff(s: string)
    ensures Trim(s) == [] <==> AllSpace(s)
  {
    var t := TrimStart(s);
    if AllSpace(s) {
      assert AllSpace(t);
    }
    if Trim(s) == [] {
      assert AllSpace(t[0..]);
      assert s == s[..|s| - |t|] + t;
    }
  }

  /**
   * `capitalize(value)`: `None` stands for `null` and `undefined`. The trimmed
   * text with its first character upper-cased.
   */
  function Capitalize(value: Option<string>): (r: string)
    ensures Trimmed(r)
    ensures |r| <= |value.GetOr("")|
  {
    if value.None? || value.value == "" then ""
    else
      var s := Trim(value.value);
      if s == "" then "" else UpperFirst(s)
  }

  /** `s.charAt(0).toUpperCase() + s.slice(1)`: only the first character changes, and a trimmed text stays trimmed. */
  function UpperFirst(s: string): (r: string)
    requires s != []
    ensures |r| == |s| && r[0] == ToUpper(s[0]) && r[1..] == s[1..]
    ensures Trimmed(s) ==> Trimmed(r)
  {
    [ToUpper(s[0])] + s[1..]
  }

  /** The text a (possibly missing) value trims to. */
  function TrimmedText(value: Option<string>): string {
    if value.None? then "" else Trim(value.value)
  }

  /**
   * `capitalize` keeps the trimmed text, length and all, upper-casing only
   * its first character; missing and empty values give "".
   */
  lemma CapitalizeShape(value: Option<string>)
    ensures value.None? || value == Some("") ==> Capitalize(value) == ""
    ensures var s := TrimmedText(value);
      && |Capitalize(value)| == |s|
      && (s != [] ==> Capitalize(value)[0] == ToUpper(s[0]) && Capitalize(value)[1..] == s[1..])
  {
    if value.Some? && value.value == "" {
      assert Trim("") == "";
    }
  }

  /** Whitespace-only input capitalizes to the empty string. */
  lemma CapitalizeAllSpace(x: string)
    requires AllSpace(x)
    ensures Capitalize(Some(x)) == ""
  {
    TrimEmptyIff(x);
  }

  /** Capitalizing twice is capitalizing once. */
  lemma CapitalizeIdempotent(value: Option<string>)
    ensures Capitalize(Some(Capitalize(value))) == Capitalize(value)
  {
    var r := Capitalize(value);
    if r != "" {
      var s := Trim(value.value);
      assert r == [ToUpper(s[0])] + s[1..];
      TrimOfTrimmed(r);
      assert Capitalize(Some(r)) == [ToUpper(r[0])] + r[1..];
      assert ToUpper(r[0]) == r[0];
    }
  }

  /** A word is left a word by `capitalize`, which only upper-cases its first letter. */
  lemma CapitalizeWord(w: string)
    requires IsWord(w)
    ensures Capitalize(Some(w)) == [ToUpper(w[0])] + w[1..]
    ensures IsWord(Capitalize(Some(w)))
  {
    TrimOfTrimmed(w);
  }

  // ---------------------------------------------------------------------
  // Tokens

  /** Length of the leading run of non-whitespace characters. */
  function TokenLen(s: string): (n: nat)
    ensures n <= |s| && NoSpace(s[..n])
    ensures n < |s| ==> IsSpace(s[n])
  {
    if s == [] || IsSpace(s[0]) then 0 else 1 + TokenLen(s[1..])
  }

  /**
   * `s.split(/\s+/)`: the pieces between maximal whitespace runs, with an
   * empty first (last) piece when `s` starts (ends) with whitespace, and [""]
   * for the empty string.
   */
  function SplitRuns(s: string): (pieces: seq<string>)
    ensures |pieces| >= 1
    ensures forall i :: 0 <= i < |pieces| ==> NoSpace(pieces[i])
    decreases |s|
  {
    var n := TokenLen(s);
    if n == |s| then [s] else [s[..n]] + SplitRuns(TrimStart(s[n..]))
  }

  /** `.filter(Boolean)` on strings: the non-empty ones, in order. */
  function KeepNonEmpty(pieces: seq<string>): (r: seq<string>)
    ensures |r| <= |pieces|
    ensures forall i :: 0 <= i < |r| ==> r[i] != "" && r[i] in pieces
    ensures (forall i :: 0 <= i < |pieces| ==> pieces[i] != "") ==> r == pieces
  {
    if pieces == [] then []
    else (if pieces[0] == "" then [] else [pieces[0]]) + KeepNonEmpty(pieces[1..])
  }

  /** `.map((w) => capitalize(w))`. */
  function CapitalizeEach(ws: seq<string>): (r: seq<string>)
    ensures |r| == |ws|
    ensures forall i :: 0 <= i < |ws| ==> r[i] == Capitalize(Some(ws[i]))
  {
    if ws == [] then [] else [Capitalize(Some(ws[0]))] + CapitalizeEach(ws[1..])
  }

  /** `.join(" ")`. */
  function Join(ws: seq<string>): (r: string)
    ensures ws == [] ==> r == ""
    ensures ws != [] ==> |ws[0]| <= |r| && r[..|ws[0]|] == ws[0]
  {
    if |ws| == 0 then ""
    else if |ws| == 1 then ws[0]
    else ws[0] + " " + Join(ws[1..])
  }

  /**
   * `capitalizeWords(value)`; `None` stands for `null` and `undefined`. The
   * output has no whitespace at its ends and separates words by exactly one space.
   */
  function CapitalizeWords(value: Option<string>): (r: string)
    ensures WellSpaced(r)
  {
    if value.None? || value.value == "" then ""
    else
      var words := KeepNonEmpty(SplitRuns(Trim(value.value)));
      assert AllWords(words);
      CapitalizeEachWords(words);
      JoinWellSpaced(CapitalizeEach(words));
      Join(CapitalizeEach(words))
  }

  /** Reference reading of "the words of s": its maximal non-whitespace runs, in order. */
  function Words(s: string): (ws: seq<string>)
    ensures AllWords(ws)
    decreases |s|
  {
    if s == [] then []
    else if IsSpace(s[0]) then Words(s[1..])
    else
      var n := TokenLen(s);
      [s[..n]] + Words(s[n..])
  }

  // ---------------------------------------------------------------------
  // Lemmas about the pipeline

  lemma {:induction false} WordsOfAllSpace(s: string)
    requires AllSpace(s)
    ensures Words(s) == []
    decreases |s|
  {
    if s != [] {
      WordsOfAllSpace(s[1..]);
    }
  }

  lemma {:induction false} WordsTrimStart(s: string)
    ensures Words(TrimStart(s)) == Words(s)
    decreases |s|
  {
    if s != [] && IsSpace(s[0]) {
      WordsTrimStart(s[1..]);
    }
  }

  lemma {:induction false} TokenLenBeforeSpace(s: string, sp: string)
    requires AllSpace(sp)
    ensures TokenLen(s + sp) == TokenLen(s)
    decreases |s|
  {
    if s != [] && !IsSpace(s[0]) {
      assert (s + sp)[1..] == s[1..] + sp;
      TokenLenBeforeSpace(s[1..], sp);
    }
  }

  /** Trailing whitespace does not change the words. */
  lemma {:induction false} WordsBeforeSpace(s: string, sp: string)
    requires AllSpace(sp)
    ensures Words(s + sp) == Words(s)
    decreases |s|
  {
    if s == [] {
      assert s + sp == sp;
      WordsOfAllSpace(sp);
    } else if IsSpace(s[0]) {
      assert (s + sp)[1..] == s[1..] + sp;
      WordsBeforeSpace(s[1..], sp);
    } else {
      var n := TokenLen(s);
      TokenLenBeforeSpace(s, sp);
      assert (s + sp)[..n] == s[..n];
      assert (s + sp)[n..] == s[n..] + sp;
      WordsBeforeSpace(s[n..], sp);
    }
  }

  /** Dropping trailing whitespace does not change the words. */
  lemma WordsTrimEnd(t: string)
    ensures Words(TrimEnd(t)) == Words(t)
  {
    var e := TrimEnd(t);
    var sp := t[|e|..];
    assert t == e + sp;
    WordsBeforeSpace(e, sp);
  }

  /** Trimming does not change the words. */
  lemma WordsTrim(s: string)
    ensures Words(Trim(s)) == Words(s)
  {
    WordsTrimEnd(TrimStart(s));
    WordsTrimStart(s);
  }

  /** `split(/\s+/)` followed by `filter(Boolean)` yields exactly the words. */
  lemma {:induction false} SplitRunsKeepNonEmpty(s: string)
    ensures KeepNonEmpty(SplitRuns(s)) == Words(s)
    decreases |s|
  {
    var n := TokenLen(s);
    if n == |s| {
      if s != [] {
        assert s[..n] == s;
        assert s[n..] == [];
      }
    } else {
      var rest := TrimStart(s[n..]);
      SplitRunsKeepNonEmpty(rest);
      WordsTrimStart(s[n..]);
      var pieces := SplitRuns(s);
      assert pieces[0] == s[..n] && pieces[1..] == SplitRuns(rest);
      if n == 0 {
        assert TrimStart(s[n..]) == TrimStart(s[1..]) by {
          assert s[n..] == s;
        }
        WordsTrimStart(s[1..]);
      }
    }
  }

  lemma {:induction false} TokenLenOfWordThenSpace(w: string, t: string)
    requires NoSpace(w)
    ensures TokenLen(w + " " + t) == |w|
    decreases |w|
  {
    if w != [] {
      assert (w + " " + t)[1..] == w[1..] + " " + t;
      TokenLenOfWordThenSpace(w[1..], t);
    }
  }

  lemma {:induction false} WordsOfWord(w: string)
    requires IsWord(w)
    ensures Words(w) == [w]
  {
    TokenLenBeforeSpace(w, "");
    assert w + "" == w;
    assert w[..|w|] == w;
    assert w[|w|..] == [];
  }

  /** Splitting back the words joined by single spaces gives the same words. */
  lemma {:induction false} WordsOfJoin(ws: seq<string>)
    requires AllWords(ws)
    ensures Words(Join(ws)) == ws
    decreases |ws|
  {
    if |ws| == 1 {
      WordsOfWord(ws[0]);
    } else if |ws| > 1 {
      var w := ws[0];
      var j := Join(ws[1..]);
      var s := w + " " + j;
      assert AllWords(ws[1..]);
      WordsOfJoin(ws[1..]);
      TokenLenOfWordThenSpace(w, j);
      assert s[..|w|] == w;
      assert s[|w|..] == " " + j;
      assert (" " + j)[1..] == j;
    }
  }

  /** No whitespace at either end, and every whitespace character is one space between two words. */
  predicate WellSpaced(s: string) {
    && Trimmed(s)
    && forall i :: 0 <= i < |s| && IsSpace(s[i]) ==> s[i] == ' ' && 0 < i < |s| - 1 && !IsSpace(s[i + 1])
  }

  lemma {:induction false} JoinWellSpaced(ws: seq<string>)
    requires AllWords(ws)
    ensures WellSpaced(Join(ws))
    ensures ws != [] ==> Join(ws) != []
    decreases |ws|
  {
    if |ws| > 1 {
      var w := ws[0];
      var j := Join(ws[1..]);
      assert AllWords(ws[1..]);
      JoinWellSpaced(ws[1..]);
      var s := w + " " + j;
      forall i | 0 <= i < |s| && IsSpace(s[i])
        ensures s[i] == ' ' && 0 < i < |s| - 1 && !IsSpace(s[i + 1])
      {
        if i > |w| {
          assert s[i] == j[i - |w| - 1];
          assert i - |w| - 1 < |j| - 1 && s[i + 1] == j[i - |w|];
        } else {
          assert i == |w|;
        }
      }
    }
  }

  /** Capitalizing words gives words, and capitalizing them again changes nothing. */
  lemma CapitalizeEachWords(ws: seq<string>)
    requires AllWords(ws)
    ensures AllWords(CapitalizeEach(ws))
    ensures CapitalizeEach(CapitalizeEach(ws)) == CapitalizeEach(ws)
  {
    var c := CapitalizeEach(ws);
    forall i | 0 <= i < |ws|
      ensures IsWord(c[i]) && CapitalizeEach(c)[i] == c[i]
    {
      CapitalizeWord(ws[i]);
      CapitalizeIdempotent(Some(ws[i]));
    }
  }

  /**
   * `capitalizeWords` is "the words of the input, in order, each passed
   * through `capitalize`, joined by single spaces"; falsy input gives "".
   */
  lemma CapitalizeWordsIsJoinOfWords(value: Option<string>)
    ensures value.None? || value == Some("") ==> CapitalizeWords(value) == ""
    ensures value.Some? ==> CapitalizeWords(value) == Join(CapitalizeEach(Words(value.value)))
  {
    if value.Some? && value.value != "" {
      SplitRunsKeepNonEmpty(Trim(value.value));
      WordsTrim(value.value);
    }
  }

  /** Splitting the output again gives back exactly the capitalized input words. */
  lemma WordsOfCapitalizeWords(x: string)
    ensures Words(CapitalizeWords(Some(x))) == CapitalizeEach(Words(x))
  {
    CapitalizeWordsIsJoinOfWords(Some(x));
    CapitalizeEachWords(Words(x));
    WordsOfJoin(CapitalizeEach(Words(x)));
  }

  /** Applying `capitalizeWords` to its own output changes nothing. */
  lemma CapitalizeWordsIdempotent(x: string)
    ensures CapitalizeWords(Some(CapitalizeWords(Some(x)))) == CapitalizeWords(Some(x))
  {
    var r := CapitalizeWords(Some(x));
    CapitalizeWordsIsJoinOfWords(Some(x));
    CapitalizeWordsIsJoinOfWords(Some(r));
    WordsOfCapitalizeWords(x);
    CapitalizeEachWords(Words(x));
  }
}
