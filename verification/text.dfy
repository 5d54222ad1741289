/**
 * The few Python string operations the debate code relies on, written out over
 * `seq<char>`: `str.isspace`, `str.strip()`, `str.split()` (on runs of whitespace),
 * `str.split("\n\n")`, `sep.join(parts)` and an ASCII `str.lower()`.
 */
module PyText {

  /** The characters for which Python's `str.isspace()` holds. */
  predicate IsSpace(c: char) {
    c == ' ' || ('\t' <= c <= '\r') || ('\U{1C}' <= c <= '\U{1F}')
    || c == '\U{85}' || c == '\U{A0}' || c == '\U{1680}'
    || ('\U{2000}' <= c <= '\U{200A}')
    || c == '\U{2028}' || c == '\U{2029}' || c == '\U{202F}' || c == '\U{205F}' || c == '\U{3000}'
  }

  predicate AllSpace(s: string) {
    forall k :: 0 <= k < |s| ==> IsSpace(s[k])
  }

  predicate NoSpace(s: string) {
    forall k :: 0 <= k < |s| ==> !IsSpace(s[k])
  }

  /** Neither end of `s` is whitespace (the shape of every `str.strip()` result). */
  predicate Stripped(s: string) {
    s == [] || (!IsSpace(s[0]) && !IsSpace(s[|s| - 1]))
  }

  /** A word as `str.split()` yields it: non-empty, no whitespace inside. */
  predicate IsWord(w: string) {
    |w| > 0 && NoSpace(w)
  }

  predicate AllWords(ws: seq<string>) {
    forall i :: 0 <= i < |ws| ==> IsWord(ws[i])
  }

  /** `s.lstrip()`: the index of the first non-whitespace character. */
  function LeadingSpace(s: string): (n: nat)
    ensures n <= |s|
    ensures AllSpace(s[..n])
    ensures n < |s| ==> !IsSpace(s[n])
  {
    if s == [] || !IsSpace(s[0]) then 0
    else
      var n := 1 + LeadingSpace(s[1..]);
      assert forall k :: 1 <= k < n ==> s[..n][k] == s[1..][..n - 1][k - 1];
      n
  }

  /** `s.rstrip()`: the length of `s` without its trailing whitespace. */
  function TrailingEnd(s: string): (n: nat)
    ensures n <= |s|
    ensures AllSpace(s[n..])
    ensures n > 0 ==> !IsSpace(s[n - 1])
  {
    if s == [] || !IsSpace(s[|s| - 1]) then |s|
    else
      var n := TrailingEnd(s[..|s| - 1]);
      assert s[n..] == s[..|s| - 1][n..] + [s[|s| - 1]];
      n
  }

  /** `s.strip()`: `s` without leading and trailing whitespace. */
  function Strip(s: string): (r: string)
    ensures Stripped(r)
    ensures exists i, j :: 0 <= i <= j <= |s| && r == s[i..j] && AllSpace(s[..i]) && AllSpace(s[j..])
    ensures r == [] <==> AllSpace(s)
  {
    var i := LeadingSpace(s);
    var j := i + TrailingEnd(s[i..]);
    assert s[..j] == s[..i] + s[i..][..j - i];
    assert s[j..] == s[i..][j - i..];
    assert AllSpace(s) ==> j == i by {
      if j > i { assert s[i..][j - i - 1] == s[j - 1]; }
    }
    assert !AllSpace(s) ==> i < j by {
      if i == |s| { assert s[..i] == s; }
      else { assert s[i..][0] == s[i]; assert TrailingEnd(s[i..]) > 0; }
    }
    s[i..j]
  }

  /** `sep.join(parts)`. */
  function Join(sep: string, parts: seq<string>): string {
    if parts == [] then ""
    else if |parts| == 1 then parts[0]
    else parts[0] + sep + Join(sep, parts[1..])
  }

  /** The length of the word at the front of `s` (0 when `s` starts with whitespace). */
  function WordLength(s: string): (n: nat)
    ensures n <= |s|
    ensures NoSpace(s[..n])
    ensures n < |s| ==> IsSpace(s[n])
  {
    if s == [] || IsSpace(s[0]) then 0
    else
      var n := 1 + WordLength(s[1..]);
      assert forall k :: 1 <= k < n ==> s[..n][k] == s[1..][..n - 1][k - 1];
      n
  }

  /** `s.split()`: the maximal runs of non-whitespace characters, in order. */
  function Words(s: string): (ws: seq<string>)
    ensures AllWords(ws)
    decreases |s|
  {
    if s == [] then []
    else if IsSpace(s[0]) then Words(s[1..])
    else
      var n := WordLength(s);
      [s[..n]] + Words(s[n..])
  }

  /** `" ".join(s.split())`: every run of whitespace becomes one space, both ends trimmed. */
  function Collapse(s: string): string {
    Join(" ", Words(s))
  }

  /** No paragraph break `"\n\n"` occurs in `b`. */
  predicate NoBreak(b: string) {
    forall k :: 0 <= k < |b| - 1 ==> !(b[k] == '\n' && b[k + 1] == '\n')
  }

  /** `s.split("\n\n")`: the blocks between non-overlapping paragraph breaks, scanned left to right. */
  function SplitBlocks(s: string): (blocks: seq<string>)
    ensures |blocks| >= 1
    decreases |s|
  {
    if |s| < 2 then [s]
    else if s[0] == '\n' && s[1] == '\n' then [""] + SplitBlocks(s[2..])
    else
      var rest := SplitBlocks(s[1..]);
      [[s[0]] + rest[0]] + rest[1..]
  }

  /**
   * No block holds a paragraph break, and no block but the last ends with a
   * newline, since a break found further left would have ended it earlier. The
   * first block is where `s` starts, followed by a break when more blocks come.
   */
  lemma {:induction false} SplitBlocksShape(s: string)
    ensures BlocksShaped(s, SplitBlocks(s))
    decreases |s|
  {
    if |s| >= 2 {
      if s[0] == '\n' && s[1] == '\n' {
        SplitBlocksShape(s[2..]);
        ShapeAfterBreak(s, SplitBlocks(s[2..]));
      } else {
        SplitBlocksShape(s[1..]);
        ShapeAfterChar(s, SplitBlocks(s[1..]));
      }
    }
  }

  /** The shape `SplitBlocksShape` states, for blocks of `s`. */
  predicate BlocksShaped(s: string, blocks: seq<string>) {
    && blocks != []
    && (forall i :: 0 <= i < |blocks| ==> NoBreak(blocks[i]))
    && (forall i :: 0 <= i < |blocks| - 1 ==> blocks[i] == [] || blocks[i][|blocks[i]| - 1] != '\n')
    && blocks[0] <= s
    && (|blocks| > 1 ==> |blocks[0]| + 2 <= |s| && s[|blocks[0]|] == '\n' && s[|blocks[0]| + 1] == '\n')
  }

  lemma ShapeAfterBreak(s: string, rest: seq<string>)
    requires |s| >= 2 && s[0] == '\n' && s[1] == '\n'
    requires rest == SplitBlocks(s[2..]) && BlocksShaped(s[2..], rest)
    ensures BlocksShaped(s, SplitBlocks(s))
  {
    var blocks := [""] + rest;
    assert SplitBlocks(s) == blocks;
    assert NoBreak("");
    assert forall i :: 1 <= i < |blocks| ==> blocks[i] == rest[i - 1];
  }

  lemma ShapeAfterChar(s: string, rest: seq<string>)
    requires |s| >= 2 && !(s[0] == '\n' && s[1] == '\n')
    requires rest == SplitBlocks(s[1..]) && BlocksShaped(s[1..], rest)
    ensures BlocksShaped(s, SplitBlocks(s))
  {
    var first := [s[0]] + rest[0];
    var blocks := [first] + rest[1..];
    assert SplitBlocks(s) == blocks;
    FirstBlock(s, rest[0], |rest| > 1);
    assert forall i :: 1 <= i < |blocks| ==> blocks[i] == rest[i];
  }

  /** The first block grown by one character in front keeps its shape. */
  lemma FirstBlock(s: string, r0: string, more: bool)
    requires |s| >= 2 && !(s[0] == '\n' && s[1] == '\n')
    requires NoBreak(r0) && r0 <= s[1..]
    requires more ==> (r0 == [] || r0[|r0| - 1] != '\n') &&
                      |r0| + 2 <= |s| - 1 && s[1..][|r0|] == '\n' && s[1..][|r0| + 1] == '\n'
    ensures var first := [s[0]] + r0;
      NoBreak(first) && first <= s &&
      (more ==> first[|first| - 1] != '\n' && |first| + 2 <= |s| && s[|first|] == '\n' && s[|first| + 1] == '\n')
  {
    var first := [s[0]] + r0;
    forall k | 0 <= k < |first| - 1 ensures !(first[k] == '\n' && first[k + 1] == '\n') {
      if k > 0 {
        assert first[k] == r0[k - 1] && first[k + 1] == r0[k];
      } else {
        assert first[1] == s[1];
      }
    }
    assert s == [s[0]] + s[1..];
    if more && r0 == [] {
      assert first[|first| - 1] == s[0] && s[1] == '\n';
    }
  }

  function LowerChar(c: char): char {
    if 'A' <= c <= 'Z' then (c as int + 32) as char else c
  }

  /** `s.lower()` on the ASCII letters. */
  function Lower(s: string): (r: string)
    ensures |r| == |s|
    ensures forall k :: 0 <= k < |s| ==> r[k] == LowerChar(s[k])
  {
    if s == [] then [] else [LowerChar(s[0])] + Lower(s[1..])
  }

  /** Every whitespace character is a lone space with a word character on each side. */
  predicate SingleSpaced(r: string) {
    forall k :: 0 <= k < |r| && IsSpace(r[k]) ==>
      r[k] == ' ' && 0 < k < |r| - 1 && !IsSpace(r[k - 1]) && !IsSpace(r[k + 1])
  }

  lemma {:induction false} WordLengthOfWord(w: string, t: string)
    requires NoSpace(w)
    requires t == [] || IsSpace(t[0])
    ensures WordLength(w + t) == |w|
  {
    if w != [] {
      assert (w + t)[1..] == w[1..] + t;
      WordLengthOfWord(w[1..], t);
    }
  }

  /** Splitting a space-joined list of words gives the words back. */
  lemma {:induction false} WordsOfJoin(ws: seq<string>)
    requires AllWords(ws)
    ensures Words(Join(" ", ws)) == ws
  {
    if |ws| == 1 {
      var w := ws[0];
      WordLengthOfWord(w, []);
      assert w + [] == w;
      assert w[..|w|] == w;
      assert w[|w|..] == [];
    } else if |ws| > 1 {
      var w, rest := ws[0], Join(" ", ws[1..]);
      var s := w + " " + rest;
      assert s == w + (" " + rest);
      WordLengthOfWord(w, " " + rest);
      assert s[..|w|] == w;
      assert s[|w|..] == " " + rest;
      assert (" " + rest)[1..] == rest;
      WordsOfJoin(ws[1..]);
      assert ws == [w] + ws[1..];
    }
  }

  lemma {:induction false} JoinWordsSingleSpaced(ws: seq<string>)
    requires AllWords(ws)
    ensures SingleSpaced(Join(" ", ws))
    ensures ws != [] ==> Join(" ", ws) != [] && !IsSpace(Join(" ", ws)[0])
  {
    if |ws| > 1 {
      var w, rest := ws[0], Join(" ", ws[1..]);
      JoinWordsSingleSpaced(ws[1..]);
      var r := w + " " + rest;
      forall k | 0 <= k < |r| && IsSpace(r[k])
        ensures r[k] == ' ' && 0 < k < |r| - 1 && !IsSpace(r[k - 1]) && !IsSpace(r[k + 1])
      {
        if k > |w| {
          assert r[k] == rest[k - |w| - 1];
          assert r[k - 1] == rest[k - |w| - 2];
          assert r[k + 1] == rest[k - |w|];
        }
      }
    }
  }

  /**
   * `Collapse` leaves no whitespace at either end and no run of two whitespace
   * characters, keeps the words of its input in order, and is idempotent.
   */
  lemma CollapseProperties(s: string)
    ensures SingleSpaced(Collapse(s)) && Stripped(Collapse(s))
    ensures Words(Collapse(s)) == Words(s)
    ensures Collapse(Collapse(s)) == Collapse(s)
  {
    JoinWordsSingleSpaced(Words(s));
    WordsOfJoin(Words(s));
  }

  lemma {:induction false} JoinExtendFirst(sep: string, c: char, parts: seq<string>)
    requires |parts| >= 1
    ensures Join(sep, [[c] + parts[0]] + parts[1..]) == [c] + Join(sep, parts)
  {
    var q := [[c] + parts[0]] + parts[1..];
    if |parts| > 1 {
      assert q[1..] == parts[1..];
    }
  }

  /** Joining the blocks back with paragraph breaks restores the text. */
  lemma {:induction false} SplitBlocksJoin(s: string)
    ensures Join("\n\n", SplitBlocks(s)) == s
    decreases |s|
  {
    if |s| >= 2 {
      if s[0] == '\n' && s[1] == '\n' {
        SplitBlocksJoin(s[2..]);
        BreakJoin(s);
      } else {
        SplitBlocksJoin(s[1..]);
        CharJoin(s);
      }
    }
  }

  lemma BreakJoin(s: string)
    requires |s| >= 2 && s[0] == '\n' && s[1] == '\n'
    requires Join("\n\n", SplitBlocks(s[2..])) == s[2..]
    ensures Join("\n\n", SplitBlocks(s)) == s
  {
    var rest := SplitBlocks(s[2..]);
    assert ([""] + rest)[1..] == rest;
    assert s == "\n\n" + s[2..];
  }

  lemma CharJoin(s: string)
    requires |s| >= 2 && !(s[0] == '\n' && s[1] == '\n')
    requires Join("\n\n", SplitBlocks(s[1..])) == s[1..]
    ensures Join("\n\n", SplitBlocks(s)) == s
  {
    JoinExtendFirst("\n\n", s[0], SplitBlocks(s[1..]));
    assert s == [s[0]] + s[1..];
  }
}
