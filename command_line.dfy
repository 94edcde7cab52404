/** The Python string operations client.py uses to read a command line:
    `str.split(" ")`, `str.split()`, `str.strip()`, `str.strip('"')` and
    `str.lower()` restricted to the comparisons the client makes. */
module CommandLine {

  /** `str.isspace()` on one character: the ASCII whitespace and separator
      controls, NEL, NO-BREAK SPACE and the Unicode space separators. */
  predicate IsSpace(ch: char) {
    var n := ch as int;
    || (9 <= n <= 13) || (28 <= n <= 32) || n == 0x85 || n == 0xA0 || n == 0x1680
    || (0x2000 <= n <= 0x200A) || n == 0x2028 || n == 0x2029 || n == 0x202F || n == 0x205F || n == 0x3000
  }

  predicate NoSpace(w: string) {
    forall i :: 0 <= i < |w| ==> !IsSpace(w[i])
  }

  /** `str.lower()` on ASCII letters. Every word the client compares a
      lowered token with ("criar", "grupo", "chat", "iniciar", ...) is
      ASCII, and no other character lowers to one of their letters. */
  function LowerChar(ch: char): char {
    if 'A' <= ch <= 'Z' then (ch as int + 32) as char else ch
  }

  function Lower(s: string): (r: string)
    ensures |r| == |s| && forall i :: 0 <= i < |s| ==> r[i] == LowerChar(s[i])
  {
    seq(|s|, i requires 0 <= i < |s| => LowerChar(s[i]))
  }

  /** `s.split(sep)`: the pieces between occurrences of `sep`, empty ones
      included, so there is always one more piece than separators. */
  function SplitOn(s: string, sep: char): (r: seq<string>)
    ensures |r| >= 1
    ensures forall i :: 0 <= i < |r| ==> sep !in r[i]
  {
    if s == [] then [""]
    else
      var rest := SplitOn(s[1..], sep);
      if s[0] == sep then [""] + rest else [[s[0]] + rest[0]] + rest[1..]
  }

  /** `sep.join(ws)`. */
  function Join(ws: seq<string>, sep: char): string {
    if ws == [] then ""
    else if |ws| == 1 then ws[0]
    else ws[0] + [sep] + Join(ws[1..], sep)
  }

  /** Joining pieces free of the separator, then splitting, gives the
      pieces back. */
  lemma {:induction false} SplitOnJoin(ws: seq<string>, sep: char)
    requires |ws| >= 1 && forall i :: 0 <= i < |ws| ==> sep !in ws[i]
    ensures SplitOn(Join(ws, sep), sep) == ws
  {
    if |ws| == 1 {
      SplitOnPiece(ws[0], sep);
    } else {
      SplitOnJoin(ws[1..], sep);
      SplitOnAfterPiece(ws[0], sep, Join(ws[1..], sep));
    }
  }

  lemma {:induction false} SplitOnPiece(w: string, sep: char)
    requires sep !in w
    ensures SplitOn(w, sep) == [w]
  {
    if w != [] {
      SplitOnPiece(w[1..], sep);
      assert [w[0]] + w[1..] == w;
    }
  }

  lemma {:induction false} SplitOnAfterPiece(w: string, sep: char, tail: string)
    requires sep !in w
    ensures SplitOn(w + [sep] + tail, sep) == [w] + SplitOn(tail, sep)
  {
    if w == [] {
      assert w + [sep] + tail == [sep] + tail;
      assert ([sep] + tail)[1..] == tail;
    } else {
      SplitOnAfterPiece(w[1..], sep, tail);
      assert (w + [sep] + tail)[1..] == w[1..] + [sep] + tail;
      assert [w[0]] + w[1..] == w;
    }
  }

  /** The length of the word `s` starts with. */
  function WordLength(s: string): (n: nat)
    ensures n <= |s| && NoSpace(s[..n]) && (n < |s| ==> IsSpace(s[n]))
  {
    if s == [] || IsSpace(s[0]) then 0
    else
      var k := WordLength(s[1..]);
      assert s[..1 + k] == [s[0]] + s[1..][..k];
      1 + k
  }

  /** `s.split()`: the maximal runs of non-whitespace, in order. */
  function Words(s: string): (r: seq<string>)
    ensures forall i :: 0 <= i < |r| ==> r[i] != [] && NoSpace(r[i])
    decreases |s|
  {
    if s == [] then []
    else if IsSpace(s[0]) then Words(s[1..])
    else
      var n := WordLength(s);
      [s[..n]] + Words(s[n..])
  }

  lemma {:induction false} WordLengthOfWord(w: string, tail: string)
    requires NoSpace(w)
    requires tail == [] || IsSpace(tail[0])
    ensures WordLength(w + tail) == |w|
  {
    if w != [] {
      assert (w + tail)[1..] == w[1..] + tail;
      WordLengthOfWord(w[1..], tail);
    }
  }

  /** Words joined by single spaces split back into the same words. */
  lemma {:induction false} WordsOfJoin(ws: seq<string>)
    requires forall i :: 0 <= i < |ws| ==> ws[i] != [] && NoSpace(ws[i])
    ensures Words(Join(ws, ' ')) == ws
  {
    if |ws| == 1 {
      WordLengthOfWord(ws[0], []);
      assert ws[0] + [] == ws[0];
      assert ws[0][|ws[0]|..] == [];
    } else if |ws| > 1 {
      var w, tail := ws[0], Join(ws[1..], ' ');
      var s := w + [' '] + tail;
      WordLengthOfWord(w, [' '] + tail);
      assert s == w + ([' '] + tail);
      assert s[..|w|] == w;
      assert s[|w|..] == [' '] + tail;
      assert ([' '] + tail)[1..] == tail;
      WordsOfJoin(ws[1..]);
    }
  }

  /** The characters a strip removes: whitespace (`strip()`) or one
      given character (`strip(ch)`). */
  datatype Stripped = Whitespace | Only(ch: char)

  predicate Drops(d: Stripped, ch: char) {
    match d
    case Whitespace => IsSpace(ch)
    case Only(x) => ch == x
  }

  /** `s.lstrip(...)` and `s.rstrip(...)`. */
  function TrimLeft(s: string, d: Stripped): (r: string)
    ensures |r| <= |s| && r == s[|s| - |r|..]
    ensures r == [] || !Drops(d, r[0])
    ensures forall i :: 0 <= i < |s| - |r| ==> Drops(d, s[i])
  {
    if s != [] && Drops(d, s[0]) then TrimLeft(s[1..], d) else s
  }

  function TrimRight(s: string, d: Stripped): (r: string)
    ensures |r| <= |s| && r == s[..|r|]
    ensures r == [] || !Drops(d, r[|r| - 1])
    ensures forall i :: |r| <= i < |s| ==> Drops(d, s[i])
  {
    if s != [] && Drops(d, s[|s| - 1]) then TrimRight(s[..|s| - 1], d) else s
  }

  /** `s.strip()`. */
  function Strip(s: string): string {
    TrimRight(TrimLeft(s, Whitespace), Whitespace)
  }

  /** `s.strip(ch)` for one character. */
  function StripChar(s: string, ch: char): string {
    TrimRight(TrimLeft(s, Only(ch)), Only(ch))
  }

  /** A string that neither starts nor ends with a stripped character is
      left alone. */
  lemma StripNoop(s: string, d: Stripped)
    requires s == [] || (!Drops(d, s[0]) && !Drops(d, s[|s| - 1]))
    ensures TrimRight(TrimLeft(s, d), d) == s
  {
  }

  /** A join of non-empty pieces starts with the first piece's first
      character and ends with the last piece's last character. */
  lemma {:induction false} JoinEnds(ws: seq<string>, sep: char)
    requires |ws| >= 1 && forall i :: 0 <= i < |ws| ==> ws[i] != []
    ensures var j := Join(ws, sep);
      && j != [] && j[0] == ws[0][0] && j[|j| - 1] == ws[|ws| - 1][|ws[|ws| - 1]| - 1]
  {
    if |ws| > 1 {
      JoinEnds(ws[1..], sep);
    }
  }

  /** Non-empty words without whitespace, as a user types them. */
  predicate TypedWords(words: seq<string>) {
    forall i :: 0 <= i < |words| ==> words[i] != [] && NoSpace(words[i])
  }

  /** A line made of words joined by single spaces: it is not empty,
      stripping leaves it alone, and both `split(" ")` and `split()` give
      the words back. */
  lemma TypedLine(words: seq<string>)
    requires |words| >= 1 && TypedWords(words)
    ensures var line := Join(words, ' ');
      && line != ""
      && Strip(line) == line
      && SplitOn(line, ' ') == words
      && Words(line) == words
  {
    var line := Join(words, ' ');
    JoinEnds(words, ' ');
    StripNoop(line, Whitespace);
    assert forall i :: 0 <= i < |words| ==> ' ' !in words[i] by {
      assert IsSpace(' ');
    }
    SplitOnJoin(words, ' ');
    WordsOfJoin(words);
  }

  /** `xs.index(x)`: the position of the first occurrence. */
  function FirstIndex(xs: seq<string>, x: string): (k: nat)
    requires x in xs
    ensures k < |xs| && xs[k] == x && x !in xs[..k]
  {
    if xs[0] == x then 0
    else
      var k := FirstIndex(xs[1..], x);
      assert xs[..k + 1] == [xs[0]] + xs[1..][..k];
      k + 1
  }
}
