/** The few string operations the plug-ins rely on. */
module Text {

  function LowerChar(c: char): char {
    if 'A' <= c <= 'Z' then c - 'A' + 'a' else c
  }

  /** ASCII lower-casing, character by character. */
  function Lower(s: string): string {
    seq(|s|, i requires 0 <= i < |s| => LowerChar(s[i]))
  }

  // ---------------------------------------------------------------------------------------------
  // Splitting
  // ---------------------------------------------------------------------------------------------

  /** The pieces between the separators; there is always one. */
  function Split(s: string, sep: char): (pieces: seq<string>)
    ensures |pieces| > 0
  {
    if s == [] then [[]]
    else
      var rest := Split(s[1..], sep);
      if s[0] == sep then [[]] + rest else [[s[0]] + rest[0]] + rest[1..]
  }

  lemma {:induction false} SplitNone(s: string, sep: char)
    requires sep !in s
    ensures Split(s, sep) == [s]
  {
    if s != [] {
      assert s == [s[0]] + s[1..];
      SplitNone(s[1..], sep);
    }
  }

  lemma {:induction false} SplitFirst(a: string, sep: char, b: string)
    requires sep !in a
    ensures Split(a + [sep] + b, sep) == [a] + Split(b, sep)
  {
    var s := a + [sep] + b;
    if a == [] {
      assert s[1..] == b;
    } else {
      assert a == [a[0]] + a[1..];
      assert s[1..] == a[1..] + [sep] + b;
      SplitFirst(a[1..], sep, b);
      assert Split(s[1..], sep)[1..] == Split(b, sep);
    }
  }

  /** No piece contains the separator. */
  lemma {:induction false} SplitPieces(s: string, sep: char)
    ensures forall p <- Split(s, sep) :: sep !in p
  {
    if s != [] {
      var rest := Split(s[1..], sep);
      SplitPieces(s[1..], sep);
      assert rest[0] in rest;
      forall p <- Split(s, sep) ensures sep !in p {
        if p in rest[1..] { assert p in rest; }
      }
    }
  }

  function Join(pieces: seq<string>, sep: char): string
    requires |pieces| > 0
  {
    if |pieces| == 1 then pieces[0] else pieces[0] + [sep] + Join(pieces[1..], sep)
  }

  /** The pieces are all there is between the separators. */
  lemma {:induction false} JoinSplit(s: string, sep: char)
    ensures Join(Split(s, sep), sep) == s
  {
    if s != [] {
      JoinSplit(s[1..], sep);
      var rest := Split(s[1..], sep);
      if s[0] == sep {
        assert ([[]] + rest)[1..] == rest;
      } else {
        assert Split(s, sep)[1..] == rest[1..];
        assert s == [s[0]] + s[1..];
      }
    }
  }

  /** A text with only one separator is cut there and nowhere else. */
  lemma CutOnce(a: string, b: string, c: string, d: string, sep: char)
    requires a + [sep] + b == c + [sep] + d && sep !in c && sep !in d
    ensures a == c && b == d
  {
    var s := c + [sep] + d;
    assert forall i :: 0 <= i < |c| ==> s[i] == c[i] && s[i] in c;
    assert forall i :: |c| < i < |s| ==> s[i] == d[i - |c| - 1] && s[i] in d;
    assert s[|a|] == sep && |a| == |c|;
    assert a == s[..|c|] && b == s[|c| + 1..];
    assert c == s[..|c|] && d == s[|c| + 1..];
  }

  // ---------------------------------------------------------------------------------------------
  // Trimming
  // ---------------------------------------------------------------------------------------------

  predicate IsSpace(c: char) {
    c == ' ' || '\U{0009}' <= c <= '\U{000D}'
  }

  function TrimLeft(s: string): string {
    if s != [] && IsSpace(s[0]) then TrimLeft(s[1..]) else s
  }

  function TrimRight(s: string): string {
    if s != [] && IsSpace(s[|s| - 1]) then TrimRight(s[..|s| - 1]) else s
  }

  function TrimSpace(s: string): string {
    TrimRight(TrimLeft(s))
  }

  lemma {:induction false} TrimRightEnd(s: string)
    ensures TrimRight(s) <= s
    ensures TrimRight(s) != [] ==> !IsSpace(TrimRight(s)[|TrimRight(s)| - 1])
  {
    if s != [] && IsSpace(s[|s| - 1]) {
      TrimRightEnd(s[..|s| - 1]);
    }
  }

  lemma {:induction false} TrimLeftPart(s: string)
    ensures forall c <- TrimLeft(s) :: c in s
  {
    if s != [] && IsSpace(s[0]) {
      TrimLeftPart(s[1..]);
    }
  }

  /** Trimming only leaves characters out, and no space at the end. */
  lemma TrimSpacePart(s: string)
    ensures forall c <- TrimSpace(s) :: c in s
    ensures TrimSpace(s) != [] ==> !IsSpace(TrimSpace(s)[|TrimSpace(s)| - 1])
  {
    TrimLeftPart(s);
    TrimRightEnd(TrimLeft(s));
  }

  /** A text without space at either end is left as it is, up to one space before it. */
  lemma TrimSpaceNothing(s: string)
    requires s != [] && !IsSpace(s[0]) && !IsSpace(s[|s| - 1])
    ensures TrimSpace(s) == s && TrimSpace([' '] + s) == s
  {
    assert ([' '] + s)[1..] == s;
  }
}
