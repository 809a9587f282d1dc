/** The parts of Go's `unicode`, `unicode/utf8` and `strings` packages that
    the validators rely on.

    A Go string is a sequence of bytes holding UTF-8; the model holds the
    decoded runes, so `utf8.RuneCountInString(s)` is `|s|` and `len(s)` is
    `ByteLen(s)`, the exact UTF-8 length of those runes.

    The character classes are exact on Latin-1 (U+0000 to U+00FF), where Go
    consults a fixed property table. Above U+00FF the model does not carry
    the Unicode category tables: no rune there is a letter, a digit or a
    control character, and every rune there that is not white space is
    printable. `IsSpace` is exact everywhere. */
module Text {

  // ---------------------------------------------------------------------
  // Character classes
  // ---------------------------------------------------------------------

  /** `unicode.IsSpace`: the Unicode White_Space property. */
  predicate IsSpace(c: char) {
    c == '\t' || c == '\n' || c == '\U{B}' || c == '\U{C}' || c == '\r' || c == ' '
    || c == '\U{85}' || c == '\U{A0}' || c == '\U{1680}'
    || ('\U{2000}' <= c <= '\U{200A}')
    || c == '\U{2028}' || c == '\U{2029}' || c == '\U{202F}' || c == '\U{205F}' || c == '\U{3000}'
  }

  predicate IsAsciiLetter(c: char) {
    ('a' <= c <= 'z') || ('A' <= c <= 'Z')
  }

  /** `unicode.IsLetter` (categories Lu, Ll, Lt, Lm, Lo). */
  predicate IsLetter(c: char) {
    IsAsciiLetter(c)
    || c == '\U{AA}' || c == '\U{B5}' || c == '\U{BA}'
    || ('\U{C0}' <= c <= '\U{D6}') || ('\U{D8}' <= c <= '\U{F6}') || ('\U{F8}' <= c <= '\U{FF}')
  }

  /** `unicode.IsDigit` (category Nd). */
  predicate IsDigit(c: char) {
    '0' <= c <= '9'
  }

  /** `unicode.IsControl`: C0 and C1 controls; Go answers false above Latin-1. */
  predicate IsControl(c: char) {
    c <= '\U{1F}' || ('\U{7F}' <= c <= '\U{9F}')
  }

  /** `unicode.IsPrint`: letters, marks, numbers, punctuation, symbols and the
      ASCII space; no other space, no control, not the soft hyphen U+00AD. */
  predicate IsPrint(c: char) {
    if c <= '\U{FF}' then
      (' ' <= c <= '~') || ('\U{A1}' <= c <= '\U{AC}') || ('\U{AE}' <= c)
    else
      !IsSpace(c)
  }

  lemma PrintIsNotControl(c: char)
    ensures IsPrint(c) ==> !IsControl(c)
    ensures c == ' ' ==> IsSpace(c) && IsPrint(c)
  {
  }

  predicate IsAscii(s: string) {
    forall i :: 0 <= i < |s| ==> s[i] < '\U{80}'
  }

  // ---------------------------------------------------------------------
  // Byte length
  // ---------------------------------------------------------------------

  /** Number of bytes UTF-8 uses for one rune. */
  function RuneLen(c: char): (n: nat)
    ensures 1 <= n <= 4
    ensures n == 1 <==> c < '\U{80}'
  {
    if c < '\U{80}' then 1
    else if c < '\U{800}' then 2
    else if c < '\U{10000}' then 3
    else 4
  }

  /** `len(s)` for the UTF-8 encoding of the runes of `s`. */
  function ByteLen(s: string): nat {
    if s == [] then 0 else RuneLen(s[0]) + ByteLen(s[1..])
  }

  lemma {:induction false} ByteLenAppend(a: string, b: string)
    ensures ByteLen(a + b) == ByteLen(a) + ByteLen(b)
  {
    if a == [] {
      assert a + b == b;
    } else {
      assert (a + b)[1..] == a[1..] + b;
      ByteLenAppend(a[1..], b);
    }
  }

  /** A rune is never shorter than one byte, and only ASCII is exactly one. */
  lemma {:induction false} ByteLenBounds(s: string)
    ensures |s| <= ByteLen(s)
    ensures ByteLen(s) == |s| <==> IsAscii(s)
  {
    if s != [] {
      ByteLenBounds(s[1..]);
      if IsAscii(s[1..]) && s[0] < '\U{80}' {
        assert IsAscii(s) by {
          forall i | 0 <= i < |s| ensures s[i] < '\U{80}' {
            if i > 0 { assert s[i] == s[1..][i - 1]; }
          }
        }
      }
      if IsAscii(s) {
        assert IsAscii(s[1..]) by {
          forall i | 0 <= i < |s| - 1 ensures s[1..][i] < '\U{80}' {
            assert s[1..][i] == s[i + 1];
          }
        }
      }
    }
  }

  /** `ByteLen` is `|s|` on ASCII text. */
  lemma AsciiByteLen(s: string)
    requires IsAscii(s)
    ensures ByteLen(s) == |s|
  {
    ByteLenBounds(s);
  }

  // ---------------------------------------------------------------------
  // strings.TrimSpace
  // ---------------------------------------------------------------------

  /** Neither the first nor the last rune is white space. */
  predicate Trimmed(s: string) {
    s == [] || (!IsSpace(s[0]) && !IsSpace(s[|s| - 1]))
  }

  predicate AllSpace(s: string) {
    forall i :: 0 <= i < |s| ==> IsSpace(s[i])
  }

  function TrimLeft(s: string): string {
    if s != [] && IsSpace(s[0]) then TrimLeft(s[1..]) else s
  }

  function TrimRight(s: string): string {
    if s != [] && IsSpace(s[|s| - 1]) then TrimRight(s[..|s| - 1]) else s
  }

  /** `TrimLeft` cuts a prefix of white space and stops at a rune that is
      not white space. */
  lemma {:induction false} TrimLeftShape(s: string)
    ensures var r := TrimLeft(s);
            |r| <= |s| && r == s[|s| - |r|..] && (r == [] || !IsSpace(r[0])) && AllSpace(s[..|s| - |r|])
  {
    if s != [] && IsSpace(s[0]) {
      TrimLeftShape(s[1..]);
      var r := TrimLeft(s[1..]);
      assert s[..|s| - |r|] == [s[0]] + s[1..][..|s| - 1 - |r|];
    }
  }

  /** `TrimRight` cuts a suffix of white space and stops at a rune that is
      not white space. */
  lemma {:induction false} TrimRightShape(s: string)
    ensures var r := TrimRight(s);
            |r| <= |s| && r == s[..|r|] && (r == [] || !IsSpace(r[|r| - 1])) && AllSpace(s[|r|..])
  {
    if s != [] && IsSpace(s[|s| - 1]) {
      TrimRightShape(s[..|s| - 1]);
      var r := TrimRight(s[..|s| - 1]);
      assert s[|r|..] == s[..|s| - 1][|r|..] + [s[|s| - 1]];
    }
  }

  /** `strings.TrimSpace`: `s` with its leading and trailing white space cut
      off. */
  function TrimSpace(s: string): (r: string)
    ensures Trimmed(r)
    ensures |r| <= |s|
  {
    TrimLeftShape(s);
    TrimRightShape(TrimLeft(s));
    var l := TrimLeft(s);
    var r := TrimRight(l);
    assert r != [] ==> r[0] == l[0];
    r
  }

  /** Trimming leaves nothing exactly when there was only white space. */
  lemma TrimSpaceEmpty(s: string)
    ensures TrimSpace(s) == [] <==> AllSpace(s)
  {
    var l := TrimLeft(s);
    TrimLeftShape(s);
    TrimRightShape(l);
    var k := |s| - |l|;
    if TrimSpace(s) == [] {
      assert s == s[..k] + l;
      assert l == l[0..];
    } else {
      assert !IsSpace(s[k]);
    }
  }

  /** A string that already has no surrounding white space is unchanged. */
  lemma TrimmedFixpoint(s: string)
    requires Trimmed(s)
    ensures TrimSpace(s) == s
  {
    assert TrimLeft(s) == s;
    assert TrimRight(s) == s;
  }

  /** Trimming twice is trimming once. */
  lemma TrimSpaceIdempotent(s: string)
    ensures TrimSpace(TrimSpace(s)) == TrimSpace(s)
  {
    TrimmedFixpoint(TrimSpace(s));
  }

  lemma {:induction false} TrimLeftSpaces(pre: string, x: string)
    requires AllSpace(pre) && (x == [] || !IsSpace(x[0]))
    ensures TrimLeft(pre + x) == x
  {
    if pre == [] {
      assert pre + x == x;
    } else {
      assert (pre + x)[1..] == pre[1..] + x;
      TrimLeftSpaces(pre[1..], x);
    }
  }

  lemma {:induction false} TrimRightSpaces(x: string, post: string)
    requires AllSpace(post) && (x == [] || !IsSpace(x[|x| - 1]))
    ensures TrimRight(x + post) == x
  {
    if post == [] {
      assert x + post == x;
    } else {
      var p := post[..|post| - 1];
      assert (x + post)[..|x + post| - 1] == x + p;
      TrimRightSpaces(x, p);
    }
  }

  /** Trimming removes exactly the white space added around a trimmed,
      non-empty string. */
  lemma TrimPadded(pre: string, s: string, post: string)
    requires AllSpace(pre) && AllSpace(post)
    requires s != [] && Trimmed(s)
    ensures TrimSpace(pre + s + post) == s
  {
    assert pre + s + post == pre + (s + post);
    TrimLeftSpaces(pre, s + post);
    TrimRightSpaces(s, post);
  }

  // ---------------------------------------------------------------------
  // Searching
  // ---------------------------------------------------------------------

  /** `sub` occurs in `s` starting at position `i`. */
  predicate OccursAt(s: string, sub: string, i: int) {
    0 <= i <= |s| - |sub| && s[i..i + |sub|] == sub
  }

  /** `strings.Contains(s, sub)`. */
  predicate Contains(s: string, sub: string) {
    exists i | 0 <= i <= |s| - |sub| :: OccursAt(s, sub, i)
  }

  /** `strings.HasPrefix(s, p)`. */
  predicate HasPrefix(s: string, p: string) {
    |p| <= |s| && s[..|p|] == p
  }

  /** `strings.HasSuffix(s, p)`. */
  predicate HasSuffix(s: string, p: string) {
    |p| <= |s| && s[|s| - |p|..] == p
  }

  /** `strings.Contains(s, string(c))` for a single rune. */
  lemma ContainsRune(s: string, c: char)
    ensures Contains(s, [c]) <==> c in s
  {
    if c in s {
      var i :| 0 <= i < |s| && s[i] == c;
      assert s[i..i + 1] == [c];
      assert OccursAt(s, [c], i);
    }
    if Contains(s, [c]) {
      var i :| 0 <= i <= |s| - 1 && OccursAt(s, [c], i);
      assert s[i] == s[i..i + 1][0];
    }
  }

  /** `strings.Contains(s, "  ")`, `strings.Contains(s, "..")` and the like:
      two equal runes side by side. */
  lemma ContainsPair(s: string, c: char)
    ensures Contains(s, [c, c]) <==> exists i :: 0 <= i < |s| - 1 && s[i] == c && s[i + 1] == c
  {
    if exists i :: 0 <= i < |s| - 1 && s[i] == c && s[i + 1] == c {
      var i :| 0 <= i < |s| - 1 && s[i] == c && s[i + 1] == c;
      assert OccursAt(s, [c, c], i);
    }
    if Contains(s, [c, c]) {
      var i :| 0 <= i <= |s| - 2 && OccursAt(s, [c, c], i);
      assert s[i] == s[i..i + 2][0] && s[i + 1] == s[i..i + 2][1];
    }
  }

  /** `strings.Index(s, string(c))` for a single rune: the first position of
      `c`, or -1. */
  function IndexOf(s: string, c: char): (r: int)
    ensures -1 <= r < |s|
    ensures r == -1 <==> c !in s
    ensures r >= 0 ==> s[r] == c && c !in s[..r]
  {
    if s == [] then -1
    else if s[0] == c then 0
    else
      var k := IndexOf(s[1..], c);
      if k < 0 then -1
      else
        assert s[..k + 1] == [s[0]] + s[1..][..k];
        k + 1
  }

  /** An occurrence with none before it is the one `IndexOf` finds. */
  lemma {:induction false} IndexOfFirst(s: string, c: char, i: nat)
    requires i < |s| && s[i] == c && c !in s[..i]
    ensures IndexOf(s, c) == i
    decreases i
  {
    if i > 0 {
      assert s[0] == s[..i][0];
      assert s[1..][..i - 1] == s[..i][1..];
      IndexOfFirst(s[1..], c, i - 1);
    }
  }

  /** `strings.Count(s, string(c))` for a single rune. */
  function Count(s: string, c: char): nat {
    multiset(s)[c]
  }

  /** No two `c` side by side. */
  predicate NoAdjacent(s: string, c: char) {
    forall i, j | 0 <= i < |s| && j == i + 1 && j < |s| :: !(s[i] == c && s[j] == c)
  }

  /** `strings.Split(s, string(c))`: the pieces between occurrences of `c`. */
  function Split(s: string, c: char): seq<string>
    decreases |s|
  {
    var k := IndexOf(s, c);
    if k < 0 then [s] else [s[..k]] + Split(s[k + 1..], c)
  }

  /** There is one more piece than separators, no piece holds the
      separator, and joining the pieces gives the string back. */
  lemma {:induction false} SplitShape(s: string, c: char)
    ensures |Split(s, c)| == Count(s, c) + 1
    ensures forall i :: 0 <= i < |Split(s, c)| ==> c !in Split(s, c)[i]
    ensures Join(Split(s, c), c) == s
    decreases |s|
  {
    var k := IndexOf(s, c);
    if k < 0 {
      assert multiset(s)[c] == 0;
    } else {
      var rest := s[k + 1..];
      SplitShape(rest, c);
      assert s == s[..k] + [c] + rest;
      assert multiset(s) == multiset(s[..k]) + multiset([c]) + multiset(rest);
      assert Split(s, c) == [s[..k]] + Split(rest, c);
    }
  }

  /** `strings.Join(pieces, string(c))`. */
  function Join(pieces: seq<string>, c: char): string {
    if |pieces| == 0 then []
    else if |pieces| == 1 then pieces[0]
    else pieces[0] + [c] + Join(pieces[1..], c)
  }

  /** Joining non-empty pieces free of the separator: the result starts with
      the first piece and ends with the last, never holds the separator
      twice in a row, and holds it at all once there are two pieces. */
  lemma {:induction false} JoinShape(p: seq<string>, c: char)
    requires |p| >= 1
    requires forall k | 0 <= k < |p| :: p[k] != [] && c !in p[k]
    ensures var s := Join(p, c);
            s != [] && s[0] == p[0][0] && s[|s| - 1] == p[|p| - 1][|p[|p| - 1]| - 1]
    ensures NoAdjacent(Join(p, c), c)
    ensures |p| >= 2 ==> c in Join(p, c)
  {
    if |p| >= 2 {
      var rest := Join(p[1..], c);
      JoinShape(p[1..], c);
      var s := Join(p, c);
      var n := |p[0]|;
      assert s == p[0] + [c] + rest;
      assert s[n] == c;
      forall i, j | 0 <= i && j == i + 1 && j < |s|
        ensures !(s[i] == c && s[j] == c)
      {
        if i < n {
          assert s[i] == p[0][i];
        } else if i == n {
          assert s[i + 1] == rest[0] == p[1][0];
        } else {
          assert s[i] == rest[i - n - 1] && s[i + 1] == rest[i - n];
        }
      }
    }
  }

  /** A rune found in none of the pieces, other than the separator, is not
      in their join. */
  lemma {:induction false} JoinExcludes(p: seq<string>, c: char, x: char)
    requires x != c
    requires forall k | 0 <= k < |p| :: x !in p[k]
    ensures x !in Join(p, c)
  {
    if |p| >= 2 {
      JoinExcludes(p[1..], c, x);
    }
  }

  /** Splitting a string that neither starts nor ends with the separator
      and never holds it twice in a row gives only non-empty pieces. */
  lemma {:induction false} SplitPiecesNonEmpty(s: string, c: char)
    requires s != [] && s[0] != c && s[|s| - 1] != c
    requires NoAdjacent(s, c)
    ensures forall k | 0 <= k < |Split(s, c)| :: Split(s, c)[k] != []
    decreases |s|
  {
    var k := IndexOf(s, c);
    if k >= 0 {
      var rest := s[k + 1..];
      assert k != 0 && k != |s| - 1;
      assert rest[0] == s[k + 1];
      assert rest[|rest| - 1] == s[|s| - 1];
      forall i, j | 0 <= i && j == i + 1 && j < |rest|
        ensures !(rest[i] == c && rest[j] == c)
      {
        assert rest[i] == s[k + 1 + i] && rest[j] == s[k + 1 + j];
      }
      SplitPiecesNonEmpty(rest, c);
      var pieces := Split(s, c);
      assert pieces == [s[..k]] + Split(rest, c);
      forall j | 0 <= j < |pieces| ensures pieces[j] != [] {
        if j > 0 {
          assert pieces[j] == Split(rest, c)[j - 1];
        }
      }
    }
  }

  // ---------------------------------------------------------------------
  // Runs of marks
  // ---------------------------------------------------------------------

  /** The `n` runes of `s` from position `i` on are all in `marks`. */
  predicate MarksAt(s: string, marks: set<char>, i: int, n: nat) {
    0 <= i <= |s| - n && forall j | i <= j < i + n :: s[j] in marks
  }

  /** Somewhere `s` holds `n` consecutive runes from `marks`. */
  predicate HasRun(s: string, marks: set<char>, n: nat) {
    exists i | 0 <= i <= |s| - n :: MarksAt(s, marks, i, n)
  }

  /** The number of runes from `marks` that `s` ends with. */
  function TrailingRun(s: string, marks: set<char>): (k: nat)
    ensures k <= |s|
  {
    if s == [] || s[|s| - 1] !in marks then 0
    else TrailingRun(s[..|s| - 1], marks) + 1
  }

  lemma {:induction false} TrailingRunWindow(s: string, marks: set<char>, k: nat)
    requires k <= |s|
    ensures MarksAt(s, marks, |s| - k, k) <==> k <= TrailingRun(s, marks)
  {
    if k > 0 {
      var p := s[..|s| - 1];
      TrailingRunWindow(p, marks, k - 1);
      if MarksAt(s, marks, |s| - k, k) {
        assert MarksAt(p, marks, |p| - (k - 1), k - 1) by {
          forall j | |p| - (k - 1) <= j < |p| ensures p[j] in marks {
            assert p[j] == s[j];
          }
        }
      }
      if k <= TrailingRun(s, marks) {
        forall j | |s| - k <= j < |s| ensures s[j] in marks {
          if j < |s| - 1 {
            assert s[j] == p[j];
          }
        }
      }
    }
  }

  /** Extending a string by one rune creates a run of `n` exactly when the
      run it now ends with is `n` long. */
  lemma RunStep(s: string, c: char, marks: set<char>, n: nat)
    requires n > 0
    ensures HasRun(s + [c], marks, n) <==> HasRun(s, marks, n) || TrailingRun(s + [c], marks) >= n
  {
    var t := s + [c];
    assert t[..|t| - 1] == s;
    if HasRun(t, marks, n) {
      var i :| 0 <= i <= |t| - n && MarksAt(t, marks, i, n);
      if i + n <= |s| {
        assert MarksAt(s, marks, i, n) by {
          forall j | i <= j < i + n ensures s[j] in marks {
            assert s[j] == t[j];
          }
        }
      } else {
        TrailingRunWindow(t, marks, n);
      }
    }
    if HasRun(s, marks, n) {
      var i :| 0 <= i <= |s| - n && MarksAt(s, marks, i, n);
      assert MarksAt(t, marks, i, n) by {
        forall j | i <= j < i + n ensures t[j] in marks {
          assert t[j] == s[j];
        }
      }
    }
    if TrailingRun(t, marks) >= n {
      TrailingRunWindow(t, marks, n);
      assert MarksAt(t, marks, |t| - n, n);
    }
  }
}
