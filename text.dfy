/**
 * The Python `str` operations the scripts rely on, over seq<char>: strip, split on a
 * character, split on whitespace, splitlines, the `in` substring test, str(int) and int(str).
 * Whitespace is the ASCII part of str.isspace(); splitlines knows only '\n'.
 */
module Text {
  import opened Wrappers

  /**
   * The whitespace str.strip() and str.split() remove, as far as ASCII goes: the six usual
   * blanks and the four separators '\x1c' to '\x1f'.
   */
  predicate IsSpace(c: char) {
    || c == ' ' || c == '\t' || c == '\n' || c == '\r' || c == '\U{000B}' || c == '\U{000C}'
    || c == '\U{001C}' || c == '\U{001D}' || c == '\U{001E}' || c == '\U{001F}'
  }

  predicate NoSpace(s: string) {
    forall i :: 0 <= i < |s| ==> !IsSpace(s[i])
  }

  /** str.lstrip(): s without its leading whitespace. */
  function LStrip(s: string): (r: string)
    ensures |r| <= |s|
  {
    if s != [] && IsSpace(s[0]) then LStrip(s[1..]) else s
  }

  /** lstrip removes a prefix of whitespace and stops at the first non-whitespace character. */
  lemma {:induction false} LStripIsSuffix(s: string)
    ensures var r := LStrip(s);
      && r == s[|s| - |r|..]
      && (r == [] || !IsSpace(r[0]))
      && forall k :: 0 <= k < |s| - |r| ==> IsSpace(s[k])
  {
    if s != [] && IsSpace(s[0]) {
      LStripIsSuffix(s[1..]);
    }
  }

  /** str.rstrip(): s without its trailing whitespace. */
  function RStrip(s: string): (r: string)
    ensures |r| <= |s|
  {
    if s != [] && IsSpace(s[|s| - 1]) then RStrip(s[..|s| - 1]) else s
  }

  /** rstrip removes a suffix of whitespace and stops at the last non-whitespace character. */
  lemma {:induction false} RStripIsPrefix(s: string)
    ensures var r := RStrip(s);
      && r == s[..|r|]
      && (r == [] || !IsSpace(r[|r| - 1]))
      && forall k :: |r| <= k < |s| ==> IsSpace(s[k])
  {
    if s != [] && IsSpace(s[|s| - 1]) {
      RStripIsPrefix(s[..|s| - 1]);
    }
  }

  /** str.strip(): s without its leading and its trailing whitespace. */
  function Strip(s: string): string {
    RStrip(LStrip(s))
  }

  /**
   * The strip of s is the slice of s between its leading and its trailing whitespace, and
   * neither begins nor ends with whitespace.
   */
  lemma StripIsSlice(s: string)
    ensures var r := Strip(s); var i := |s| - |LStrip(s)|;
      && i + |r| <= |s| && r == s[i..i + |r|]
      && (forall k :: 0 <= k < i ==> IsSpace(s[k]))
      && (forall k :: i + |r| <= k < |s| ==> IsSpace(s[k]))
      && (r == [] || (!IsSpace(r[0]) && !IsSpace(r[|r| - 1])))
  {
    var t := LStrip(s);
    var r := RStrip(t);
    var i := |s| - |t|;
    LStripIsSuffix(s);
    RStripIsPrefix(t);
    assert r == s[i..i + |r|] by {
      assert t == s[i..] && r == t[..|r|];
    }
    forall k | i + |r| <= k < |s|
      ensures IsSpace(s[k])
    {
      assert s[k] == t[k - i];
    }
    if r != [] {
      assert r[0] == t[0];
    }
  }

  /** A string with no surrounding whitespace is its own strip. */
  lemma StripUnchanged(s: string)
    requires s == [] || (!IsSpace(s[0]) && !IsSpace(s[|s| - 1]))
    ensures Strip(s) == s
  {
  }

  /** The index of the first c in s, or |s| when s has none. */
  function IndexOf(s: string, c: char): (k: nat)
    ensures k <= |s|
    ensures k < |s| ==> s[k] == c
    ensures c !in s[..k]
  {
    if s == [] || s[0] == c then 0
    else
      var k := 1 + IndexOf(s[1..], c);
      assert s[..k] == [s[0]] + s[1..][..k - 1];
      k
  }

  /** In a prefix of s, the first c is the first c of s, or the end of the prefix. */
  lemma IndexOfPrefix(s: string, n: nat, c: char)
    requires n <= |s|
    ensures IndexOf(s[..n], c) == if IndexOf(s, c) < n then IndexOf(s, c) else n
  {
    var w := s[..n];
    if IndexOf(s, c) < n {
      assert w[IndexOf(s, c)] == c;
    }
  }

  /** sep.join(parts). */
  function Join(parts: seq<string>, sep: char): string {
    if parts == [] then ""
    else if |parts| == 1 then parts[0]
    else parts[0] + [sep] + Join(parts[1..], sep)
  }

  /** str.split(sep) for a one-character separator: the pieces between the separators. */
  function Split(s: string, sep: char): (r: seq<string>)
    ensures |r| >= 1
    ensures forall i :: 0 <= i < |r| ==> sep !in r[i]
    ensures Join(r, sep) == s
  {
    if s == [] then [""]
    else
      var rest := Split(s[1..], sep);
      if s[0] == sep then
        assert ([""] + rest)[1..] == rest;
        [""] + rest
      else
        var r := [[s[0]] + rest[0]] + rest[1..];
        assert r[1..] == rest[1..];
        assert |rest| > 1 ==> Join(rest, sep) == rest[0] + [sep] + Join(rest[1..], sep);
        r
  }

  /** Appending a piece to at least one other adds the separator and the piece. */
  lemma {:induction false} JoinSnoc(parts: seq<string>, last: string, sep: char)
    requires parts != []
    ensures Join(parts + [last], sep) == Join(parts, sep) + [sep] + last
  {
    if |parts| > 1 {
      assert (parts + [last])[1..] == parts[1..] + [last];
      JoinSnoc(parts[1..], last, sep);
    }
  }

  /** The first piece of a split is the text before the first separator; the rest split what follows it. */
  lemma {:induction false} SplitFirstPiece(s: string, sep: char)
    ensures Split(s, sep)[0] == s[..IndexOf(s, sep)]
    ensures IndexOf(s, sep) < |s| ==> Split(s, sep)[1..] == Split(s[IndexOf(s, sep) + 1..], sep)
  {
    if s != [] && s[0] != sep {
      SplitFirstPiece(s[1..], sep);
      assert s[..IndexOf(s, sep)] == [s[0]] + s[1..][..IndexOf(s[1..], sep)];
      if IndexOf(s, sep) < |s| {
        assert s[IndexOf(s, sep) + 1..] == s[1..][IndexOf(s[1..], sep) + 1..];
      }
    }
  }

  /** A split has a second piece exactly when the separator occurs. */
  lemma SplitHasTwoPieces(s: string, sep: char)
    ensures |Split(s, sep)| >= 2 <==> sep in s
  {
    if sep in s {
      assert s[..|s|] == s;
      SplitFirstPiece(s, sep);
    } else {
      SplitWithoutSeparator(s, sep);
    }
  }

  /** A string without the separator splits into itself alone. */
  lemma {:induction false} SplitWithoutSeparator(s: string, sep: char)
    requires sep !in s
    ensures Split(s, sep) == [s]
  {
    if s != [] {
      SplitWithoutSeparator(s[1..], sep);
    }
  }

  /** Splitting at the first separator peels off the text before it. */
  lemma SplitAtFirst(a: string, sep: char, b: string)
    requires sep !in a
    ensures Split(a + [sep] + b, sep) == [a] + Split(b, sep)
  {
    var s := a + [sep] + b;
    var k := IndexOf(s, sep);
    assert s[|a|] == sep;
    assert forall j :: 0 <= j < k ==> s[..k][j] != sep;
    assert k == |a|;
    SplitFirstPiece(s, sep);
    assert s[..k] == a;
    assert s[k + 1..] == b;
    var r := Split(s, sep);
    assert r[0] == a;
    assert r[1..] == Split(b, sep);
    assert r == [r[0]] + r[1..];
  }

  /** Joining all but the first piece of a split gives back the text after the first separator. */
  lemma JoinSplitTail(s: string, sep: char)
    requires sep in s
    ensures Join(Split(s, sep)[1..], sep) == s[IndexOf(s, sep) + 1..]
  {
    SplitFirstPiece(s, sep);
  }

  /** The length of the leading run of non-whitespace characters of s. */
  function WordLength(s: string): (n: nat)
    ensures n <= |s| && NoSpace(s[..n]) && (n < |s| ==> IsSpace(s[n]))
  {
    if s == [] || IsSpace(s[0]) then 0
    else
      var n := 1 + WordLength(s[1..]);
      assert s[..n] == [s[0]] + s[1..][..n - 1];
      n
  }

  /** str.split() without an argument: the maximal runs of non-whitespace characters. */
  function SplitWhitespace(s: string): (r: seq<string>)
    ensures forall i :: 0 <= i < |r| ==> r[i] != [] && NoSpace(r[i])
    ensures r == [] <==> forall i :: 0 <= i < |s| ==> IsSpace(s[i])
    decreases |s|
  {
    var t := LStrip(s);
    LStripIsSuffix(s);
    if t == [] then []
    else
      var n := WordLength(t);
      assert !IsSpace(s[|s| - |t|]) by { assert s[|s| - |t|] == t[0]; }
      [t[..n]] + SplitWhitespace(t[n..])
  }

  /** Whitespace before the first word is skipped. */
  lemma SplitWhitespaceSkipsSpace(s: string)
    requires s != [] && IsSpace(s[0])
    ensures SplitWhitespace(s) == SplitWhitespace(s[1..])
  {
    assert LStrip(s) == LStrip(s[1..]);
  }

  lemma {:induction false} WordLengthOfWord(w: string, rest: string)
    requires NoSpace(w)
    requires rest == [] || IsSpace(rest[0])
    ensures WordLength(w + rest) == |w|
  {
    if w != [] {
      assert (w + rest)[1..] == w[1..] + rest;
      WordLengthOfWord(w[1..], rest);
    }
  }

  /** A word alone, with or without leading blanks, splits into itself. */
  lemma SplitOneWord(v: string)
    requires v != [] && NoSpace(v)
    ensures SplitWhitespace(v) == [v]
    ensures SplitWhitespace(" " + v) == [v]
  {
    WordLengthOfWord(v, "");
    assert v + "" == v;
    assert v[..|v|] == v && v[|v|..] == [];
    assert LStrip(v) == v;
    assert (" " + v)[1..] == v;
    assert LStrip(" " + v) == v;
  }

  /** A leading word ended by whitespace or by the end of the text is the first piece. */
  lemma SplitLeadingWord(w: string, rest: string)
    requires w != [] && NoSpace(w)
    requires rest == [] || IsSpace(rest[0])
    ensures SplitWhitespace(w + rest) == [w] + SplitWhitespace(rest)
  {
    var t := w + rest;
    assert t[0] == w[0];
    assert LStrip(t) == t;
    WordLengthOfWord(w, rest);
    assert t[..|w|] == w;
    assert t[|w|..] == rest;
  }

  /** Two words separated by a blank split into those two words. */
  lemma SplitTwoWords(w: string, v: string)
    requires w != [] && NoSpace(w) && v != [] && NoSpace(v)
    ensures SplitWhitespace(w + (" " + v)) == [w, v]
  {
    SplitLeadingWord(w, " " + v);
    SplitOneWord(v);
  }

  /** A line holding one word splits into that word. */
  lemma WordOfLine(w: string)
    requires w != [] && NoSpace(w)
    ensures SplitWhitespace(Strip(w + "\n")) == [w]
  {
    var line := w + "\n";
    assert line[0] == w[0];
    assert LStrip(line) == line;
    assert line[..|line| - 1] == w;
    assert RStrip(w) == w;
    SplitOneWord(w);
  }

  /** A line holding two words separated by a blank splits into those two words. */
  lemma WordsOfLine(w: string, v: string)
    requires w != [] && NoSpace(w) && v != [] && NoSpace(v)
    ensures SplitWhitespace(Strip(w + " " + v + "\n")) == [w, v]
  {
    var t := w + (" " + v);
    var line := t + "\n";
    assert w + " " + v + "\n" == line;
    assert LStrip(line) == line;
    assert line[..|line| - 1] == t;
    assert RStrip(t) == t;
    assert RStrip(line) == t;
    SplitTwoWords(w, v);
  }

  /** The last piece of a split is empty exactly when the text is empty or ends in the separator. */
  lemma SplitLastPiece(s: string, sep: char)
    ensures var parts := Split(s, sep);
      parts[|parts| - 1] == [] <==> s == [] || s[|s| - 1] == sep
  {
    var parts := Split(s, sep);
    var n := |parts|;
    if n > 1 {
      assert parts == parts[..n - 1] + [parts[n - 1]];
      JoinSnoc(parts[..n - 1], parts[n - 1], sep);
      var last := parts[n - 1];
      if last != [] {
        assert s[|s| - 1] == last[|last| - 1];
      }
    }
  }

  /**
   * str.splitlines() for text whose only line boundary is '\n': the lines between the
   * newlines, where a final '\n' ends the last line instead of starting an empty one.
   */
  function SplitLines(s: string): (r: seq<string>)
    ensures forall i :: 0 <= i < |r| ==> '\n' !in r[i]
    ensures (r == []) <==> (s == [])
    ensures s != [] && s[|s| - 1] == '\n' ==> s == Join(r, '\n') + "\n"
    ensures s != [] && s[|s| - 1] != '\n' ==> s == Join(r, '\n')
  {
    if s == [] then []
    else
      var parts := Split(s, '\n');
      SplitLastPiece(s, '\n');
      if parts[|parts| - 1] == [] then
        var r := parts[..|parts| - 1];
        assert parts == r + [[]];
        assert r != [];
        JoinSnoc(r, [], '\n');
        r
      else parts
  }

  /** sub occurs in s starting at index i. */
  predicate OccursAt(s: string, sub: string, i: nat) {
    i + |sub| <= |s| && s[i..i + |sub|] == sub
  }

  /** Python's `sub in s` for strings: sub is a substring of s. */
  predicate Contains(s: string, sub: string) {
    exists i: nat :: i <= |s| && OccursAt(s, sub, i)
  }

  /** A substring of a slice of s is a substring of s. */
  lemma ContainsOfSlice(s: string, lo: nat, hi: nat, sub: string)
    requires lo <= hi <= |s|
    requires Contains(s[lo..hi], sub)
    ensures Contains(s, sub)
  {
    var i: nat :| i <= hi - lo && OccursAt(s[lo..hi], sub, i);
    var a := s[lo + i..lo + i + |sub|];
    var b := s[lo..hi][i..i + |sub|];
    assert forall k :: 0 <= k < |sub| ==> a[k] == b[k];
    assert a == b;
    assert OccursAt(s, sub, lo + i);
  }

  /** A substring of the stripped text is a substring of the text. */
  lemma ContainsOfStrip(s: string, sub: string)
    requires Contains(Strip(s), sub)
    ensures Contains(s, sub)
  {
    var i := |s| - |LStrip(s)|;
    StripIsSlice(s);
    ContainsOfSlice(s, i, i + |Strip(s)|, sub);
  }

  predicate IsDigit(c: char) {
    '0' <= c <= '9'
  }

  function DigitChar(d: nat): (c: char)
    requires d < 10
    ensures IsDigit(c)
  {
    ('0' as int + d) as char
  }

  function DigitValue(c: char): (d: nat)
    requires IsDigit(c)
    ensures d < 10
  {
    c as int - '0' as int
  }

  /** str(n) for a natural number: its decimal digits, most significant first. */
  function NatToString(n: nat): (r: string)
    ensures r != [] && forall i :: 0 <= i < |r| ==> IsDigit(r[i])
    ensures n > 0 ==> r[0] != '0'
  {
    if n < 10 then [DigitChar(n)] else NatToString(n / 10) + [DigitChar(n % 10)]
  }

  /** str(n) for an int: a minus sign before the digits of a negative number. */
  function IntToString(n: int): string {
    if n < 0 then "-" + NatToString(-n) else NatToString(n)
  }

  /** The number written by a string of digits and underscores; the underscores are skipped. */
  function DigitsValue(s: string): nat
    requires forall i :: 0 <= i < |s| ==> IsDigit(s[i]) || s[i] == '_'
  {
    if s == [] then 0
    else if s[|s| - 1] == '_' then DigitsValue(s[..|s| - 1])
    else 10 * DigitsValue(s[..|s| - 1]) + DigitValue(s[|s| - 1])
  }

  /** The digit strings int() accepts: ASCII digits, with single underscores between digits. */
  predicate IsDigitGroups(s: string) {
    && s != [] && IsDigit(s[0]) && IsDigit(s[|s| - 1])
    && (forall i :: 0 <= i < |s| ==> IsDigit(s[i]) || s[i] == '_')
    && (forall i :: 0 < i < |s| ==> s[i] == '_' ==> s[i - 1] != '_')
  }

  /** int(s) in base 10 for s without surrounding whitespace; None where Python raises ValueError. */
  function ParseInt(s: string): Option<int> {
    if s != [] && (s[0] == '+' || s[0] == '-') then
      if IsDigitGroups(s[1..]) then
        var v: int := DigitsValue(s[1..]);
        Some(if s[0] == '-' then -v else v)
      else None
    else if IsDigitGroups(s) then Some(DigitsValue(s))
    else None
  }

  lemma {:induction false} DigitsValueOfNat(n: nat)
    ensures DigitsValue(NatToString(n)) == n
  {
    if n >= 10 {
      var s := NatToString(n);
      assert s[..|s| - 1] == NatToString(n / 10);
      DigitsValueOfNat(n / 10);
    }
  }

  /** The digits of a natural number are a digit group with no sign in front. */
  lemma NatToStringIsDigitGroups(n: nat)
    ensures IsDigitGroups(NatToString(n))
    ensures NatToString(n)[0] != '+' && NatToString(n)[0] != '-'
  {
    var s := NatToString(n);
    assert IsDigit(s[0]) && IsDigit(s[|s| - 1]);
  }

  /** int(str(n)) == n. */
  lemma IntToStringRoundTrip(n: int)
    ensures ParseInt(IntToString(n)) == Some(n)
  {
    if n < 0 {
      var d := NatToString(-n);
      assert IntToString(n) == "-" + d;
      assert ("-" + d)[0] == '-' && ("-" + d)[1..] == d;
      NatToStringIsDigitGroups(-n);
      DigitsValueOfNat(-n);
    } else {
      NatToStringIsDigitGroups(n);
      DigitsValueOfNat(n);
    }
  }

}
