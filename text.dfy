/** String operations the search page relies on, stated over `seq<char>`:
    ASCII lower-casing (`toLowerCase`), ECMAScript `trim`, `includes`,
    `split`/`join` with a non-empty separator, and decimal rendering of a
    number inside a template literal. */
module Text {
  import opened Wrappers

  // ---------------------------------------------------------------------
  // Lower-casing

  /** `toLowerCase` on one character, restricted to ASCII: only 'A'..'Z' change. */
  function LowerChar(c: char): char
  {
    if 'A' <= c <= 'Z' then (c as int + 32) as char else c
  }

  /** `s.toLowerCase()` over ASCII, character by character. */
  function Lower(s: string): (r: string)
    ensures |r| == |s|
    ensures forall i | 0 <= i < |r| :: !('A' <= r[i] <= 'Z')
    ensures forall i | 0 <= i < |r| && !('A' <= s[i] <= 'Z') :: r[i] == s[i]
  {
    seq(|s|, i requires 0 <= i < |s| => LowerChar(s[i]))
  }

  lemma LowerIdempotent(s: string)
    ensures Lower(Lower(s)) == Lower(s)
  {
  }

  lemma LowerAppend(a: string, b: string)
    ensures Lower(a + b) == Lower(a) + Lower(b)
  {
  }

  // ---------------------------------------------------------------------
  // trim

  /** The characters `String.prototype.trim` removes: ECMAScript WhiteSpace
      (TAB, VT, FF, SP, NBSP, ZWNBSP and the other Zs characters) and
      LineTerminator (LF, CR, LS, PS). */
  predicate IsWhitespace(c: char)
  {
    || c == '\t' || c == '\n' || c == '\U{000B}' || c == '\U{000C}' || c == '\r'
    || c == ' ' || c == '\U{00A0}' || c == '\U{1680}'
    || ('\U{2000}' <= c <= '\U{200A}')
    || c == '\U{2028}' || c == '\U{2029}' || c == '\U{202F}' || c == '\U{205F}'
    || c == '\U{3000}' || c == '\U{FEFF}'
  }

  lemma LowerCharKeepsWhitespace(c: char)
    ensures IsWhitespace(LowerChar(c)) <==> IsWhitespace(c)
  {
  }

  /** Drops leading whitespace: the result is the suffix that starts at the
      first non-whitespace character. */
  function TrimStart(s: string): (r: string)
    ensures |r| <= |s| && r == s[|s| - |r|..]
    ensures forall i :: 0 <= i < |s| - |r| ==> IsWhitespace(s[i])
    ensures r == [] || !IsWhitespace(r[0])
    decreases |s|
  {
    if s != [] && IsWhitespace(s[0]) then TrimStart(s[1..]) else s
  }

  /** Drops trailing whitespace: the result is the prefix that ends at the
      last non-whitespace character. */
  function TrimEnd(s: string): (r: string)
    ensures |r| <= |s| && r == s[..|r|]
    ensures forall i :: |r| <= i < |s| ==> IsWhitespace(s[i])
    ensures r == [] || !IsWhitespace(r[|r| - 1])
    decreases |s|
  {
    if s != [] && IsWhitespace(s[|s| - 1]) then TrimEnd(s[..|s| - 1]) else s
  }

  /** `s.trim()`. Every use in the page only asks whether the result is
      empty (falsy), which happens exactly for all-whitespace strings. */
  function Trim(s: string): (r: string)
    ensures r == [] <==> forall i :: 0 <= i < |s| ==> IsWhitespace(s[i])
    ensures r != [] ==> !IsWhitespace(r[0]) && !IsWhitespace(r[|r| - 1])
  {
    TrimEnd(TrimStart(s))
  }

  /** Lower-casing never turns a blank string into a non-blank one or back. */
  lemma TrimLowerBlank(s: string)
    ensures Trim(Lower(s)) == [] <==> Trim(s) == []
  {
    forall i | 0 <= i < |s|
      ensures IsWhitespace(Lower(s)[i]) <==> IsWhitespace(s[i])
    {
      LowerCharKeepsWhitespace(s[i]);
    }
  }

  // ---------------------------------------------------------------------
  // includes

  /** `q` occurs in `s` starting at index `i`. */
  predicate OccursAt(s: string, q: string, i: int)
  {
    0 <= i && i + |q| <= |s| && s[i..i + |q|] == q
  }

  /** `s.includes(q)`. */
  predicate Contains(s: string, q: string)
    ensures q == [] ==> Contains(s, q)
    ensures Contains(s, q) ==> |q| <= |s|
  {
    assert q == [] ==> OccursAt(s, q, 0);
    exists i | 0 <= i <= |s| - |q| :: OccursAt(s, q, i)
  }

  /** `i` is where the first occurrence of `q` in `s` starts. */
  predicate FirstOccurrence(s: string, q: string, i: int)
  {
    OccursAt(s, q, i) && forall j :: 0 <= j < i ==> !OccursAt(s, q, j)
  }

  lemma ContainsLeft(a: string, b: string, q: string)
    requires Contains(a, q)
    ensures Contains(a + b, q)
  {
    var i :| 0 <= i <= |a| - |q| && OccursAt(a, q, i);
    assert (a + b)[i..i + |q|] == a[i..i + |q|];
    assert OccursAt(a + b, q, i);
  }

  lemma ContainsRight(a: string, b: string, q: string)
    requires Contains(b, q)
    ensures Contains(a + b, q)
  {
    var i :| 0 <= i <= |b| - |q| && OccursAt(b, q, i);
    assert (a + b)[i + |a|..i + |a| + |q|] == b[i..i + |q|];
    assert OccursAt(a + b, q, i + |a|);
  }

  /** `q` occurs in the lower-cased `s` at `i` when each character of `s`
      from `i` on lower-cases to the corresponding character of `q`. */
  lemma LowerOccurs(s: string, q: string, i: nat)
    requires i + |q| <= |s|
    requires forall k | 0 <= k < |q| :: LowerChar(s[i + k]) == q[k]
    ensures OccursAt(Lower(s), q, i)
  {
    assert Lower(s)[i..i + |q|] == q;
  }

  /** An occurrence in `a + b` cannot straddle the seam when the last
      character of `a` does not occur in `q`. */
  lemma NoStraddle(a: string, b: string, q: string)
    requires |a| > 0 && a[|a| - 1] !in q
    requires Contains(a + b, q)
    ensures Contains(a, q) || Contains(b, q)
  {
    var i :| 0 <= i <= |a + b| - |q| && OccursAt(a + b, q, i);
    if i + |q| <= |a| {
      assert (a + b)[i..i + |q|] == a[i..i + |q|];
      assert OccursAt(a, q, i);
    } else if i >= |a| {
      assert (a + b)[i..i + |q|] == b[i - |a|..i - |a| + |q|];
      assert OccursAt(b, q, i - |a|);
    } else {
      SeamChar(a, b, q, i);
    }
  }

  /** The contrapositive form used for negative results: a query that
      occurs in neither part, and cannot straddle the seam, does not occur
      in the concatenation. */
  lemma SeamAbsent(a: string, b: string, q: string)
    requires |a| > 0 && a[|a| - 1] !in q
    requires !Contains(a, q) && !Contains(b, q)
    ensures !Contains(a + b, q)
  {
    if Contains(a + b, q) {
      NoStraddle(a, b, q);
    }
  }

  lemma SeamChar(a: string, b: string, q: string, i: int)
    requires OccursAt(a + b, q, i) && i < |a| < i + |q|
    ensures a[|a| - 1] in q
  {
    assert q[|a| - 1 - i] == (a + b)[i..i + |q|][|a| - 1 - i] == a[|a| - 1];
  }

  /** No character of `s` lower-cases to a member of `cs`. */
  predicate Avoids(s: string, cs: set<char>)
  {
    forall i | 0 <= i < |s| :: LowerChar(s[i]) !in cs
  }

  lemma AvoidsAppend(a: string, b: string, cs: set<char>)
    requires Avoids(a, cs) && Avoids(b, cs)
    ensures Avoids(a + b, cs)
  {
    forall i | 0 <= i < |a + b|
      ensures LowerChar((a + b)[i]) !in cs
    {
      if i < |a| {
        assert (a + b)[i] == a[i];
      } else {
        assert (a + b)[i] == b[i - |a|];
      }
    }
  }

  /** If lower-casing `s` never produces the character `q[k]`, then `q`
      does not occur in the lower-cased `s`. */
  lemma AvoidsAbsent(s: string, q: string, cs: set<char>, k: nat)
    requires k < |q| && q[k] in cs && Avoids(s, cs)
    ensures !Contains(Lower(s), q)
  {
  }

  // ---------------------------------------------------------------------
  // split and join

  /** The first occurrence of `sep` in `s` at or after `from` (what
      `split` looks for next). */
  function FindFrom(s: string, sep: string, from: nat): (r: Option<nat>)
    requires |sep| > 0
    ensures r.Some? ==> from <= r.value && OccursAt(s, sep, r.value)
    ensures r.Some? ==> forall j :: from <= j < r.value ==> !OccursAt(s, sep, j)
    ensures r.None? ==> forall j :: from <= j ==> !OccursAt(s, sep, j)
    decreases |s| - from
  {
    if from + |sep| > |s| then None
    else if s[from..from + |sep|] == sep then Some(from)
    else FindFrom(s, sep, from + 1)
  }

  /** `s.split(sep)` for a non-empty separator: the pieces between the
      non-overlapping occurrences of `sep`, scanning left to right. */
  function Split(s: string, sep: string): (parts: seq<string>)
    requires |sep| > 0
    ensures |parts| >= 1
    decreases |s|
  {
    match FindFrom(s, sep, 0)
    case None => [s]
    case Some(i) => [s[..i]] + Split(s[i + |sep|..], sep)
  }

  /** `parts.join(sep)`. */
  function Join(parts: seq<string>, sep: string): (r: string)
    ensures |parts| == 0 ==> r == ""
    ensures |parts| > 0 ==> |parts[0]| <= |r| && r[..|parts[0]|] == parts[0]
  {
    if |parts| == 0 then ""
    else if |parts| == 1 then parts[0]
    else parts[0] + sep + Join(parts[1..], sep)
  }

  /** Joining the pieces of a split with the same separator gives back the
      original string. */
  lemma {:induction false} JoinSplit(s: string, sep: string)
    requires |sep| > 0
    ensures Join(Split(s, sep), sep) == s
    decreases |s|
  {
    match FindFrom(s, sep, 0)
    case None =>
    case Some(i) =>
      var rest := s[i + |sep|..];
      var parts := Split(s, sep);
      assert parts == [s[..i]] + Split(rest, sep);
      JoinSplit(rest, sep);
      assert parts[1..] == Split(rest, sep);
      assert Join(parts, sep) == s[..i] + sep + Join(parts[1..], sep);
      assert s == s[..i] + s[i..i + |sep|] + rest;
  }

  /** A split has more than one piece exactly when the separator occurs;
      its first piece is the text before the first occurrence. */
  lemma SplitFirst(s: string, sep: string)
    requires |sep| > 0
    ensures |Split(s, sep)| > 1 <==> Contains(s, sep)
    ensures !Contains(s, sep) ==> Split(s, sep) == [s]
    ensures Contains(s, sep) ==>
      exists i :: OccursAt(s, sep, i)
        && (forall j :: 0 <= j < i ==> !OccursAt(s, sep, j))
        && Split(s, sep)[0] == s[..i]
        && Split(s, sep)[1..] == Split(s[i + |sep|..], sep)
  {
    match FindFrom(s, sep, 0)
    case None =>
    case Some(i) =>
      assert Contains(s, sep) by {
        assert 0 <= i <= |s| - |sep| && OccursAt(s, sep, i);
      }
  }

  /** When the separator occurs, the first piece, the separator and the
      other pieces joined again give back the string. */
  lemma SplitRejoin(s: string, sep: string)
    requires |sep| > 0 && Contains(s, sep)
    ensures var parts := Split(s, sep);
      |parts| > 1 && parts[0] + sep + Join(parts[1..], sep) == s
  {
    JoinSplit(s, sep);
    SplitFirst(s, sep);
  }

  /** The first piece is the text before the first occurrence of the
      separator: it holds none, and it is empty exactly when the string
      opens with the separator. */
  lemma SplitHead(s: string, sep: string)
    requires |sep| > 0 && Contains(s, sep)
    ensures !Contains(Split(s, sep)[0], sep)
    ensures Split(s, sep)[0] == [] <==> OccursAt(s, sep, 0)
  {
    var i := FindFrom(s, sep, 0).value;
    assert Split(s, sep)[0] == s[..i];
    forall j | 0 <= j <= i - |sep|
      ensures !OccursAt(s[..i], sep, j)
    {
      assert s[..i][j..j + |sep|] == s[j..j + |sep|];
      assert !OccursAt(s, sep, j);
    }
  }

  /** The pieces after the first, joined again, are the text after the
      first occurrence of the separator. */
  lemma SplitTail(s: string, sep: string)
    requires |sep| > 0
    ensures forall i | FirstOccurrence(s, sep, i) :: Join(Split(s, sep)[1..], sep) == s[i + |sep|..]
  {
    forall i | FirstOccurrence(s, sep, i)
      ensures Join(Split(s, sep)[1..], sep) == s[i + |sep|..]
    {
      assert FindFrom(s, sep, 0) == Some(i);
      assert Split(s, sep)[1..] == Split(s[i + |sep|..], sep);
      JoinSplit(s[i + |sep|..], sep);
    }
  }

  // ---------------------------------------------------------------------
  // Decimal rendering of a number

  function DigitChar(d: nat): char
    requires d < 10
  {
    ('0' as int + d) as char
  }

  predicate IsDigits(s: string)
  {
    forall i | 0 <= i < |s| :: '0' <= s[i] <= '9'
  }

  /** What `${n}` produces for a non-negative integer: its decimal digits,
      most significant first, without leading zeros. */
  function NatToString(n: nat): (r: string)
    ensures |r| >= 1 && IsDigits(r)
    ensures r[0] == '0' ==> n == 0
    decreases n
  {
    if n < 10 then [DigitChar(n)] else NatToString(n / 10) + [DigitChar(n % 10)]
  }

  /** The value of a string of decimal digits. */
  function DecimalValue(s: string): nat
    requires IsDigits(s)
  {
    if s == [] then 0
    else DecimalValue(s[..|s| - 1]) * 10 + (s[|s| - 1] as int - '0' as int)
  }

  /** Reading back the rendered digits gives the number. */
  lemma {:induction false} DecimalRoundTrip(n: nat)
    ensures DecimalValue(NatToString(n)) == n
    decreases n
  {
    if n >= 10 {
      DecimalRoundTrip(n / 10);
      var s := NatToString(n);
      assert s[..|s| - 1] == NatToString(n / 10);
    }
  }
}
