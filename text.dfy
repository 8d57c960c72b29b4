/**
 * The string operations the client relies on: ASCII case mapping (for
 * `toLowerCase`/`toUpperCase`), substring search (`includes`), JavaScript's
 * `||` on strings, `split('@')[0]`, splitting and joining on a separator, and
 * the decimal rendering of an integer that template literals such as
 * `/groups/${id}` perform.
 */
module Text {
  import opened Wrappers

  // ---------------------------------------------------------------------------
  // Case mapping (ASCII only)

  predicate IsUpper(c: char) { 'A' <= c <= 'Z' }
  predicate IsLower(c: char) { 'a' <= c <= 'z' }

  function LowerChar(c: char): char {
    if IsUpper(c) then (c as int + 32) as char else c
  }

  function UpperChar(c: char): char {
    if IsLower(c) then (c as int - 32) as char else c
  }

  /** `s.toLowerCase()`, restricted to ASCII letters. */
  function Lower(s: string): (r: string)
    ensures |r| == |s|
    ensures forall i :: 0 <= i < |r| ==> !IsUpper(r[i])
    ensures forall i :: 0 <= i < |r| && !IsUpper(s[i]) ==> r[i] == s[i]
    ensures forall i :: 0 <= i < |s| && IsUpper(s[i]) ==>
              IsLower(r[i]) && r[i] as int - 'a' as int == s[i] as int - 'A' as int
  {
    seq(|s|, i requires 0 <= i < |s| => LowerChar(s[i]))
  }

  /** `s.toUpperCase()`, restricted to ASCII letters. */
  function Upper(s: string): (r: string)
    ensures |r| == |s|
    ensures forall i :: 0 <= i < |r| ==> !IsLower(r[i])
    ensures forall i :: 0 <= i < |r| && !IsLower(s[i]) ==> r[i] == s[i]
    ensures forall i :: 0 <= i < |s| && IsLower(s[i]) ==>
              IsUpper(r[i]) && r[i] as int - 'A' as int == s[i] as int - 'a' as int
  {
    seq(|s|, i requires 0 <= i < |s| => UpperChar(s[i]))
  }

  /** Lower-casing forgets whether a letter was typed in upper case. */
  lemma LowerOfUpper(s: string)
    ensures Lower(Upper(s)) == Lower(s)
  {
    var u := Upper(s);
    forall i | 0 <= i < |s|
      ensures Lower(u)[i] == Lower(s)[i]
    {
      if IsLower(s[i]) {
        assert IsUpper(u[i]) && !IsUpper(s[i]);
      }
    }
  }

  // ---------------------------------------------------------------------------
  // Substring search

  /** `t` occurs in `s` at some position: the meaning of `s.includes(t)`. */
  ghost predicate Occurs(t: string, s: string) {
    exists k :: OccursAt(t, s, k)
  }

  /** `t` occurs in `s` starting at index `k`. */
  ghost predicate OccursAt(t: string, s: string, k: int) {
    0 <= k && k + |t| <= |s| && s[k..k + |t|] == t
  }

  /** `s.includes(t)`: scan `s` left to right for a copy of `t`. */
  function Includes(s: string, t: string): bool
    decreases |s|
  {
    if |t| > |s| then false
    else if s[..|t|] == t then true
    else if |t| == |s| then false
    else Includes(s[1..], t)
  }

  lemma {:induction false} IncludesIffOccurs(s: string, t: string)
    ensures Includes(s, t) <==> Occurs(t, s)
    decreases |s|
  {
    if |t| > |s| {
    } else if s[..|t|] == t {
      assert OccursAt(t, s, 0);
    } else if |t| == |s| {
      assert forall k :: OccursAt(t, s, k) ==> k == 0;
      assert !OccursAt(t, s, 0);
    } else {
      IncludesIffOccurs(s[1..], t);
      if Occurs(t, s) {
        var k :| OccursAt(t, s, k);
        assert k != 0;
        assert s[1..][k - 1..k - 1 + |t|] == s[k..k + |t|];
        assert OccursAt(t, s[1..], k - 1);
      }
      if Occurs(t, s[1..]) {
        var k :| OccursAt(t, s[1..], k);
        assert s[1..][k..k + |t|] == s[k + 1..k + 1 + |t|];
        assert OccursAt(t, s, k + 1);
      }
    }
  }

  /** The empty string is found in every string, so an empty search term keeps everything. */
  lemma IncludesEmpty(s: string)
    ensures Includes(s, "")
  {
  }

  /** A case-insensitive search as the pages do it: both sides lower-cased. */
  predicate MatchesIgnoringCase(text: string, term: string) {
    Includes(Lower(text), Lower(term))
  }

  /** The case the search term is typed in does not matter: typing it in capitals finds the same texts. */
  lemma MatchesTermInCapitals(text: string, term: string)
    ensures MatchesIgnoringCase(text, Upper(term)) == MatchesIgnoringCase(text, term)
  {
    LowerOfUpper(term);
  }

  /** Whatever contains `t + u` contains `t`. */
  lemma IncludesPrefixOfTerm(s: string, t: string, u: string)
    requires Includes(s, t + u)
    ensures Includes(s, t)
  {
    IncludesIffOccurs(s, t + u);
    IncludesIffOccurs(s, t);
    var k :| OccursAt(t + u, s, k);
    assert s[k..k + |t|] == s[k..k + |t + u|][..|t|];
    assert OccursAt(t, s, k);
  }

  /** Typing more of a search term can only drop matches, never add them. */
  lemma MatchesNarrow(text: string, t: string, u: string)
    requires MatchesIgnoringCase(text, t + u)
    ensures MatchesIgnoringCase(text, t)
  {
    assert Lower(t + u) == Lower(t) + Lower(u);
    IncludesPrefixOfTerm(Lower(text), Lower(t), Lower(u));
  }

  // ---------------------------------------------------------------------------
  // JavaScript truthiness on strings

  /** `a || b` on two strings: the empty string is the only falsy string. */
  function OrElse(a: string, b: string): (r: string)
    ensures r == a || r == b
    ensures r == b <==> (a == [] || a == b)
    ensures r != [] <==> (a != [] || b != [])
  {
    if a != [] then a else b
  }

  /** `a || b` where `a` may be undefined. */
  function OptOrElse(a: Option<string>, b: string): (r: string)
    ensures a.Some? && a.value != [] ==> r == a.value
    ensures (a.None? || a.value == []) ==> r == b
  {
    if a.Some? then OrElse(a.value, b) else b
  }

  // ---------------------------------------------------------------------------
  // The local part of an e-mail address

  /** `s.split('@')[0]`: everything before the first '@', or all of `s`. */
  function LocalPart(s: string): (r: string)
    ensures |r| <= |s| && r == s[..|r|]
    ensures '@' !in r
    ensures |r| < |s| ==> s[|r|] == '@'
  {
    if s == [] || s[0] == '@' then [] else [s[0]] + LocalPart(s[1..])
  }

  // ---------------------------------------------------------------------------
  // Splitting and joining on a separator

  /** `s.split(sep)` for a one-character separator: always at least one piece. */
  function Split(s: string, sep: char): (r: seq<string>)
    ensures |r| >= 1
    ensures forall i :: 0 <= i < |r| ==> sep !in r[i]
  {
    if s == [] then [[]]
    else
      var rest := Split(s[1..], sep);
      if s[0] == sep then [[]] + rest else [[s[0]] + rest[0]] + rest[1..]
  }

  /** `parts.join(sep)`. */
  function Join(parts: seq<string>, sep: char): string
    requires |parts| >= 1
  {
    if |parts| == 1 then parts[0] else parts[0] + [sep] + Join(parts[1..], sep)
  }

  lemma {:induction false} SplitPrefix(a: string, rest: string, sep: char)
    requires sep !in a
    ensures Split(a + rest, sep) == [a + Split(rest, sep)[0]] + Split(rest, sep)[1..]
  {
    if a != [] {
      assert (a + rest)[1..] == a[1..] + rest;
      SplitPrefix(a[1..], rest, sep);
      assert [a[0]] + (a[1..] + Split(rest, sep)[0]) == a + Split(rest, sep)[0];
    } else {
      var r := Split(rest, sep);
      assert a + rest == rest;
      assert a + r[0] == r[0];
      assert [r[0]] + r[1..] == r;
    }
  }

  /** Splitting undoes joining when no piece contains the separator. */
  lemma {:induction false} SplitJoin(parts: seq<string>, sep: char)
    requires |parts| >= 1
    requires forall i :: 0 <= i < |parts| ==> sep !in parts[i]
    ensures Split(Join(parts, sep), sep) == parts
    decreases |parts|
  {
    if |parts| == 1 {
      SplitPrefix(parts[0], [], sep);
      assert parts[0] + [] == parts[0];
    } else {
      var tail := Join(parts[1..], sep);
      SplitJoin(parts[1..], sep);
      assert parts[0] + [sep] + tail == parts[0] + ([sep] + tail);
      SplitPrefix(parts[0], [sep] + tail, sep);
      assert ([sep] + tail)[1..] == tail;
      assert parts[0] + [] == parts[0];
    }
  }

  // ---------------------------------------------------------------------------
  // Decimal rendering of integers, and its inverse

  predicate IsDigit(c: char) { '0' <= c <= '9' }

  function DigitChar(d: int): (c: char)
    requires 0 <= d < 10
    ensures IsDigit(c)
  {
    ('0' as int + d) as char
  }

  function DigitValue(c: char): (d: int)
    requires IsDigit(c)
    ensures 0 <= d < 10 && DigitChar(d) == c
  {
    c as int - '0' as int
  }

  /** The decimal digits of `n`, without leading zeros. */
  function NatDigits(n: nat): (r: string)
    ensures |r| >= 1
    ensures forall i :: 0 <= i < |r| ==> IsDigit(r[i])
    ensures (r[0] == '0') <==> n == 0
    decreases n
  {
    if n < 10 then [DigitChar(n)] else NatDigits(n / 10) + [DigitChar(n % 10)]
  }

  /** How a template literal renders an integer-valued number: `${n}`. */
  function Decimal(n: int): (r: string)
    ensures |r| >= 1
    ensures (r[0] == '-') <==> n < 0
    ensures forall i :: 0 <= i < |r| && (i > 0 || n >= 0) ==> IsDigit(r[i])
    ensures n >= 0 ==> (r[0] == '0' <==> n == 0)
    ensures n < 0 ==> |r| >= 2 && r[1] != '0'
  {
    if n < 0 then "-" + NatDigits(-n) else NatDigits(n)
  }

  /** The value of a non-empty string of decimal digits, leading zeros allowed. */
  function ParseDigits(s: string): Option<nat>
    decreases |s|
  {
    if s == [] || !IsDigit(s[|s| - 1]) then None
    else if |s| == 1 then Some(DigitValue(s[0]))
    else match ParseDigits(s[..|s| - 1])
      case None => None
      case Some(p) => Some(p * 10 + DigitValue(s[|s| - 1]))
  }

  /** Reads back a natural number written without leading zeros. */
  function ParseNat(s: string): Option<nat> {
    if |s| >= 2 && s[0] == '0' then None else ParseDigits(s)
  }

  /** Reads back an integer written as `${n}` writes it: no leading zeros, no `-0`. */
  function ParseDecimal(s: string): Option<int> {
    if |s| > 0 && s[0] == '-' then
      match ParseNat(s[1..])
      case None => None
      case Some(p) => if p == 0 then None else Some(-(p as int))
    else
      match ParseNat(s)
      case None => None
      case Some(p) => Some(p)
  }

  lemma {:induction false} ParseDigitsOfNatDigits(n: nat)
    ensures ParseDigits(NatDigits(n)) == Some(n)
    decreases n
  {
    if n >= 10 {
      var d := NatDigits(n / 10);
      ParseDigitsOfNatDigits(n / 10);
      assert (d + [DigitChar(n % 10)])[..|d|] == d;
    }
  }

  lemma ParseNatDigits(n: nat)
    ensures ParseNat(NatDigits(n)) == Some(n)
  {
    ParseDigitsOfNatDigits(n);
  }

  /** A digit string without a leading zero is the rendering of the number it parses to. */
  lemma {:induction false} ParseDigitsCanonical(s: string, n: nat)
    requires ParseDigits(s) == Some(n)
    requires |s| == 1 || s[0] != '0'
    ensures s == NatDigits(n)
    decreases |s|
  {
    if |s| > 1 {
      var init := s[..|s| - 1];
      var p :| ParseDigits(init) == Some(p);
      ParseDigitsCanonical(init, p);
      assert p != 0;
      var d := DigitValue(s[|s| - 1]);
      assert n == p * 10 + d;
      assert n / 10 == p && n % 10 == d;
      assert s == init + [s[|s| - 1]];
    }
  }

  /** Only the canonical rendering of `n` parses to `n`. */
  lemma ParseDecimalCanonical(s: string, n: int)
    requires ParseDecimal(s) == Some(n)
    ensures s == Decimal(n)
  {
    if |s| > 0 && s[0] == '-' {
      var p :| ParseNat(s[1..]) == Some(p);
      ParseDigitsCanonical(s[1..], p);
      assert s == "-" + s[1..];
    } else {
      var p :| ParseNat(s) == Some(p);
      ParseDigitsCanonical(s, p);
    }
  }

  lemma DecimalRoundTrip(n: int)
    ensures ParseDecimal(Decimal(n)) == Some(n)
  {
    if n < 0 {
      ParseNatDigits(-n);
      assert ("-" + NatDigits(-n))[1..] == NatDigits(-n);
    } else {
      ParseNatDigits(n);
    }
  }

  /** Distinct ids render to distinct strings. */
  lemma DecimalInjective(a: int, b: int)
    ensures Decimal(a) == Decimal(b) ==> a == b
  {
    DecimalRoundTrip(a);
    DecimalRoundTrip(b);
  }

  lemma DecimalHasNo(n: int, c: char)
    requires !IsDigit(c) && c != '-'
    ensures c !in Decimal(n)
  {
  }
}
