/** The JavaScript string operations the source relies on: `toLowerCase`,
    `includes`, `replace` with a string pattern, the `\s` class of regular
    expressions, `String(n)` of an integer, and the code-unit order that
    `Array.prototype.sort` uses on strings. */
module Text {
  import opened Wrappers

  // ---- case ----

  predicate IsUpper(c: char) { 'A' <= c <= 'Z' }

  /** Lower-cases the letters A to Z; every other character is kept. */
  function LowerChar(c: char): (d: char)
    ensures !IsUpper(d)
    ensures !IsUpper(c) ==> d == c
  {
    if IsUpper(c) then (c as int + 32) as char else c
  }

  /** `s.toLowerCase()` for the Latin letters A to Z. */
  function ToLower(s: string): (r: string)
    ensures |r| == |s|
    ensures forall i :: 0 <= i < |s| ==> r[i] == LowerChar(s[i])
  {
    seq(|s|, i requires 0 <= i < |s| => LowerChar(s[i]))
  }

  lemma ToLowerIdempotent(s: string)
    ensures ToLower(ToLower(s)) == ToLower(s)
  {
  }

  lemma ToLowerNoUpper(s: string)
    requires forall i :: 0 <= i < |s| ==> !IsUpper(s[i])
    ensures ToLower(s) == s
  {
  }

  // ---- the `\s` class of JavaScript regular expressions ----

  /** White space and line terminators as ECMAScript's `\s` matches them. */
  predicate IsJsWhitespace(c: char)
  {
    c == '\t' || c == '\n' || c == '\U{000B}' || c == '\U{000C}' || c == '\r' || c == ' '
    || c == '\U{00A0}' || c == '\U{1680}' || ('\U{2000}' <= c <= '\U{200A}')
    || c == '\U{2028}' || c == '\U{2029}' || c == '\U{202F}' || c == '\U{205F}'
    || c == '\U{3000}' || c == '\U{FEFF}'
  }

  // ---- searching ----

  /** `p` occurs in `s` starting at index `i`. */
  predicate OccursAt(s: string, p: string, i: int)
  {
    0 <= i && i + |p| <= |s| && s[i..i + |p|] == p
  }

  /** `s.indexOf(p)`, with `None` for -1: the first index where `p` occurs. */
  function IndexOf(s: string, p: string): (r: Option<nat>)
    ensures r.Some? ==> OccursAt(s, p, r.value)
    ensures r.Some? ==> forall j :: 0 <= j < r.value ==> !OccursAt(s, p, j)
    ensures r.None? ==> forall j :: !OccursAt(s, p, j)
    decreases |s|
  {
    if |p| <= |s| && s[..|p|] == p then Some(0)
    else if |s| <= |p| then
      None
    else
      var r := IndexOf(s[1..], p);
      assert !OccursAt(s, p, 0);
      if r.Some? then
        assert forall j :: 0 <= j < r.value + 1 ==> !OccursAt(s, p, j) by {
          forall j | 0 < j < r.value + 1 ensures !OccursAt(s, p, j) {
            ShiftOccurs(s, p, j - 1);
          }
        }
        ShiftOccurs(s, p, r.value);
        Some(r.value + 1)
      else
        assert forall j :: !OccursAt(s, p, j) by {
          forall j | 0 < j ensures !OccursAt(s, p, j) {
            ShiftOccurs(s, p, j - 1);
          }
        }
        None
  }

  lemma ShiftOccurs(s: string, p: string, j: nat)
    requires |s| > 0
    ensures OccursAt(s[1..], p, j) <==> OccursAt(s, p, j + 1)
  {
    if j + |p| <= |s| - 1 {
      assert s[1..][j..j + |p|] == s[j + 1..j + 1 + |p|];
    }
  }

  /** The index `IndexOf` reports is the first occurrence, so any first occurrence is it. */
  lemma IndexOfFirst(s: string, p: string, i: nat)
    requires OccursAt(s, p, i)
    requires forall j :: 0 <= j < i ==> !OccursAt(s, p, j)
    ensures IndexOf(s, p) == Some(i)
  {
  }

  /** A pattern that starts with a character absent from a prefix does not occur inside that prefix. */
  lemma NoOccurrenceBefore(prefix: string, rest: string, p: string)
    requires p != [] && p[0] !in prefix
    ensures forall j :: 0 <= j < |prefix| ==> !OccursAt(prefix + rest, p, j)
  {
    var s := prefix + rest;
    forall j | 0 <= j < |prefix| ensures !OccursAt(s, p, j) {
      assert s[j] == prefix[j];
    }
  }

  /** `s.includes(p)`. */
  predicate Includes(s: string, p: string)
  {
    IndexOf(s, p).Some?
  }

  lemma IncludesIff(s: string, p: string)
    ensures Includes(s, p) <==> exists j :: OccursAt(s, p, j)
  {
  }

  // ---- replace with a string pattern ----

  /** The replacement text that `String.prototype.replace` builds from a
      template when the pattern is a string (GetSubstitution of ECMAScript
      with no capture groups): `$$` is `$`, `$&` the matched text, `` $` ``
      the text before the match, `$'` the text after it; any other `$` is
      kept as it is. */
  function Substitute(template: string, matched: string, before: string, after: string): string
  {
    if template == [] then []
    else if template[0] == '$' && |template| >= 2 then
      var c := template[1];
      if c == '$' then "$" + Substitute(template[2..], matched, before, after)
      else if c == '&' then matched + Substitute(template[2..], matched, before, after)
      else if c == '`' then before + Substitute(template[2..], matched, before, after)
      else if c == '\'' then after + Substitute(template[2..], matched, before, after)
      else "$" + Substitute(template[1..], matched, before, after)
    else [template[0]] + Substitute(template[1..], matched, before, after)
  }

  /** A template without `$` is inserted literally. */
  lemma {:induction false} SubstitutePlain(template: string, matched: string, before: string, after: string)
    requires '$' !in template
    ensures Substitute(template, matched, before, after) == template
  {
    if template != [] {
      assert template[0] != '$';
      assert '$' !in template[1..] by {
        forall k | 0 <= k < |template[1..]| ensures template[1..][k] != '$' {
          assert template[1..][k] == template[k + 1];
        }
      }
      SubstitutePlain(template[1..], matched, before, after);
    }
  }

  /** `s.replace(p, template)` with a string `p`: only the first occurrence
      is replaced. */
  function ReplaceFirst(s: string, p: string, template: string): (r: string)
    ensures IndexOf(s, p).None? ==> r == s
  {
    match IndexOf(s, p)
    case None => s
    case Some(i) =>
      s[..i] + Substitute(template, p, s[..i], s[i + |p|..]) + s[i + |p|..]
  }

  // ---- String(n) for an integer ----

  function DigitChar(d: nat): char
    requires d < 10
  {
    "0123456789"[d]
  }

  function NatToString(n: nat): (r: string)
    ensures |r| >= 1
    ensures forall i :: 0 <= i < |r| ==> '0' <= r[i] <= '9'
  {
    if n < 10 then [DigitChar(n)] else NatToString(n / 10) + [DigitChar(n % 10)]
  }

  /** `String(n)`: decimal digits, with a leading `-` for a negative number. */
  function IntToString(n: int): string
  {
    if n < 0 then "-" + NatToString(-n) else NatToString(n)
  }

  // ---- code-unit order of strings ----

  /** `a` sorts strictly before `b` in the default order of
      `Array.prototype.sort`: lexicographic by character, a proper prefix
      first. */
  predicate StrLess(a: string, b: string)
  {
    if a == [] then b != []
    else if b == [] then false
    else if a[0] != b[0] then a[0] < b[0]
    else StrLess(a[1..], b[1..])
  }

  lemma {:induction false} StrLessIrreflexive(a: string)
    ensures !StrLess(a, a)
  {
    if a != [] { StrLessIrreflexive(a[1..]); }
  }

  lemma {:induction false} StrLessTrichotomy(a: string, b: string)
    ensures a == b || StrLess(a, b) || StrLess(b, a)
  {
    if a != [] && b != [] && a[0] == b[0] {
      StrLessTrichotomy(a[1..], b[1..]);
      if a[1..] == b[1..] {
        assert a == [a[0]] + a[1..] && b == [b[0]] + b[1..];
      }
    }
  }

  lemma {:induction false} StrLessAsymmetric(a: string, b: string)
    ensures !(StrLess(a, b) && StrLess(b, a))
  {
    if a != [] && b != [] && a[0] == b[0] { StrLessAsymmetric(a[1..], b[1..]); }
  }

  lemma {:induction false} StrLessTransitive(a: string, b: string, c: string)
    requires StrLess(a, b) && StrLess(b, c)
    ensures StrLess(a, c)
  {
    if a != [] && b != [] && c != [] && a[0] == b[0] && b[0] == c[0] {
      StrLessTransitive(a[1..], b[1..], c[1..]);
    }
  }
}
