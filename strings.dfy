/**
 * String operations of JavaScript's String.prototype that the source relies on:
 * trim, includes, endsWith, split on one character, join, a first-match
 * replace with a string pattern, and the decimal rendering of an integer.
 */
module Strings {

  /** The characters removed by String.prototype.trim: WhiteSpace and LineTerminator in ECMA-262. */
  predicate IsWhitespace(c: char) {
    || c == '\t' || c == '\n' || c == '\U{000B}' || c == '\U{000C}' || c == '\r' || c == ' '
    || c == '\U{00A0}' || c == '\U{1680}' || ('\U{2000}' <= c <= '\U{200A}')
    || c == '\U{2028}' || c == '\U{2029}' || c == '\U{202F}' || c == '\U{205F}'
    || c == '\U{3000}' || c == '\U{FEFF}'
  }

  /** Every character of `s` is whitespace (the empty string included). */
  predicate IsBlank(s: string) {
    forall i :: 0 <= i < |s| ==> IsWhitespace(s[i])
  }

  /** The number of whitespace characters at the start of `s`. */
  function LeadingWhitespace(s: string): (n: nat)
    ensures n <= |s| && (n < |s| ==> !IsWhitespace(s[n]))
    ensures forall i :: 0 <= i < n ==> IsWhitespace(s[i])
    decreases |s|
  {
    if |s| > 0 && IsWhitespace(s[0]) then
      var n := LeadingWhitespace(s[1..]);
      assert forall i :: 1 <= i < n + 1 ==> s[i] == s[1..][i - 1];
      n + 1
    else
      0
  }

  /** The number of whitespace characters at the end of `s`. */
  function TrailingWhitespace(s: string): (n: nat)
    ensures n <= |s| && (n < |s| ==> !IsWhitespace(s[|s| - 1 - n]))
    ensures forall i :: |s| - n <= i < |s| ==> IsWhitespace(s[i])
    decreases |s|
  {
    if |s| > 0 && IsWhitespace(s[|s| - 1]) then
      var n := TrailingWhitespace(s[..|s| - 1]);
      assert forall i :: |s| - 1 - n <= i < |s| - 1 ==> s[i] == s[..|s| - 1][i];
      n + 1
    else
      0
  }

  /** `s` with its leading whitespace removed. */
  function TrimStart(s: string): (r: string)
    ensures |r| <= |s| && r == s[|s| - |r|..]
    ensures IsBlank(s[..|s| - |r|])
    ensures r == [] || !IsWhitespace(r[0])
  {
    var n := LeadingWhitespace(s);
    assert forall i :: 0 <= i < n ==> s[..n][i] == s[i];
    s[n..]
  }

  /** `s` with its trailing whitespace removed. */
  function TrimEnd(s: string): (r: string)
    ensures |r| <= |s| && r == s[..|r|]
    ensures IsBlank(s[|r|..])
    ensures r == [] || !IsWhitespace(r[|r| - 1])
  {
    var n := TrailingWhitespace(s);
    assert forall i :: |s| - n <= i < |s| ==> s[|s| - n..][i - (|s| - n)] == s[i];
    s[..|s| - n]
  }

  /** String.prototype.trim. */
  function Trim(s: string): string {
    TrimEnd(TrimStart(s))
  }

  /** `s.trim()` is empty exactly when `s` consists of whitespace only. */
  lemma TrimEmptyIffBlank(s: string)
    ensures Trim(s) == "" <==> IsBlank(s)
  {
    var t := TrimStart(s);
    var k := |s| - |t|;
    if t == "" {
      assert s[..k] == s;
    } else {
      assert s[k] == t[0];
      assert !IsBlank(s);
      var u := TrimEnd(t);
      assert u != "";
    }
  }


  /** The JavaScript truthiness of `s.trim()` (line filters and empty-script checks). */
  lemma TrimNonEmptyIffNotBlank(s: string)
    ensures Trim(s) != "" <==> !IsBlank(s)
  {
    TrimEmptyIffBlank(s);
  }

  /** `sub` occurs in `s` starting at index `i`. */
  ghost predicate OccursAt(s: string, sub: string, i: int) {
    0 <= i && i + |sub| <= |s| && s[i..i + |sub|] == sub
  }

  /** String.prototype.includes: `sub` occurs somewhere in `s`. */
  function Contains(s: string, sub: string): bool
    decreases |s|
  {
    if sub <= s then true
    else if |s| == 0 then false
    else Contains(s[1..], sub)
  }

  /** The scan in Contains finds exactly the occurrences that exist. */
  lemma {:induction false} ContainsIff(s: string, sub: string)
    ensures Contains(s, sub) <==> exists i :: OccursAt(s, sub, i)
    decreases |s|
  {
    if sub <= s {
      assert OccursAt(s, sub, 0);
    } else if |s| == 0 {
      assert forall i :: !OccursAt(s, sub, i);
    } else {
      ContainsIff(s[1..], sub);
      forall i | OccursAt(s[1..], sub, i)
        ensures OccursAt(s, sub, i + 1)
      {
        assert s[i + 1..i + 1 + |sub|] == s[1..][i..i + |sub|];
      }
      forall i | OccursAt(s, sub, i)
        ensures OccursAt(s[1..], sub, i - 1)
      {
        assert s[1..][i - 1..i - 1 + |sub|] == s[i..i + |sub|];
      }
    }
  }

  /** Every string contains itself. */
  lemma ContainsSelf(s: string)
    ensures Contains(s, s)
  {
  }

  /** A concatenation contains its left part. */
  lemma ContainsLeft(a: string, b: string)
    ensures Contains(a + b, a)
  {
    assert a <= a + b;
  }

  /** A concatenation contains its right part. */
  lemma ContainsRight(a: string, b: string)
    ensures Contains(a + b, b)
  {
    assert OccursAt(a + b, b, |a|) by {
      assert (a + b)[|a|..|a| + |b|] == b;
    }
    ContainsIff(a + b, b);
  }

  /** Containment is transitive. */
  lemma ContainsTrans(a: string, b: string, c: string)
    requires Contains(a, b) && Contains(b, c)
    ensures Contains(a, c)
  {
    ContainsIff(a, b);
    ContainsIff(b, c);
    var i :| OccursAt(a, b, i);
    var j :| OccursAt(b, c, j);
    forall k | 0 <= k < |c|
      ensures a[i + j + k] == c[k]
    {
      assert b[j..j + |c|][k] == c[k];
      assert a[i..i + |b|][j + k] == b[j + k];
    }
    assert a[i + j..i + j + |c|] == c;
    assert OccursAt(a, c, i + j);
    ContainsIff(a, c);
  }

  /** Appending to a string keeps what it contains. */
  lemma ContainsExtend(a: string, b: string, c: string)
    requires Contains(a, c)
    ensures Contains(a + b, c)
  {
    ContainsLeft(a, b);
    ContainsTrans(a + b, a, c);
  }

  /** Prepending to a string keeps what it contains. */
  lemma ContainsPrepend(a: string, b: string, c: string)
    requires Contains(b, c)
    ensures Contains(a + b, c)
  {
    ContainsRight(a, b);
    ContainsTrans(a + b, b, c);
  }

  /** A concatenation contains each of its middle parts. */
  lemma ContainsMiddle(a: string, b: string, c: string)
    ensures Contains(a + b + c, b)
  {
    ContainsRight(a, b);
    ContainsExtend(a + b, c, b);
  }

  /** A string lacking some character of `sub` cannot contain `sub`. */
  lemma NotContainsMissingChar(s: string, sub: string, k: nat)
    requires k < |sub| && sub[k] !in s
    ensures !Contains(s, sub)
  {
    ContainsIff(s, sub);
  }

  /** String.prototype.endsWith. */
  predicate EndsWith(s: string, suffix: string) {
    |suffix| <= |s| && s[|s| - |suffix|..] == suffix
  }

  /** A concatenation ends with its right part. */
  lemma EndsWithRight(a: string, b: string)
    ensures EndsWith(a + b, b)
  {
    assert (a + b)[|a|..] == b;
  }

  /** Prepending to a string keeps its suffixes. */
  lemma EndsWithPrepend(a: string, b: string, c: string)
    requires EndsWith(b, c)
    ensures EndsWith(a + b, c)
  {
    assert (a + b)[|a + b| - |c|..] == b[|b| - |c|..];
  }

  /** The pieces of a list concatenated in order. */
  function Concat(parts: seq<string>): string {
    if parts == [] then "" else parts[0] + Concat(parts[1..])
  }

  /** A concatenation contains each of its pieces. */
  lemma {:induction false} ConcatContainsPart(parts: seq<string>, i: nat)
    requires i < |parts|
    ensures Contains(Concat(parts), parts[i])
  {
    if i == 0 {
      ContainsLeft(parts[0], Concat(parts[1..]));
    } else {
      ConcatContainsPart(parts[1..], i - 1);
      ContainsPrepend(parts[0], Concat(parts[1..]), parts[i]);
    }
  }

  /** A concatenation ends with its last piece. */
  /** A character that no part holds is not in the concatenation. */
  lemma {:induction false} ConcatLacks(parts: seq<string>, c: char)
    requires forall i :: 0 <= i < |parts| ==> c !in parts[i]
    ensures c !in Concat(parts)
  {
    if parts != [] {
      ConcatLacks(parts[1..], c);
    }
  }

  lemma {:induction false} ConcatEndsWithLast(parts: seq<string>)
    requires |parts| > 0
    ensures EndsWith(Concat(parts), parts[|parts| - 1])
  {
    if |parts| == 1 {
      assert Concat(parts) == parts[0] + "";
      assert parts[0] + "" == parts[0];
    } else {
      ConcatEndsWithLast(parts[1..]);
      EndsWithPrepend(parts[0], Concat(parts[1..]), parts[|parts| - 1]);
    }
  }

  /** Array.prototype.join over strings: the parts with `sep` between neighbours. */
  function Join(parts: seq<string>, sep: string): string
    decreases |parts|
  {
    if |parts| == 0 then ""
    else if |parts| == 1 then parts[0]
    else parts[0] + sep + Join(parts[1..], sep)
  }

  /** Joining a list extended at its end appends one separator and the new part. */
  lemma {:induction false} JoinSnoc(parts: seq<string>, last: string, sep: string)
    requires |parts| > 0
    ensures Join(parts + [last], sep) == Join(parts, sep) + sep + last
    decreases |parts|
  {
    if |parts| == 1 {
      assert (parts + [last])[1..] == [last];
    } else {
      assert (parts + [last])[1..] == parts[1..] + [last];
      JoinSnoc(parts[1..], last, sep);
    }
  }

  /** The length of a join: every part once, one separator between each two neighbours. */
  lemma {:induction false} JoinLength(parts: seq<string>, sep: string)
    requires |parts| > 0
    ensures |Join(parts, sep)| == TotalLength(parts) + (|parts| - 1) * |sep|
    decreases |parts|
  {
    if |parts| > 1 {
      JoinLength(parts[1..], sep);
    }
  }

  /** The sum of the lengths of `parts`. */
  function TotalLength(parts: seq<string>): nat
    decreases |parts|
  {
    if |parts| == 0 then 0 else |parts[0]| + TotalLength(parts[1..])
  }

  /** Every part occurs in the joined string. */
  lemma {:induction false} JoinContainsParts(parts: seq<string>, sep: string, i: nat)
    requires i < |parts|
    ensures Contains(Join(parts, sep), parts[i])
    decreases |parts|
  {
    if |parts| == 1 {
      ContainsSelf(parts[0]);
    } else if i == 0 {
      ContainsLeft(parts[0], sep + Join(parts[1..], sep));
      assert parts[0] + sep + Join(parts[1..], sep) == parts[0] + (sep + Join(parts[1..], sep));
    } else {
      JoinContainsParts(parts[1..], sep, i - 1);
      ContainsRight(parts[0] + sep, Join(parts[1..], sep));
      ContainsTrans(Join(parts, sep), Join(parts[1..], sep), parts[i]);
    }
  }

  /**
   * String.prototype.split with a one-character separator: the maximal
   * separator-free pieces, in order; joining them back with the separator
   * gives `s` again, and the first piece is the text before the first separator.
   */
  function Split(s: string, sep: char): (pieces: seq<string>)
    ensures |pieces| >= 1
    ensures forall i :: 0 <= i < |pieces| ==> sep !in pieces[i]
    ensures pieces[0] <= s
    ensures |pieces| == 1 ==> pieces[0] == s
    decreases |s|
  {
    if |s| == 0 then [""]
    else
      var rest := Split(s[1..], sep);
      if s[0] == sep then [""] + rest
      else [[s[0]] + rest[0]] + rest[1..]
  }

  /** Joining the pieces of a split with the separator restores the original text. */
  lemma {:induction false} SplitJoin(s: string, sep: char)
    ensures Join(Split(s, sep), [sep]) == s
    decreases |s|
  {
    if |s| > 0 {
      var rest := Split(s[1..], sep);
      SplitJoin(s[1..], sep);
      if s[0] == sep {
        assert ([""] + rest)[1..] == rest;
      } else {
        var pieces := [[s[0]] + rest[0]] + rest[1..];
        assert pieces[1..] == rest[1..];
        if |rest| > 1 {
          assert Join(rest, [sep]) == rest[0] + [sep] + Join(rest[1..], [sep]);
        }
      }
    }
  }

  /** Joining a list given by its first part and the rest. */
  lemma JoinCons(p: string, rest: seq<string>, sep: string)
    ensures Join([p] + rest, sep) == if rest == [] then p else p + sep + Join(rest, sep)
  {
    assert ([p] + rest)[1..] == rest;
  }

  /** Splitting a join of separator-free parts gives the parts back. */
  lemma {:induction false} JoinSplit(parts: seq<string>, sep: char)
    requires |parts| > 0
    requires forall i :: 0 <= i < |parts| ==> sep !in parts[i]
    ensures Split(Join(parts, [sep]), sep) == parts
    decreases |Join(parts, [sep])|
  {
    var p, tail := parts[0], parts[1..];
    assert parts == [p] + tail;
    JoinCons(p, tail, [sep]);
    var j := Join(parts, [sep]);
    if |p| > 0 {
      // Peel the first character off the first part.
      var parts' := [p[1..]] + tail;
      JoinCons(p[1..], tail, [sep]);
      var j' := Join(parts', [sep]);
      assert j == [p[0]] + j';
      assert p[0] in p;
      assert forall i :: 0 <= i < |parts'| ==> sep !in parts'[i] by {
        assert forall c :: c in p[1..] ==> c in p;
      }
      JoinSplit(parts', sep);
      assert j[1..] == j';
      assert j[0] != sep;
      assert Split(j, sep) == [[p[0]] + p[1..]] + tail;
      assert [p[0]] + p[1..] == p;
    } else if |tail| > 0 {
      assert j == [sep] + Join(tail, [sep]);
      assert j[1..] == Join(tail, [sep]);
      JoinSplit(tail, sep);
      assert Split(j, sep) == [""] + tail;
    }
  }

  /**
   * String.prototype.replace with a string pattern: the first occurrence of
   * `pat` replaced by `rep`; `s` unchanged when `pat` does not occur.
   */
  function ReplaceFirst(s: string, pat: string, rep: string): (r: string)
    ensures !Contains(s, pat) ==> r == s
    decreases |s|
  {
    if pat <= s then rep + s[|pat|..]
    else if |s| == 0 then s
    else [s[0]] + ReplaceFirst(s[1..], pat, rep)
  }

  /** When `pat` starts right after a first character that cannot begin it, that occurrence is the one replaced. */
  lemma ReplaceAfterFirstChar(c: char, pat: string, rest: string, rep: string)
    requires |pat| > 0 && pat[0] != c
    ensures ReplaceFirst([c] + pat + rest, pat, rep) == [c] + rep + rest
  {
    var t := pat + rest;
    var s := [c] + t;
    assert [c] + pat + rest == s;
    assert t[|pat|..] == rest;
    assert ReplaceFirst(t, pat, rep) == rep + rest by {
      assert pat <= t;
    }
    assert ReplaceFirst(s, pat, rep) == [c] + ReplaceFirst(t, pat, rep) by {
      assert s[0] == c && s[1..] == t;
      assert !(pat <= s);
    }
  }

  /** The decimal digit `d`. */
  function DigitChar(d: nat): char
    requires d < 10
  {
    "0123456789"[d]
  }

  /** The decimal rendering of a natural number, without leading zeros. */
  function NatToString(n: nat): (s: string)
    ensures |s| > 0 && forall i :: 0 <= i < |s| ==> '0' <= s[i] <= '9'
    decreases n
  {
    if n < 10 then [DigitChar(n)] else NatToString(n / 10) + [DigitChar(n % 10)]
  }

  /** The rendering `${n}` of an integer-valued number in a template literal. */
  function IntToString(n: int): (s: string)
    ensures |s| > 0
  {
    if n < 0 then "-" + NatToString(-n) else NatToString(n)
  }
}
