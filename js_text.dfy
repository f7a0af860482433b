/**
 * The small part of JavaScript's string and number semantics that the card
 * builders rely on: truthiness of an optional field, `String(n)` for an
 * integer, `Array.prototype.join`, `String.prototype.split` on one character,
 * `String.prototype.repeat`, and `toUpperCase` on ASCII text.
 */
module JsText {
  import opened Wrappers

  // ---------------------------------------------------------------------
  // Truthiness of optional fields
  // ---------------------------------------------------------------------

  /** `if (s)` for a string field: present and not the empty string. */
  predicate StrTruthy(s: Option<string>) {
    s.Some? && s.value != ""
  }

  /** `if (x)` for a number field: present and not 0. */
  predicate IntTruthy(x: Option<int>) {
    x.Some? && x.value != 0
  }

  /** `x !== undefined && x > 0`, which is also what `x && x > 0` decides. */
  predicate Positive(x: Option<int>) {
    x.Some? && x.value > 0
  }

  /** `Math.min(a, b)` on integers. */
  function Min(a: int, b: int): int {
    if a < b then a else b
  }

  // ---------------------------------------------------------------------
  // String(n) for an integer-valued number
  // ---------------------------------------------------------------------

  predicate IsDigit(c: char) {
    '0' <= c <= '9'
  }

  function DigitChar(d: int): (c: char)
    requires 0 <= d < 10
    ensures IsDigit(c) && c as int - '0' as int == d
  {
    (d + '0' as int) as char
  }

  /** Decimal digits of `n` with no leading zero, as `String(n)` writes them. */
  function NatToString(n: nat): (s: string)
    ensures |s| >= 1
    ensures forall i :: 0 <= i < |s| ==> IsDigit(s[i])
    ensures |s| > 1 ==> s[0] != '0'
    decreases n
  {
    if n < 10 then [DigitChar(n)] else NatToString(n / 10) + [DigitChar(n % 10)]
  }

  /** `String(n)` and `${n}` for an integer. */
  function IntToString(n: int): string {
    if n < 0 then "-" + NatToString(-n) else NatToString(n)
  }

  /** `String(x)` and `${x}` for an optional number: absent prints "undefined". */
  function ShowInt(x: Option<int>): string {
    if x.Some? then IntToString(x.value) else "undefined"
  }

  /** `${s}` for an optional string: absent prints "undefined". */
  function ShowStr(s: Option<string>): string {
    if s.Some? then s.value else "undefined"
  }

  /** The value of a string of decimal digits (the reading direction of `NatToString`). */
  function ParseNat(s: string): nat
    requires forall i :: 0 <= i < |s| ==> IsDigit(s[i])
    decreases |s|
  {
    if s == [] then 0
    else
      assert IsDigit(s[|s| - 1]);
      ParseNat(s[..|s| - 1]) * 10 + (s[|s| - 1] as int - '0' as int)
  }

  function ParseInt(s: string): int
    requires |s| >= 1
    requires forall i :: 0 < i < |s| ==> IsDigit(s[i])
    requires s[0] == '-' || IsDigit(s[0])
  {
    if s[0] == '-' then 0 - ParseNat(s[1..]) as int else ParseNat(s)
  }

  lemma {:induction false} ParseNatToString(n: nat)
    ensures ParseNat(NatToString(n)) == n
    decreases n
  {
    if n >= 10 {
      var s := NatToString(n / 10);
      ParseNatToString(n / 10);
      assert (s + [DigitChar(n % 10)])[..|s|] == s;
    }
  }

  /** Printing an integer loses nothing: distinct numbers print differently. */
  lemma {:induction false} ParseIntToString(n: int)
    ensures |IntToString(n)| >= 1
    ensures forall i :: 0 < i < |IntToString(n)| ==> IsDigit(IntToString(n)[i])
    ensures IntToString(n)[0] == '-' || IsDigit(IntToString(n)[0])
    ensures ParseInt(IntToString(n)) == n
  {
    if n < 0 {
      var s := NatToString(-n);
      assert ("-" + s)[1..] == s;
      ParseNatToString(-n);
    } else {
      ParseNatToString(n);
    }
  }

  // ---------------------------------------------------------------------
  // Array.prototype.filter(Boolean) and Array.prototype.join
  // ---------------------------------------------------------------------

  /** `[a, b, ...].filter(Boolean)` over optional strings. */
  function FilterTruthy(xs: seq<Option<string>>): (r: seq<string>)
    ensures |r| <= |xs|
    ensures forall i :: 0 <= i < |r| ==> r[i] != ""
  {
    if xs == [] then []
    else (if StrTruthy(xs[0]) then [xs[0].value] else []) + FilterTruthy(xs[1..])
  }

  /** `parts.join(sep)`. */
  function Join(parts: seq<string>, sep: string): string {
    if |parts| == 0 then ""
    else if |parts| == 1 then parts[0]
    else parts[0] + sep + Join(parts[1..], sep)
  }

  lemma {:induction false} FilterTruthyConcat(xs: seq<Option<string>>, ys: seq<Option<string>>)
    ensures FilterTruthy(xs + ys) == FilterTruthy(xs) + FilterTruthy(ys)
  {
    if xs == [] {
      assert xs + ys == ys;
    } else {
      assert (xs + ys)[0] == xs[0];
      assert (xs + ys)[1..] == xs[1..] + ys;
      FilterTruthyConcat(xs[1..], ys);
    }
  }

  /** Joining one more part adds the separator and the part, unless it is the only one. */
  lemma {:induction false} JoinAppend(parts: seq<string>, last: string, sep: string)
    ensures Join(parts + [last], sep) == if parts == [] then last else Join(parts, sep) + sep + last
    decreases |parts|
  {
    if |parts| == 1 {
      assert (parts + [last])[1..] == [last];
    } else if |parts| > 1 {
      assert (parts + [last])[1..] == parts[1..] + [last];
      JoinAppend(parts[1..], last, sep);
    }
  }

  // ---------------------------------------------------------------------
  // String.prototype.split on one character
  // ---------------------------------------------------------------------

  /** `s.split(c)`: every occurrence of `c` ends a part; always at least one part. */
  function Split(s: string, c: char): (parts: seq<string>)
    ensures |parts| >= 1
  {
    if s == [] then [""]
    else
      var rest := Split(s[1..], c);
      if s[0] == c then [""] + rest
      else [[s[0]] + rest[0]] + rest[1..]
  }

  /** Joining the parts back with the separator gives the original string. */
  lemma {:induction false} JoinSplit(s: string, c: char)
    ensures Join(Split(s, c), [c]) == s
  {
    if s != [] {
      var rest := Split(s[1..], c);
      JoinSplit(s[1..], c);
      if s[0] == c {
        assert ([""] + rest)[1..] == rest;
      } else if |rest| > 1 {
        assert ([[s[0]] + rest[0]] + rest[1..])[1..] == rest[1..];
      }
    }
  }

  /** No part contains the separator, so `Split` is the only inverse of joining. */
  lemma {:induction false} SplitPartsOmitSeparator(s: string, c: char)
    ensures forall k, j :: 0 <= k < |Split(s, c)| && 0 <= j < |Split(s, c)[k]| ==> Split(s, c)[k][j] != c
  {
    if s != [] {
      SplitPartsOmitSeparator(s[1..], c);
    }
  }

  // ---------------------------------------------------------------------
  // words.map(w => w[0]).join('')
  // ---------------------------------------------------------------------

  /**
   * `words.map(w => w[0]).join('')`: an empty word has no `w[0]`, the map
   * yields `undefined` for it and `join` prints that as "".
   */
  function FirstChars(words: seq<string>): string {
    if words == [] then ""
    else (if words[0] == "" then "" else [words[0][0]]) + FirstChars(words[1..])
  }

  /**
   * Reference definition of the initial letters of a text: every non-space
   * character that stands at the beginning or right after a space.
   * `atStart` says whether the position before `s` counts as a word boundary.
   */
  function WordStarts(s: string, atStart: bool): string {
    if s == [] then ""
    else (if atStart && s[0] != ' ' then [s[0]] else "") + WordStarts(s[1..], s[0] == ' ')
  }

  lemma {:induction false} FirstCharsOfLaterWords(s: string)
    ensures FirstChars(Split(s, ' ')[1..]) == WordStarts(s, false)
  {
    if s != [] {
      var rest := Split(s[1..], ' ');
      FirstCharsOfLaterWords(s[1..]);
      if s[0] == ' ' {
        assert Split(s, ' ')[1..] == rest;
        assert rest == [rest[0]] + rest[1..];
      } else {
        assert Split(s, ' ')[1..] == rest[1..];
      }
    }
  }

  /** The first letters of the space-separated words are exactly the word starts. */
  lemma FirstCharsOfSplit(s: string)
    ensures FirstChars(Split(s, ' ')) == WordStarts(s, true)
  {
    FirstCharsOfLaterWords(s);
    if s != [] {
      var rest := Split(s[1..], ' ');
      FirstCharsOfLaterWords(s[1..]);
      if s[0] == ' ' {
        assert ([""] + rest)[1..] == rest;
        assert rest == [rest[0]] + rest[1..];
      }
    }
  }

  lemma {:induction false} WordStartsNoSpace(s: string, atStart: bool)
    ensures forall i :: 0 <= i < |WordStarts(s, atStart)| ==> WordStarts(s, atStart)[i] != ' '
  {
    if s != [] {
      WordStartsNoSpace(s[1..], s[0] == ' ');
    }
  }

  /** Word starts of a concatenation: the boundary flag carries over the seam. */
  lemma {:induction false} WordStartsAppend(a: string, b: string, atStart: bool)
    ensures WordStarts(a + b, atStart) == WordStarts(a, atStart) + WordStarts(b, if a == [] then atStart else a[|a| - 1] == ' ')
  {
    if a == [] {
      assert a + b == b;
    } else {
      var head: string := if atStart && a[0] != ' ' then [a[0]] else "";
      var after := a[|a| - 1] == ' ';
      assert (a + b)[0] == a[0];
      assert (a + b)[1..] == a[1..] + b;
      assert after == if a[1..] == [] then a[0] == ' ' else a[1..][|a[1..]| - 1] == ' ';
      WordStartsAppend(a[1..], b, a[0] == ' ');
      ConcatAssoc(head, WordStarts(a[1..], a[0] == ' '), WordStarts(b, after));
    }
  }

  /** Concatenation regroups; stated once so that proofs need not rederive it element by element. */
  lemma ConcatAssoc(x: string, y: string, z: string)
    ensures x + (y + z) == (x + y) + z
  {
  }

  /** A single word has one start, its first letter, when a boundary precedes it. */
  lemma {:induction false} WordStartsOfWord(w: string, atStart: bool)
    requires w != []
    requires forall i :: 0 <= i < |w| ==> w[i] != ' '
    ensures WordStarts(w, atStart) == if atStart then [w[0]] else ""
  {
    if |w| > 1 {
      WordStartsOfWord(w[1..], false);
    }
  }

  /** A text has a word start exactly when it has a character other than a space. */
  lemma {:induction false} WordStartsEmpty(s: string)
    ensures WordStarts(s, true) == "" <==> forall i :: 0 <= i < |s| ==> s[i] == ' '
    ensures WordStarts(s, false) == "" ==> (forall i :: 1 <= i < |s| ==> s[i] == ' ' || s[i - 1] != ' ')
  {
    if s != [] {
      WordStartsEmpty(s[1..]);
      if s[0] == ' ' {
        assert forall i :: 1 <= i < |s| ==> s[i] == s[1..][i - 1];
      } else {
        if WordStarts(s[1..], false) == "" {
          assert forall i :: 1 <= i < |s| ==> s[i] == s[1..][i - 1];
        }
      }
    }
  }

  // ---------------------------------------------------------------------
  // toUpperCase, substring and repeat
  // ---------------------------------------------------------------------

  function UpperChar(c: char): char {
    if 'a' <= c <= 'z' then (c as int - 32) as char else c
  }

  /** `s.toUpperCase()`, restricted to ASCII letters. */
  function ToUpper(s: string): (r: string)
    ensures |r| == |s|
    ensures forall i :: 0 <= i < |s| ==> r[i] == UpperChar(s[i])
  {
    seq(|s|, i requires 0 <= i < |s| => UpperChar(s[i]))
  }

  /** `s.substring(0, n)` for a non-negative `n`. */
  function Prefix(s: string, n: nat): (r: string)
    ensures |r| == if n < |s| then n else |s|
    ensures r <= s
  {
    if n < |s| then s[..n] else s
  }

  /** `c.repeat(n)` for a non-negative count. */
  function Repeat(c: char, n: nat): (r: string)
    ensures |r| == n
    ensures forall i :: 0 <= i < n ==> r[i] == c
  {
    seq(n, _ => c)
  }
}
