/**
 * The pieces of Go's `strings`, `strconv` and `fmt` packages that the ingress
 * code relies on: substring search (`strings.Contains`), whitespace splitting
 * (`strings.Fields`) and decimal rendering of integers (`strconv.FormatUint`,
 * the `%d` verb).  Go strings are byte strings holding UTF-8; here a string is
 * a sequence of Unicode scalar values.
 */
module Strings {

  /** `unicode.IsSpace`: exactly the characters with the Unicode White_Space property. */
  predicate IsSpace(c: char) {
    || c == '\t' || c == '\n' || c == '\U{000B}' || c == '\U{000C}' || c == '\r' || c == ' '
    || c == '\U{0085}' || c == '\U{00A0}' || c == '\U{1680}'
    || ('\U{2000}' <= c <= '\U{200A}')
    || c == '\U{2028}' || c == '\U{2029}' || c == '\U{202F}' || c == '\U{205F}' || c == '\U{3000}'
  }

  predicate NoSpace(s: string) {
    forall i | 0 <= i < |s| :: !IsSpace(s[i])
  }

  predicate AllSpace(s: string) {
    forall i | 0 <= i < |s| :: IsSpace(s[i])
  }

  /** A field as `strings.Fields` produces it: non-empty, without whitespace. */
  predicate IsWord(w: string) {
    w != [] && NoSpace(w)
  }

  // ---------------------------------------------------------------------------
  // strings.Contains

  /** `sub` occurs in `s` starting at index `i`. */
  predicate OccursAt(s: string, sub: string, i: int) {
    0 <= i && i + |sub| <= |s| && s[i..i + |sub|] == sub
  }

  /** `strings.Contains(s, sub)`: `sub` occurs somewhere in `s`. */
  predicate Contains(s: string, sub: string) {
    exists i | 0 <= i <= |s| - |sub| :: OccursAt(s, sub, i)
  }

  /** The empty string occurs in every string. */
  lemma ContainsEmpty(s: string)
    ensures Contains(s, "")
  {
    assert OccursAt(s, "", 0);
  }

  /** Whatever is glued around `sub`, it is still contained. */
  lemma ContainsInfix(pre: string, sub: string, post: string)
    ensures Contains(pre + sub + post, sub)
  {
    var s := pre + sub + post;
    assert s[|pre|..|pre| + |sub|] == sub;
    assert OccursAt(s, sub, |pre|);
  }

  // ---------------------------------------------------------------------------
  // strings.Fields

  /** The length of the run of non-whitespace characters that starts `s`. */
  function WordLength(s: string): (n: nat)
    ensures n <= |s|
    ensures NoSpace(s[..n])
    ensures n < |s| ==> IsSpace(s[n])
  {
    if s == [] || IsSpace(s[0]) then 0 else 1 + WordLength(s[1..])
  }

  /**
   * `strings.Fields(s)`: the maximal runs of non-whitespace characters of `s`,
   * in order.
   */
  function Fields(s: string): (r: seq<string>)
    ensures forall i | 0 <= i < |r| :: IsWord(r[i])
    decreases |s|
  {
    if s == [] then []
    else if IsSpace(s[0]) then Fields(s[1..])
    else
      var n := WordLength(s);
      [s[..n]] + Fields(s[n..])
  }

  /** Whitespace before the first field is dropped. */
  lemma {:induction false} FieldsAfterSpace(sp: string, s: string)
    requires AllSpace(sp)
    ensures Fields(sp + s) == Fields(s)
    decreases |sp|
  {
    if sp != [] {
      var t := sp + s;
      assert t[0] == sp[0] && IsSpace(t[0]);
      assert t[1..] == sp[1..] + s;
      FieldsAfterSpace(sp[1..], s);
      assert Fields(t) == Fields(t[1..]);
    } else {
      assert sp + s == s;
    }
  }

  /** A string of whitespace has no fields. */
  lemma FieldsOfSpace(sp: string)
    requires AllSpace(sp)
    ensures Fields(sp) == []
  {
    FieldsAfterSpace(sp, []);
    assert sp + [] == sp;
  }

  /** A word followed by whitespace (or by nothing) is the first field. */
  lemma {:induction false} WordLengthOfWord(w: string, rest: string)
    requires NoSpace(w)
    requires rest == [] || IsSpace(rest[0])
    ensures WordLength(w + rest) == |w|
    decreases |w|
  {
    if w == [] {
      assert w + rest == rest;
    } else {
      assert (w + rest)[1..] == w[1..] + rest;
      WordLengthOfWord(w[1..], rest);
    }
  }

  lemma FieldsAfterWord(w: string, rest: string)
    requires IsWord(w)
    requires rest == [] || IsSpace(rest[0])
    ensures Fields(w + rest) == [w] + Fields(rest)
  {
    WordLengthOfWord(w, rest);
    var s := w + rest;
    assert s[..|w|] == w;
    assert s[|w|..] == rest;
  }

  /** `strings.Join(ws, " ")`. */
  function JoinSpaced(ws: seq<string>): string {
    if ws == [] then ""
    else if |ws| == 1 then ws[0]
    else ws[0] + " " + JoinSpaced(ws[1..])
  }

  /** Splitting words joined by single spaces gives the words back. */
  lemma {:induction false} FieldsOfJoinSpaced(ws: seq<string>)
    requires forall i | 0 <= i < |ws| :: IsWord(ws[i])
    ensures Fields(JoinSpaced(ws)) == ws
    decreases |ws|
  {
    if ws == [] {
    } else if |ws| == 1 {
      FieldsAfterWord(ws[0], "");
      assert ws[0] + "" == ws[0];
    } else {
      var rest := JoinSpaced(ws[1..]);
      FieldsOfJoinSpaced(ws[1..]);
      FieldsAfterSpace(" ", rest);
      FieldsAfterWord(ws[0], " " + rest);
      assert ws[0] + " " + rest == ws[0] + (" " + rest);
      assert [ws[0]] + ws[1..] == ws;
    }
  }

  /** A word, then whitespace, then `tail` splits into the word followed by the fields of `tail`. */
  lemma FieldsOfWordSpace(a: string, mid: string, tail: string)
    requires IsWord(a) && AllSpace(mid) && mid != []
    ensures Fields(a + (mid + tail)) == [a] + Fields(tail)
  {
    var t := mid + tail;
    assert IsSpace(t[0]);
    FieldsAfterWord(a, t);
    FieldsAfterSpace(mid, tail);
  }

  /** A word followed only by whitespace is the single field. */
  lemma FieldsOfWordThenSpace(b: string, post: string)
    requires IsWord(b) && AllSpace(post)
    ensures Fields(b + post) == [b]
  {
    assert post == [] || IsSpace(post[0]);
    FieldsAfterWord(b, post);
    FieldsOfSpace(post);
    assert [b] + [] == [b];
  }

  /** Whitespace around and between two words does not change how they split. */
  lemma FieldsOfTwoWords(pre: string, a: string, mid: string, b: string, post: string)
    requires AllSpace(pre) && AllSpace(mid) && AllSpace(post) && mid != []
    requires IsWord(a) && IsWord(b)
    ensures Fields(pre + a + mid + b + post) == [a, b]
  {
    var t := a + (mid + (b + post));
    Regroup(pre, a, mid, b, post);
    FieldsAfterSpace(pre, t);
    FieldsOfWordSpace(a, mid, b + post);
    FieldsOfWordThenSpace(b, post);
    assert [a] + [b] == [a, b];
  }

  /** Concatenation regrouped to the right. */
  lemma Regroup(pre: string, a: string, mid: string, b: string, post: string)
    ensures pre + a + mid + b + post == pre + (a + (mid + (b + post)))
  {
  }

  // ---------------------------------------------------------------------------
  // Decimal rendering

  predicate IsDigit(c: char) {
    '0' <= c <= '9'
  }

  predicate AllDigits(s: string) {
    forall i | 0 <= i < |s| :: IsDigit(s[i])
  }

  function DigitChar(d: nat): (c: char)
    requires d < 10
    ensures IsDigit(c) && c as int - '0' as int == d
  {
    ('0' as int + d) as char
  }

  /**
   * `strconv.FormatUint(n, 10)`: the shortest decimal numeral of `n`; it has
   * a leading zero only when it is the numeral "0".
   */
  function FormatUint(n: nat): (r: string)
    ensures r != [] && AllDigits(r)
    ensures r[0] == '0' <==> n == 0
    ensures r[0] == '0' ==> r == "0"
  {
    if n < 10 then [DigitChar(n)] else FormatUint(n / 10) + [DigitChar(n % 10)]
  }

  /** The value of a decimal numeral: the inverse of `FormatUint`. */
  function DecimalValue(s: string): nat
    requires AllDigits(s)
  {
    if s == [] then 0 else 10 * DecimalValue(s[..|s| - 1]) + (s[|s| - 1] as int - '0' as int)
  }

  lemma {:induction false} DecimalValueOfFormatUint(n: nat)
    ensures DecimalValue(FormatUint(n)) == n
  {
    if n >= 10 {
      var r := FormatUint(n);
      assert r[..|r| - 1] == FormatUint(n / 10);
      DecimalValueOfFormatUint(n / 10);
    }
  }

  /** The `%d` verb of `fmt` on a signed integer. */
  function FormatInt(i: int): (r: string)
    ensures r != []
    ensures forall k | 0 <= k < |r| :: IsDigit(r[k]) || r[k] == '-'
  {
    if i < 0 then "-" + FormatUint(-i) else FormatUint(i)
  }

  /** The value of a numeral produced by `FormatInt`. */
  function SignedValue(s: string): int
    requires s != []
    requires forall k | 0 < k < |s| :: IsDigit(s[k])
    requires IsDigit(s[0]) || s[0] == '-'
  {
    if s[0] == '-' then -(DecimalValue(s[1..]) as int) else DecimalValue(s)
  }

  lemma SignedValueOfFormatInt(i: int)
    ensures SignedValue(FormatInt(i)) == i
  {
    if i < 0 {
      assert FormatInt(i)[1..] == FormatUint(-i);
      DecimalValueOfFormatUint(-i);
    } else {
      DecimalValueOfFormatUint(i);
    }
  }

  /** Distinct integers render differently. */
  lemma FormatIntInjective(i: int, j: int)
    requires FormatInt(i) == FormatInt(j)
    ensures i == j
  {
    SignedValueOfFormatInt(i);
    SignedValueOfFormatInt(j);
  }
}
