/** The slice of JavaScript value semantics the core relies on: truthiness,
    the `||` operator, template-literal conversion, `toLowerCase` and
    `String.prototype.replace` with a string pattern. */
module JsValues {
  import opened Wrappers

  /** A JavaScript value as far as the option normaliser looks at it.
      Numbers are integers; objects are property maps. */
  datatype JsValue =
    | Undefined
    | Null
    | Bool(b: bool)
    | Num(n: int)
    | Str(s: string)
    | Obj(props: map<string, JsValue>)

  /** JavaScript truthiness: `undefined`, `null`, `false`, `0` and `""` are falsy. */
  predicate Truthy(v: JsValue)
    ensures !Truthy(v) <==> v == Undefined || v == Null || v == Bool(false) || v == Num(0) || v == Str("")
  {
    match v
    case Undefined => false
    case Null => false
    case Bool(b) => b
    case Num(n) => n != 0
    case Str(s) => s != ""
    case Obj(_) => true
  }

  /** `a || b`: the left operand when it is truthy, the right one otherwise. */
  function Or(a: JsValue, b: JsValue): (r: JsValue)
    ensures Truthy(b) ==> Truthy(r)
    ensures r == a || r == b
  {
    if Truthy(a) then a else b
  }

  function DigitChar(d: nat): (c: char)
    requires d < 10
    ensures '0' <= c <= '9' && DigitValue(c) == d
  {
    ('0' as int + d) as char
  }

  function DigitValue(c: char): nat
  {
    if '0' <= c <= '9' then c as int - '0' as int else 0
  }

  /** The number a string of decimal digits denotes, most significant first. */
  function DecimalValue(s: string): nat
  {
    if s == [] then 0 else 10 * DecimalValue(s[..|s| - 1]) + DigitValue(s[|s| - 1])
  }

  /** The canonical decimal numeral: non-empty digits without a leading zero,
      as JavaScript's number-to-string conversion writes an integer. */
  predicate IsNumeral(s: string)
  {
    && |s| > 0
    && (forall i :: 0 <= i < |s| ==> '0' <= s[i] <= '9')
    && (|s| > 1 ==> s[0] != '0')
  }

  /** Decimal digits of a natural number, most significant first: the
      canonical numeral that denotes `n`. */
  function NatToDecimal(n: nat): (s: string)
    ensures IsNumeral(s)
    ensures DecimalValue(s) == n
    ensures n > 0 ==> s[0] != '0'
  {
    if n < 10 then
      var s := [DigitChar(n)];
      assert s[..0] == [];
      s
    else
      var p := NatToDecimal(n / 10);
      var s := p + [DigitChar(n % 10)];
      assert s[..|s| - 1] == p;
      s
  }

  /** A digit string that does not start with `0` denotes a positive number. */
  lemma {:induction false} DecimalPositive(s: string)
    requires s != [] && s[0] != '0'
    requires forall i :: 0 <= i < |s| ==> '0' <= s[i] <= '9'
    ensures DecimalValue(s) > 0
  {
    if |s| > 1 {
      DecimalPositive(s[..|s| - 1]);
    }
  }

  /** Every canonical numeral is the one `NatToDecimal` writes for its value,
      so the conversion and `DecimalValue` are inverse on numerals. */
  lemma {:induction false} NatToDecimalOfNumeral(s: string)
    requires IsNumeral(s)
    ensures NatToDecimal(DecimalValue(s)) == s
  {
    var d := DigitValue(s[|s| - 1]);
    if |s| == 1 {
      assert s[..0] == [];
      assert DigitChar(d) == s[0];
    } else {
      var p := s[..|s| - 1];
      assert p[0] == s[0];
      DecimalPositive(p);
      NatToDecimalOfNumeral(p);
      var n := DecimalValue(s);
      assert n / 10 == DecimalValue(p) && n % 10 == d;
      assert DigitChar(d) == s[|s| - 1];
      assert s == p + [s[|s| - 1]];
    }
  }

  /** The text a template literal `${v}` produces for `v`. */
  function Interpolate(v: JsValue): (r: string)
    ensures v.Undefined? ==> r == "undefined"
    ensures v.Null? ==> r == "null"
    ensures v.Num? && v.n >= 0 ==> IsNumeral(r) && DecimalValue(r) == v.n
    ensures v.Num? && v.n < 0 ==> |r| > 1 && r[0] == '-' && IsNumeral(r[1..]) && DecimalValue(r[1..]) == -v.n
    ensures v.Str? ==> r == v.s
  {
    match v
    case Undefined => "undefined"
    case Null => "null"
    case Bool(b) => if b then "true" else "false"
    case Num(n) =>
      if n < 0 then
        var d := NatToDecimal(-n);
        assert ("-" + d)[1..] == d;
        "-" + d
      else NatToDecimal(n)
    case Str(s) => s
    case Obj(_) => "[object Object]"
  }

  function LowerChar(c: char): char
  {
    if 'A' <= c <= 'Z' then (c as int + 32) as char else c
  }

  /** `toLowerCase` on the ASCII range. */
  function Lower(s: string): (r: string)
    ensures |r| == |s|
  {
    if s == [] then [] else [LowerChar(s[0])] + Lower(s[1..])
  }

  lemma {:induction false} LowerAt(s: string, i: nat)
    requires i < |s|
    ensures Lower(s)[i] == LowerChar(s[i])
  {
    if i > 0 {
      LowerAt(s[1..], i - 1);
    }
  }

  /** Lower-casing twice is lower-casing once. */
  lemma LowerIdempotent(s: string)
    ensures Lower(Lower(s)) == Lower(s)
  {
    var l := Lower(s);
    forall i | 0 <= i < |l|
      ensures Lower(l)[i] == l[i]
    {
      LowerAt(l, i);
      LowerAt(s, i);
    }
  }

  /** A token without upper-case ASCII letters is its own lower-case form. */
  lemma {:induction false} LowerOfLowercase(s: string)
    requires forall i :: 0 <= i < |s| ==> !('A' <= s[i] <= 'Z')
    ensures Lower(s) == s
  {
    if s != [] {
      LowerOfLowercase(s[1..]);
    }
  }

  predicate OccursAt(s: string, pat: string, i: nat)
  {
    i + |pat| <= |s| && s[i..i + |pat|] == pat
  }

  /** The first position at or after `from` where `pat` occurs in `s`. */
  function IndexFrom(s: string, pat: string, from: nat): (r: Option<nat>)
    decreases |s| - from
    ensures r.Some? ==> from <= r.value && OccursAt(s, pat, r.value)
    ensures r.Some? ==> forall j :: from <= j < r.value ==> !OccursAt(s, pat, j)
    ensures r.None? ==> forall j :: from <= j ==> !OccursAt(s, pat, j)
  {
    if from + |pat| > |s| then None
    else if s[from..from + |pat|] == pat then Some(from)
    else IndexFrom(s, pat, from + 1)
  }

  /** `s.indexOf(pat)`, with `None` for -1. */
  function IndexOf(s: string, pat: string): Option<nat>
  {
    IndexFrom(s, pat, 0)
  }

  /** The first occurrence is the one `IndexOf` reports. */
  lemma IndexOfFirst(s: string, pat: string, i: nat)
    requires OccursAt(s, pat, i)
    requires forall j :: 0 <= j < i ==> !OccursAt(s, pat, j)
    ensures IndexOf(s, pat) == Some(i)
  {
  }

  /** `s.startsWith(pat)`, compared character by character. */
  predicate StartsWith(s: string, pat: string)
    ensures StartsWith(s, pat) ==> |pat| <= |s|
  {
    pat == [] || (s != [] && s[0] == pat[0] && StartsWith(s[1..], pat[1..]))
  }

  lemma {:induction false} StartsWithPrefix(s: string, pat: string)
    ensures StartsWith(s, pat) <==> |pat| <= |s| && s[..|pat|] == pat
  {
    if pat != [] && s != [] {
      StartsWithPrefix(s[1..], pat[1..]);
      if |pat| <= |s| {
        assert s[..|pat|] == [s[0]] + s[1..][..|pat| - 1];
        assert pat == [pat[0]] + pat[1..];
      }
    }
  }

  /** `s.replace(pat, rep)` for a string `pat` and a replacement without `$`
      patterns, scanning left to right for the first occurrence. */
  function ReplaceFirst(s: string, pat: string, rep: string): string
    decreases |s|
  {
    if StartsWith(s, pat) then rep + s[|pat|..]
    else if s == [] then s
    else [s[0]] + ReplaceFirst(s[1..], pat, rep)
  }

  lemma OccursShift(s: string, pat: string, j: nat)
    requires s != []
    ensures OccursAt(s, pat, j + 1) <==> OccursAt(s[1..], pat, j)
  {
    if j + 1 + |pat| <= |s| {
      var x, y := s[j + 1..j + 1 + |pat|], s[1..][j..j + |pat|];
      assert |x| == |y|;
      forall m | 0 <= m < |x|
        ensures x[m] == y[m]
      {
      }
      assert x == y;
    }
  }

  /** The first occurrence in the tail, shifted by one, is the first in the
      whole token when the token does not start with the pattern. */
  lemma IndexOfTail(s: string, pat: string)
    requires s != [] && !OccursAt(s, pat, 0)
    ensures IndexOf(s[1..], pat).None? ==> IndexOf(s, pat).None?
    ensures IndexOf(s[1..], pat).Some? ==> IndexOf(s, pat) == Some(IndexOf(s[1..], pat).value + 1)
  {
    var t := s[1..];
    match IndexOf(t, pat)
    case None =>
      forall j | 0 <= j
        ensures !OccursAt(s, pat, j)
      {
        if j > 0 {
          OccursShift(s, pat, j - 1);
        }
      }
    case Some(k) =>
      OccursShift(s, pat, k);
      forall j | 0 <= j < k + 1
        ensures !OccursAt(s, pat, j)
      {
        if j > 0 {
          OccursShift(s, pat, j - 1);
        }
      }
      IndexOfFirst(s, pat, k + 1);
  }

  lemma SpliceTail(s: string, k: nat, n: nat, rep: string)
    requires s != [] && k + 1 + n <= |s|
    ensures [s[0]] + (s[1..][..k] + rep + s[1..][k + n..]) == s[..k + 1] + rep + s[k + 1 + n..]
  {
    assert [s[0]] + s[1..][..k] == s[..k + 1];
    assert s[1..][k + n..] == s[k + 1 + n..];
  }

  /** `r` is `s` with the first occurrence of `pat`, as `indexOf` finds it,
      replaced by `rep`, or `s` itself when `pat` does not occur. */
  predicate ReplacesFirstOccurrence(s: string, pat: string, rep: string, r: string)
  {
    match IndexOf(s, pat)
    case None => r == s
    case Some(i) => OccursAt(s, pat, i) && r == s[..i] + rep + s[i + |pat|..]
  }

  lemma ReplaceFirstHead(s: string, pat: string, rep: string)
    requires |pat| <= |s| && s[..|pat|] == pat
    ensures ReplacesFirstOccurrence(s, pat, rep, rep + s[|pat|..])
  {
    assert OccursAt(s, pat, 0);
    IndexOfFirst(s, pat, 0);
  }

  lemma ReplaceFirstStep(s: string, pat: string, rep: string, r: string)
    requires s != [] && !OccursAt(s, pat, 0)
    requires ReplacesFirstOccurrence(s[1..], pat, rep, r)
    ensures ReplacesFirstOccurrence(s, pat, rep, [s[0]] + r)
  {
    var t := s[1..];
    IndexOfTail(s, pat);
    if IndexOf(t, pat).None? {
      assert [s[0]] + t == s;
    } else {
      SpliceTail(s, IndexOf(t, pat).value, |pat|, rep);
    }
  }

  /** The scan agrees with the `indexOf` reading of `replace`: nothing changes
      when the pattern is absent, otherwise exactly its first occurrence is
      replaced and the text around it is kept. */
  lemma {:induction false} ReplaceFirstSpec(s: string, pat: string, rep: string)
    ensures ReplacesFirstOccurrence(s, pat, rep, ReplaceFirst(s, pat, rep))
    decreases |s|
  {
    StartsWithPrefix(s, pat);
    if |pat| <= |s| && s[..|pat|] == pat {
      ReplaceFirstHead(s, pat, rep);
    } else if s != [] {
      ReplaceFirstSpec(s[1..], pat, rep);
      ReplaceFirstStep(s, pat, rep, ReplaceFirst(s[1..], pat, rep));
    } else {
      assert IndexOf(s, pat) == None;
    }
  }

  /** A pattern that starts the token is the one replaced. */
  lemma ReplaceFirstPrefix(s: string, pat: string, rest: string, rep: string)
    requires s == pat + rest
    ensures ReplaceFirst(s, pat, rep) == rep + rest
  {
    StartsWithPrefix(s, pat);
    assert s[..|pat|] == pat;
    assert s[|pat|..] == rest;
  }

  /** Replacing with a non-empty text never empties a non-empty token. */
  lemma ReplaceFirstNonEmpty(s: string, pat: string, rep: string)
    requires s != "" && rep != ""
    ensures ReplaceFirst(s, pat, rep) != ""
  {
  }

  /** A pattern with a letter the token lacks does not occur in the token. */
  lemma AbsentLetter(s: string, pat: string, c: char)
    requires c in pat && c !in s
    ensures IndexOf(s, pat).None?
  {
  }

  /** A pattern with a letter the token lacks leaves the token unchanged. */
  lemma ReplaceFirstAbsent(s: string, pat: string, rep: string, c: char)
    requires c in pat && c !in s
    ensures ReplaceFirst(s, pat, rep) == s
  {
    AbsentLetter(s, pat, c);
    ReplaceFirstSpec(s, pat, rep);
  }
}
