/**
 * The PHP string built-ins the optimizers rely on: integer formatting and
 * parsing, truthiness, `strtolower`, `str_contains`, `explode`/`implode`,
 * `pathinfo(..., PATHINFO_EXTENSION)` and `dirname`.
 */
module PhpStrings {
  import opened Wrappers

  /** PHP truthiness of a string: only "" and "0" are falsy. */
  predicate IsFalsy(s: string)
  {
    s == "" || s == "0"
  }

  predicate IsDigit(c: char)
  {
    '0' <= c <= '9'
  }

  predicate AllDigits(s: string)
  {
    forall i :: 0 <= i < |s| ==> IsDigit(s[i])
  }

  function DigitChar(d: nat): (c: char)
    requires d < 10
    ensures IsDigit(c) && (c as int) - ('0' as int) == d
  {
    ('0' as int + d) as char
  }

  /** Decimal digits of a natural number, most significant first. */
  function NatToString(n: nat): (s: string)
    ensures |s| > 0 && AllDigits(s)
    ensures n < 10 <==> |s| == 1
  {
    if n < 10 then [DigitChar(n)] else NatToString(n / 10) + [DigitChar(n % 10)]
  }

  /** `(string)$i` for a PHP integer. */
  function IntToString(i: int): (s: string)
    ensures |s| > 0
    ensures (i < 0) <==> s[0] == '-'
  {
    if i < 0 then "-" + NatToString(-i) else NatToString(i)
  }

  /** The value of a string of decimal digits. */
  function DigitsValue(s: string): nat
    requires AllDigits(s)
  {
    if s == [] then 0
    else DigitsValue(s[..|s| - 1]) * 10 + ((s[|s| - 1] as int) - ('0' as int))
  }

  /** A decimal integer literal: an optional '-' or '+' followed by at least one digit. */
  function ParseInt(s: string): (r: Option<int>)
    ensures r.Some? ==> |s| > 0
  {
    if |s| > 1 && s[0] == '-' && AllDigits(s[1..]) then Some(0 - DigitsValue(s[1..]) as int)
    else if |s| > 1 && s[0] == '+' && AllDigits(s[1..]) then Some(DigitsValue(s[1..]))
    else if |s| > 0 && AllDigits(s) then Some(DigitsValue(s))
    else None
  }

  lemma {:induction false} DigitsValueOfNatToString(n: nat)
    ensures DigitsValue(NatToString(n)) == n
  {
    var s := NatToString(n);
    if n >= 10 {
      DigitsValueOfNatToString(n / 10);
      assert s[..|s| - 1] == NatToString(n / 10);
    }
  }

  /** Parsing undoes formatting: the two are inverse on every integer. */
  lemma ParseIntOfIntToString(i: int)
    ensures ParseInt(IntToString(i)) == Some(i)
  {
    var s := IntToString(i);
    if i < 0 {
      var digits := NatToString(-i);
      assert s == "-" + digits && s[1..] == digits;
      DigitsValueOfNatToString(-i);
      assert ParseInt(s) == Some(0 - DigitsValue(digits) as int);
    } else {
      assert IsDigit(s[0]);
      DigitsValueOfNatToString(i);
      assert ParseInt(s) == Some(DigitsValue(s));
    }
  }

  /** A leading '+' is accepted and changes nothing: `"+5"` reads as 5. */
  lemma ParseIntPlusSign(n: nat)
    ensures ParseInt("+" + NatToString(n)) == Some(n)
  {
    var digits := NatToString(n);
    var s := "+" + digits;
    assert s[0] == '+' && s[1..] == digits;
    DigitsValueOfNatToString(n);
  }

  /** `strtolower` on one character: folds ASCII letters (PHP 8.2 and later, or the default C locale). */
  function LowerChar(c: char): (d: char)
    ensures !('A' <= d <= 'Z')
    ensures !('A' <= c <= 'Z') ==> d == c
  {
    if 'A' <= c <= 'Z' then (c as int + 32) as char else c
  }

  function ToLower(s: string): (r: string)
    ensures |r| == |s|
    ensures forall i :: 0 <= i < |s| ==> r[i] == LowerChar(s[i])
  {
    if s == [] then [] else [LowerChar(s[0])] + ToLower(s[1..])
  }

  predicate IsPrefix(prefix: string, s: string)
  {
    |prefix| <= |s| && s[..|prefix|] == prefix
  }

  /** `str_contains($haystack, $needle)`, computed by scanning. */
  predicate Contains(haystack: string, needle: string)
    decreases |haystack|
  {
    IsPrefix(needle, haystack) || (|haystack| > 0 && Contains(haystack[1..], needle))
  }

  /** `needle` occurs in `haystack` starting at position `i`. */
  predicate OccursAt(haystack: string, needle: string, i: int)
  {
    0 <= i && i + |needle| <= |haystack| && haystack[i..i + |needle|] == needle
  }

  /** `str_contains` and the definition of a substring agree. */
  lemma {:induction false} ContainsIffOccurs(haystack: string, needle: string)
    ensures Contains(haystack, needle) <==> exists i :: OccursAt(haystack, needle, i)
    decreases |haystack|
  {
    if IsPrefix(needle, haystack) {
      assert OccursAt(haystack, needle, 0);
    } else if |haystack| > 0 {
      ContainsIffOccurs(haystack[1..], needle);
      if Contains(haystack[1..], needle) {
        var i :| OccursAt(haystack[1..], needle, i);
        assert haystack[i + 1..i + 1 + |needle|] == haystack[1..][i..i + |needle|];
        assert OccursAt(haystack, needle, i + 1);
      } else {
        forall i | 0 < i
          ensures !OccursAt(haystack, needle, i)
        {
          if i + |needle| <= |haystack| {
            assert haystack[i..i + |needle|] == haystack[1..][i - 1..i - 1 + |needle|];
            assert !OccursAt(haystack[1..], needle, i - 1);
          }
        }
        assert !OccursAt(haystack, needle, 0);
      }
    } else {
      assert !OccursAt(haystack, needle, 0);
    }
  }

  /** A needle whose first character is not in the haystack does not occur in it. */
  lemma {:induction false} MissingFirstChar(haystack: string, needle: string)
    requires |needle| > 0 && needle[0] !in haystack
    ensures !Contains(haystack, needle)
    decreases |haystack|
  {
    if |needle| <= |haystack| {
      assert haystack[..|needle|][0] == haystack[0];
    }
    if |haystack| > 0 {
      assert forall c :: c in haystack[1..] ==> c in haystack;
      MissingFirstChar(haystack[1..], needle);
    }
  }

  /** Position of the last occurrence of `c` in `s`. */
  function LastIndexOf(s: string, c: char): (r: Option<nat>)
    ensures r.Some? ==> r.value < |s| && s[r.value] == c &&
                        forall j :: r.value < j < |s| ==> s[j] != c
    ensures r.None? ==> forall j :: 0 <= j < |s| ==> s[j] != c
  {
    if s == [] then None
    else if s[|s| - 1] == c then Some(|s| - 1)
    else LastIndexOf(s[..|s| - 1], c)
  }

  /** The last path component (what follows the last '/'). */
  function BaseName(path: string): (b: string)
    ensures forall j :: 0 <= j < |b| ==> b[j] != '/'
  {
    match LastIndexOf(path, '/')
    case None => path
    case Some(i) => path[i + 1..]
  }

  /** `pathinfo($path, PATHINFO_EXTENSION)`: what follows the last '.' of the base name, or "". */
  function PathExtension(path: string): (ext: string)
    ensures forall j :: 0 <= j < |ext| ==> ext[j] != '.' && ext[j] != '/'
  {
    var base := BaseName(path);
    match LastIndexOf(base, '.')
    case None => ""
    case Some(i) => base[i + 1..]
  }

  /** `dirname($path)` for paths without trailing or repeated slashes. */
  function DirName(path: string): string
  {
    match LastIndexOf(path, '/')
    case None => "."
    case Some(i) => if i == 0 then "/" else path[..i]
  }

  /** `explode` with a one-character separator: the pieces between separators, in order. */
  function Split(s: string, sep: char): (parts: seq<string>)
    ensures |parts| > 0
    ensures forall k, j :: 0 <= k < |parts| && 0 <= j < |parts[k]| ==> parts[k][j] != sep
  {
    if s == [] then [""]
    else
      var rest := Split(s[1..], sep);
      if s[0] == sep then [""] + rest
      else [[s[0]] + rest[0]] + rest[1..]
  }

  /** `implode($glue, $pieces)`. */
  function Join(glue: string, parts: seq<string>): string
  {
    if |parts| == 0 then ""
    else if |parts| == 1 then parts[0]
    else parts[0] + glue + Join(glue, parts[1..])
  }

  lemma {:induction false} JoinConsFirst(glue: string, c: char, parts: seq<string>)
    requires |parts| > 0
    ensures Join(glue, [[c] + parts[0]] + parts[1..]) == [c] + Join(glue, parts)
  {
    var ps := [[c] + parts[0]] + parts[1..];
    assert ps[1..] == parts[1..];
  }

  /** Joining the pieces of `explode` with the separator gives back the original string. */
  lemma {:induction false} JoinSplit(s: string, sep: char)
    ensures Join([sep], Split(s, sep)) == s
  {
    if s != [] {
      var rest := Split(s[1..], sep);
      JoinSplit(s[1..], sep);
      if s[0] == sep {
        assert ([""] + rest)[1..] == rest;
        assert s == [sep] + s[1..];
      } else {
        JoinConsFirst([sep], s[0], rest);
        assert s == [s[0]] + s[1..];
      }
    }
  }
}
