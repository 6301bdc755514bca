/**
 * The PHP semantics the package leans on: its loosely typed scalars, the
 * string conversion PHP applies to them, and the string built-ins trim(),
 * empty(), strpos(), str_replace(), strtolower() and implode().
 * Characters stand for code points; every built-in modelled here treats the
 * ASCII range alone specially, so bytes and code points agree on it.
 */
module Php {
  import opened Wrappers

  /** A PHP scalar as it reaches the package: null, a string or an integer. */
  datatype Value = Null | Str(s: string) | Int(i: int)

  predicate IsDigit(c: char) { '0' <= c <= '9' }

  predicate AllDigits(s: string) { forall k :: 0 <= k < |s| ==> IsDigit(s[k]) }

  function DigitChar(d: nat): (c: char)
    requires d < 10
    ensures IsDigit(c)
  {
    ('0' as int + d) as char
  }

  function DigitValue(c: char): (d: nat)
    requires IsDigit(c)
    ensures d < 10 && DigitChar(d) == c
  {
    c as int - '0' as int
  }

  /** The number a run of decimal digits denotes. */
  function DigitsValue(s: string): nat
    requires AllDigits(s)
  {
    if s == [] then 0 else DigitsValue(s[..|s| - 1]) * 10 + DigitValue(s[|s| - 1])
  }

  /** Decimal text of a natural number, without leading zeros. */
  function NatToString(n: nat): (s: string)
    ensures |s| > 0 && AllDigits(s)
    ensures s[0] == '0' ==> n == 0
    decreases n
  {
    if n < 10 then [DigitChar(n)] else NatToString(n / 10) + [DigitChar(n % 10)]
  }

  /** Reading back the decimal text of n gives n. */
  lemma {:induction false} NatToStringRoundTrip(n: nat)
    ensures DigitsValue(NatToString(n)) == n
  {
    if n >= 10 {
      var s := NatToString(n);
      assert s[..|s| - 1] == NatToString(n / 10);
      NatToStringRoundTrip(n / 10);
    }
  }

  /** Decimal text of an integer, as PHP's (string) cast writes it. */
  function IntToString(i: int): (s: string)
    ensures |s| > 0 && (s[0] == '-' || IsDigit(s[0]))
    ensures s == "0" <==> i == 0
  {
    if i < 0 then "-" + NatToString(-i) else NatToString(i)
  }

  /** The string PHP uses when a scalar stands where a string is expected. */
  function ToStr(v: Value): string
  {
    match v
    case Null => ""
    case Str(s) => s
    case Int(i) => IntToString(i)
  }

  /** `isset($a[$k])`: the key is present and its value is not null. */
  predicate IsSet(a: map<string, Value>, k: string)
  {
    k in a && a[k] != Null
  }

  /** `$a[$k] ?? $default`. */
  function Coalesce(a: map<string, Value>, k: string, default: Value): (v: Value)
    ensures IsSet(a, k) ==> v == a[k]
    ensures !IsSet(a, k) ==> v == default
  {
    if IsSet(a, k) then a[k] else default
  }

  /** The characters trim() removes by default. */
  predicate IsTrimmed(c: char)
  {
    c == ' ' || c == '\t' || c == '\n' || c == '\r' || c == '\0' || c == '\U{0B}'
  }

  function TrimLeft(s: string): string
    decreases |s|
  {
    if |s| > 0 && IsTrimmed(s[0]) then TrimLeft(s[1..]) else s
  }

  function TrimRight(s: string): string
    decreases |s|
  {
    if |s| > 0 && IsTrimmed(s[|s| - 1]) then TrimRight(s[..|s| - 1]) else s
  }

  /** trim(): the string without its leading and trailing whitespace. */
  function Trim(s: string): string
  {
    TrimRight(TrimLeft(s))
  }

  predicate AllTrimmed(s: string)
  {
    forall k :: 0 <= k < |s| ==> IsTrimmed(s[k])
  }

  lemma {:induction false} TrimLeftEmptyIff(s: string)
    ensures TrimLeft(s) == "" <==> AllTrimmed(s)
    decreases |s|
  {
    if |s| > 0 {
      TrimLeftEmptyIff(s[1..]);
      if IsTrimmed(s[0]) {
        assert AllTrimmed(s) <==> AllTrimmed(s[1..]) by {
          if AllTrimmed(s[1..]) {
            forall k | 0 <= k < |s| ensures IsTrimmed(s[k]) {
              if k > 0 { assert s[k] == s[1..][k - 1]; }
            }
          }
        }
      }
    }
  }

  lemma {:induction false} TrimRightEmptyIff(s: string)
    ensures TrimRight(s) == "" <==> AllTrimmed(s)
    decreases |s|
  {
    if |s| > 0 {
      var p := s[..|s| - 1];
      TrimRightEmptyIff(p);
      if IsTrimmed(s[|s| - 1]) {
        assert AllTrimmed(s) <==> AllTrimmed(p) by {
          if AllTrimmed(p) {
            forall k | 0 <= k < |s| ensures IsTrimmed(s[k]) {
              if k < |s| - 1 { assert s[k] == p[k]; }
            }
          }
        }
      }
    }
  }

  /** TrimLeft only ever removes whitespace, so what it keeps is a suffix whose other part is whitespace. */
  lemma {:induction false} TrimLeftSuffix(s: string)
    ensures |TrimLeft(s)| <= |s| && TrimLeft(s) == s[|s| - |TrimLeft(s)|..]
    ensures AllTrimmed(s[..|s| - |TrimLeft(s)|])
    decreases |s|
  {
    if |s| > 0 && IsTrimmed(s[0]) {
      TrimLeftSuffix(s[1..]);
      var d := |s| - |TrimLeft(s)|;
      forall k | 0 <= k < d ensures IsTrimmed(s[..d][k]) {
        if k > 0 { assert s[..d][k] == s[1..][..d - 1][k - 1]; }
      }
    }
  }

  /** What TrimLeft keeps does not start with whitespace. */
  lemma {:induction false} TrimLeftHead(s: string)
    ensures TrimLeft(s) != [] ==> !IsTrimmed(TrimLeft(s)[0])
    decreases |s|
  {
    if |s| > 0 && IsTrimmed(s[0]) {
      TrimLeftHead(s[1..]);
    }
  }

  /** A string trims to nothing exactly when every character of it is whitespace. */
  lemma TrimEmptyIff(s: string)
    ensures Trim(s) == "" <==> AllTrimmed(s)
  {
    var l := TrimLeft(s);
    TrimLeftEmptyIff(s);
    TrimRightEmptyIff(l);
    TrimLeftSuffix(s);
    TrimLeftHead(s);
    if AllTrimmed(l) {
      assert |l| == 0;
      forall k | 0 <= k < |s| ensures IsTrimmed(s[k]) {
        assert s[k] == s[..|s| - |l|][k];
      }
    }
  }

  /** PHP's empty() on a string: "" and "0" are both empty. */
  predicate IsEmpty(s: string)
  {
    s == "" || s == "0"
  }

  predicate OccursAt(s: string, pat: string, i: int)
  {
    0 <= i && i + |pat| <= |s| && s[i..i + |pat|] == pat
  }

  /** `strpos($s, $pat) !== false`. */
  predicate Contains(s: string, pat: string)
  {
    exists i :: 0 <= i <= |s| && OccursAt(s, pat, i)
  }

  /**
   * str_replace($pat, $rep, $s) for one search string: scans left to right
   * and replaces each non-overlapping occurrence; an empty search string
   * leaves the subject as it is.
   */
  function ReplaceAll(s: string, pat: string, rep: string): string
    decreases |s|
  {
    if |pat| == 0 || |s| < |pat| then s
    else if s[..|pat|] == pat then rep + ReplaceAll(s[|pat|..], pat, rep)
    else [s[0]] + ReplaceAll(s[1..], pat, rep)
  }

  /** An occurrence in the tail is an occurrence one place later in the whole. */
  lemma OccursAtTail(s: string, pat: string, i: int)
    requires |s| > 0 && 0 <= i
    ensures OccursAt(s[1..], pat, i) <==> OccursAt(s, pat, i + 1)
  {
    if 0 <= i && i + |pat| <= |s| - 1 {
      assert s[1..][i..i + |pat|] == s[i + 1..i + 1 + |pat|];
    }
  }

  /** Replacing a string that does not occur changes nothing. */
  lemma {:induction false} ReplaceAllAbsent(s: string, pat: string, rep: string)
    requires !Contains(s, pat)
    ensures ReplaceAll(s, pat, rep) == s
    decreases |s|
  {
    if |pat| > 0 && |s| >= |pat| {
      assert !OccursAt(s, pat, 0);
      assert s[..|pat|] != pat;
      forall i | OccursAt(s[1..], pat, i) ensures OccursAt(s, pat, i + 1) {
        OccursAtTail(s, pat, i);
      }
      ReplaceAllAbsent(s[1..], pat, rep);
    }
  }

  function LowerChar(c: char): char
  {
    if 'A' <= c <= 'Z' then (c as int + 32) as char else c
  }

  /** strtolower(): ASCII upper-case letters become lower-case, nothing else changes. */
  function ToLower(s: string): (r: string)
    ensures |r| == |s|
    ensures forall k :: 0 <= k < |s| ==> r[k] == LowerChar(s[k])
  {
    seq(|s|, k requires 0 <= k < |s| => LowerChar(s[k]))
  }

  /** strtolower() leaves no ASCII upper-case letter, and applying it twice is applying it once. */
  lemma ToLowerIdempotent(s: string)
    ensures forall k :: 0 <= k < |ToLower(s)| ==> !('A' <= ToLower(s)[k] <= 'Z')
    ensures ToLower(ToLower(s)) == ToLower(s)
  {
    var t := ToLower(s);
    forall k | 0 <= k < |t| ensures LowerChar(t[k]) == t[k] {
      assert t[k] == LowerChar(s[k]);
    }
  }

  /** Strings that differ only in the case of ASCII letters lower to the same string. */
  lemma ToLowerCaseInsensitive(s: string, t: string)
    requires |s| == |t|
    requires forall k :: 0 <= k < |s| ==> s[k] == t[k] || LowerChar(s[k]) == t[k] || s[k] == LowerChar(t[k])
    ensures ToLower(s) == ToLower(t)
  {
    forall k | 0 <= k < |s| ensures ToLower(s)[k] == ToLower(t)[k] {
      assert ToLower(s)[k] == LowerChar(s[k]);
    }
  }

  /** implode($sep, $parts). */
  function Join(parts: seq<string>, sep: string): string
  {
    if parts == [] then ""
    else if |parts| == 1 then parts[0]
    else parts[0] + sep + Join(parts[1..], sep)
  }

  predicate KeysDistinct<V>(a: seq<(string, V)>)
  {
    forall i, j :: 0 <= i < j < |a| ==> a[i].0 != a[j].0
  }

  /** A PHP array with its insertion order: keys appear once, in the order they were added. */
  type PhpArray<V> = a: seq<(string, V)> | KeysDistinct(a) witness []

  /** `$a[$k]` on an ordered array, or None when the key is absent. */
  function Lookup<V>(a: seq<(string, V)>, k: string): (r: Option<V>)
    ensures r.None? <==> forall i :: 0 <= i < |a| ==> a[i].0 != k
    ensures r.Some? ==> exists i :: 0 <= i < |a| && a[i] == (k, r.value)
  {
    if a == [] then None
    else if a[0].0 == k then Some(a[0].1)
    else Lookup(a[1..], k)
  }
}
