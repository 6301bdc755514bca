/**
 * Phone numbers as the facade checks and formats them: the pattern
 * `/^\+[1-9]\d{9,14}$/` and the digit-only form sent to the vendor API.
 */
module PhoneNumbers {
  import opened Php

  /** `+`, a digit 1-9, then 9 to 14 more ASCII digits, and nothing else. */
  predicate IsE164Text(s: string)
  {
    11 <= |s| <= 16 && s[0] == '+' && '1' <= s[1] <= '9' && AllDigits(s[2..])
  }

  /**
   * What the pattern accepts, stated without reference to matching: without
   * the D modifier PCRE's `$` also matches just before one final newline.
   */
  predicate AcceptedPhoneText(s: string)
  {
    IsE164Text(s) || (|s| > 0 && s[|s| - 1] == '\n' && IsE164Text(s[..|s| - 1]))
  }

  /** Length of the run of ASCII digits that starts at index i. */
  function DigitRun(s: string, i: nat): (n: nat)
    requires i <= |s|
    ensures i + n <= |s| && AllDigits(s[i..i + n])
    ensures i + n < |s| ==> !IsDigit(s[i + n])
    decreases |s| - i
  {
    if i < |s| && IsDigit(s[i]) then
      var rest := DigitRun(s, i + 1);
      assert s[i..i + 1 + rest] == [s[i]] + s[i + 1..i + 1 + rest];
      1 + rest
    else 0
  }

  /**
   * The pattern as PCRE runs it on a string: anchor, `+`, one digit 1-9, a
   * greedy `\d{9,14}`, then `$` at the end or before a final newline.
   */
  predicate MatchesPhonePattern(s: string)
  {
    && |s| >= 2 && s[0] == '+' && '1' <= s[1] <= '9'
    && var n := DigitRun(s, 2);
       9 <= n <= 14 && (2 + n == |s| || (2 + n == |s| - 1 && s[|s| - 1] == '\n'))
  }

  /** isValidPhoneNumber(): the argument is converted to a string first. */
  predicate IsValidPhoneNumber(number: Value)
  {
    MatchesPhonePattern(ToStr(number))
  }

  /** Every match of the pattern is a text of the accepted shape. */
  lemma MatchImpliesAccepted(s: string)
    requires MatchesPhonePattern(s)
    ensures AcceptedPhoneText(s)
  {
    var n := DigitRun(s, 2);
    if 2 + n == |s| {
      assert s[2..] == s[2..2 + n];
    } else {
      assert s[..|s| - 1][2..] == s[2..2 + n];
    }
  }

  /** Every text of the accepted shape matches the pattern. */
  lemma AcceptedImpliesMatch(s: string)
    requires AcceptedPhoneText(s)
    ensures MatchesPhonePattern(s)
  {
    var t := if IsE164Text(s) then s else s[..|s| - 1];
    assert IsE164Text(t);
    var n := DigitRun(s, 2);
    forall k | 2 <= k < |t| ensures IsDigit(s[k]) {
      assert s[k] == t[2..][k - 2];
    }
    assert forall k :: 2 <= k < 2 + n ==> IsDigit(s[k]) by {
      forall k | 2 <= k < 2 + n ensures IsDigit(s[k]) {
        assert s[k] == s[2..2 + n][k - 2];
      }
    }
    assert 2 + n == |t|;
  }

  /** The pattern accepts exactly the texts AcceptedPhoneText describes. */
  lemma MatchesPhonePatternIff(s: string)
    ensures MatchesPhonePattern(s) <==> AcceptedPhoneText(s)
  {
    if MatchesPhonePattern(s) { MatchImpliesAccepted(s); }
    if AcceptedPhoneText(s) { AcceptedImpliesMatch(s); }
  }

  /** isValidPhoneNumber() accepts exactly the strings of the accepted shape; null and integers never pass. */
  lemma IsValidPhoneNumberIff(number: Value)
    ensures IsValidPhoneNumber(number) <==> number.Str? && AcceptedPhoneText(number.s)
  {
    MatchesPhonePatternIff(ToStr(number));
  }

  /** An integer never passes: its decimal text has no leading `+`. */
  lemma IntegerIsNeverValid(i: int)
    ensures !IsValidPhoneNumber(Int(i))
  {
  }

  /** formatPhoneNumber(): every character that is not an ASCII digit is removed. */
  function FormatPhoneNumber(s: string): (r: string)
    ensures AllDigits(r) && |r| <= |s|
  {
    if s == [] then []
    else (if IsDigit(s[0]) then [s[0]] else []) + FormatPhoneNumber(s[1..])
  }

  /** Removing non-digits works piecewise over a concatenation. */
  lemma {:induction false} FormatAppend(a: string, b: string)
    ensures FormatPhoneNumber(a + b) == FormatPhoneNumber(a) + FormatPhoneNumber(b)
    decreases |a|
  {
    if a != [] {
      var head := if IsDigit(a[0]) then [a[0]] else [];
      calc {
        FormatPhoneNumber(a + b);
        { assert (a + b)[0] == a[0] && (a + b)[1..] == a[1..] + b; }
        head + FormatPhoneNumber(a[1..] + b);
        { FormatAppend(a[1..], b); }
        head + (FormatPhoneNumber(a[1..]) + FormatPhoneNumber(b));
        (head + FormatPhoneNumber(a[1..])) + FormatPhoneNumber(b);
        FormatPhoneNumber(a) + FormatPhoneNumber(b);
      }
    } else {
      assert a + b == b;
    }
  }

  /** A string without digits is removed entirely. */
  lemma {:induction false} FormatDropsNonDigits(s: string)
    requires forall k :: 0 <= k < |s| ==> !IsDigit(s[k])
    ensures FormatPhoneNumber(s) == []
    decreases |s|
  {
    if s != [] {
      FormatDropsNonDigits(s[1..]);
    }
  }

  /** A string of digits is left as it is. */
  lemma {:induction false} FormatKeepsDigits(s: string)
    requires AllDigits(s)
    ensures FormatPhoneNumber(s) == s
    decreases |s|
  {
    if s != [] {
      FormatKeepsDigits(s[1..]);
    }
  }

  /** Formatting `+` followed by digits gives the digits: the test number "+1234567890" is sent as "1234567890". */
  lemma FormatSignedDigits(d: string)
    requires AllDigits(d)
    ensures FormatPhoneNumber("+" + d) == d
  {
    var t := "+" + d;
    assert t[0] == '+' && t[1..] == d;
    assert FormatPhoneNumber(t) == FormatPhoneNumber(d);
    FormatKeepsDigits(d);
  }

  /** An E.164 text is `+` followed by its formatted digits. */
  lemma FormatE164Text(t: string)
    requires IsE164Text(t)
    ensures "+" + FormatPhoneNumber(t) == t
  {
    var digits := t[1..];
    assert AllDigits(digits) by {
      forall k | 0 <= k < |digits| ensures IsDigit(digits[k]) {
        if k > 0 { assert digits[k] == t[2..][k - 1]; }
      }
    }
    assert t == "+" + digits;
    FormatSignedDigits(digits);
  }

  /** Formatting an accepted number drops the `+` (and a final newline) and keeps every digit. */
  lemma FormatAcceptedNumber(s: string)
    requires MatchesPhonePattern(s)
    ensures "+" + FormatPhoneNumber(s) == s || "+" + FormatPhoneNumber(s) + "\n" == s
  {
    MatchImpliesAccepted(s);
    if IsE164Text(s) {
      FormatE164Text(s);
    } else {
      var t := s[..|s| - 1];
      FormatE164Text(t);
      assert s == t + "\n";
      FormatAppend(t, "\n");
      assert FormatPhoneNumber("\n") == [];
      assert FormatPhoneNumber(s) == FormatPhoneNumber(t);
    }
  }

  /** Numbers the package's tests use that the pattern accepts. */
  lemma AcceptedExamples()
    ensures MatchesPhonePattern("+1234567890")
    ensures MatchesPhonePattern("+123456789012345")
    ensures MatchesPhonePattern("+1234567890\n")
  {
    TenDigitIsE164();
    AcceptedImpliesMatch("+1234567890");
    FifteenDigitAccepted();
    NewlineAccepted();
  }

  lemma TenDigitIsE164()
    ensures IsE164Text("+1234567890")
  {
  }

  lemma FifteenDigitAccepted()
    ensures MatchesPhonePattern("+123456789012345")
  {
    AcceptedImpliesMatch("+123456789012345");
  }

  lemma NewlineAccepted()
    ensures MatchesPhonePattern("+1234567890\n")
  {
    var s := "+1234567890\n";
    TenDigitIsE164();
    assert s[..|s| - 1] == "+1234567890";
    AcceptedImpliesMatch(s);
  }

  /** Numbers the package's tests use that the pattern rejects. */
  lemma RejectedExamples()
    ensures !MatchesPhonePattern("+123")
    ensures !MatchesPhonePattern("12345")
    ensures !MatchesPhonePattern("++1234567890")
    ensures !MatchesPhonePattern("+0123456789")
    ensures !MatchesPhonePattern("whatsapp:+1234567890")
  {
  }

  /** Letters inside the digits, or a sixteenth digit, are rejected. */
  lemma RejectedByDigitRun()
    ensures !MatchesPhonePattern("+1234abc5678")
    ensures !MatchesPhonePattern("+1234567890123456")
  {
    MatchesPhonePatternIff("+1234abc5678");
    assert "+1234abc5678"[2..][3] == 'a';
    MatchesPhonePatternIff("+1234567890123456");
  }
}
