/** Display formatting of account codes (lib/utils/format-utils.ts). */
module FormatUtils {
  import opened Common

  /** The strings that `^(\d+)(\d{2})(\d{3})$` matches: six or more ASCII digits. */
  predicate MatchesCodePattern(code: string) {
    |code| >= 6 && AllDigits(code)
  }

  /** The string with every '-' removed. */
  function RemoveHyphens(s: string): (r: string)
    ensures |r| <= |s|
    ensures '-' !in r
  {
    if s == [] then [] else (if s[0] == '-' then [] else [s[0]]) + RemoveHyphens(s[1..])
  }

  lemma {:induction false} RemoveHyphensAppend(a: string, b: string)
    ensures RemoveHyphens(a + b) == RemoveHyphens(a) + RemoveHyphens(b)
    decreases |a|
  {
    if a == [] {
      assert a + b == b;
    } else {
      var h := if a[0] == '-' then [] else [a[0]];
      assert (a + b)[0] == a[0] && (a + b)[1..] == a[1..] + b;
      RemoveHyphensAppend(a[1..], b);
      assert h + (RemoveHyphens(a[1..]) + RemoveHyphens(b)) == (h + RemoveHyphens(a[1..])) + RemoveHyphens(b);
    }
  }

  lemma {:induction false} RemoveHyphensOfDigits(s: string)
    requires AllDigits(s)
    ensures RemoveHyphens(s) == s
    decreases |s|
  {
    if s != [] {
      assert IsDigit(s[0]);
      RemoveHyphensOfDigits(s[1..]);
    }
  }

  /** Formats a code of n >= 6 digits as first(n-5) + "-" + 2 digits + "-" + last 3 digits;
      any other string is returned unchanged. */
  function FormatAccountCode(code: string): (r: string)
    ensures MatchesCodePattern(code) <==> |r| == |code| + 2
    ensures !MatchesCodePattern(code) ==> r == code
    ensures MatchesCodePattern(code) ==> r[|r| - 4] == '-' && r[|r| - 7] == '-'
  {
    if MatchesCodePattern(code) then
      var n := |code|;
      code[..n - 5] + "-" + code[n - 5..n - 3] + "-" + code[n - 3..]
    else
      code
  }

  lemma JoinHyphen(a: string, b: string)
    ensures RemoveHyphens(a + "-" + b) == RemoveHyphens(a) + RemoveHyphens(b)
  {
    assert RemoveHyphens("-") == [] by {
      assert "-"[1..] == [];
    }
    RemoveHyphensAppend(a, "-");
    assert RemoveHyphens(a + "-") == RemoveHyphens(a) by {
      assert RemoveHyphens(a) + [] == RemoveHyphens(a);
    }
    RemoveHyphensAppend(a + "-", b);
  }

  lemma DigitsSlice(s: string, i: nat, j: nat)
    requires AllDigits(s) && i <= j <= |s|
    ensures AllDigits(s[i..j])
  {
    assert forall k :: 0 <= k < j - i ==> s[i..j][k] == s[i + k];
  }

  /** Removing the hyphens from a formatted all-digit code gives the code back. */
  lemma FormatRoundTrip(code: string)
    requires AllDigits(code)
    ensures RemoveHyphens(FormatAccountCode(code)) == code
  {
    if MatchesCodePattern(code) {
      var n := |code|;
      var head, mid, tail := code[..n - 5], code[n - 5..n - 3], code[n - 3..];
      assert code == head + mid + tail;
      assert FormatAccountCode(code) == (head + "-" + mid) + "-" + tail;
      DigitsSlice(code, 0, n - 5);
      DigitsSlice(code, n - 5, n - 3);
      DigitsSlice(code, n - 3, n);
      JoinHyphen(head + "-" + mid, tail);
      JoinHyphen(head, mid);
      RemoveHyphensOfDigits(head);
      RemoveHyphensOfDigits(mid);
      RemoveHyphensOfDigits(tail);
    } else {
      RemoveHyphensOfDigits(code);
    }
  }

  /** The digit groups of a formatted code are the input's digits, in order. */
  lemma FormatGroups(code: string)
    requires MatchesCodePattern(code)
    ensures var r, n := FormatAccountCode(code), |code|;
      r[..n - 5] == code[..n - 5] && r[n - 4..n - 2] == code[n - 5..n - 3] && r[n - 1..] == code[n - 3..]
  {
  }

  /** Formatting twice is formatting once: a formatted code contains hyphens and no longer matches. */
  lemma FormatIdempotent(code: string)
    ensures FormatAccountCode(FormatAccountCode(code)) == FormatAccountCode(code)
  {
    var r := FormatAccountCode(code);
    if MatchesCodePattern(code) {
      assert !IsDigit(r[|r| - 4]);
      assert !MatchesCodePattern(r);
    }
  }

  /** Two all-digit codes with the same formatting are the same code. */
  lemma FormatInjective(a: string, b: string)
    requires AllDigits(a) && AllDigits(b)
    requires FormatAccountCode(a) == FormatAccountCode(b)
    ensures a == b
  {
    FormatRoundTrip(a);
    FormatRoundTrip(b);
  }

  lemma FormatExample()
    ensures FormatAccountCode("101001") == "1-01-001"
    ensures FormatAccountCode("1101") == "1101"
  {
    assert MatchesCodePattern("101001");
    assert !MatchesCodePattern("1101");
  }
}
