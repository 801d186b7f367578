/** The project-name rules of the ledger: `domainNameRegex`, the 20-character
    truncation and the decimal collision suffix. */
module DomainName {

  /** The longest base slug kept from the normalised display name. */
  const MaxBaseLength: nat := 20

  /** Subdomains that may be allocated even when already taken. */
  const ReservedSubdomains: seq<string> := ["api"]

  predicate IsLetter(c: char)
  {
    'a' <= c <= 'z' || 'A' <= c <= 'Z'
  }

  predicate IsDigit(c: char)
  {
    '0' <= c <= '9'
  }

  predicate IsAlnum(c: char)
  {
    IsLetter(c) || IsDigit(c)
  }

  /** The class `\s` of JavaScript regular expressions: white space and line
      terminators. */
  predicate IsWhitespace(c: char)
  {
    c == '\t' || c == '\n' || c == '\U{000B}' || c == '\U{000C}' || c == '\r'
    || c == ' ' || c == '\U{00A0}' || c == '\U{1680}'
    || ('\U{2000}' <= c <= '\U{200A}')
    || c == '\U{2028}' || c == '\U{2029}' || c == '\U{202F}' || c == '\U{205F}'
    || c == '\U{3000}' || c == '\U{FEFF}'
  }

  /** The separators `(-|\s)` between alphanumeric runs. */
  predicate IsSeparator(c: char)
  {
    c == '-' || IsWhitespace(c)
  }

  /** `[a-zA-Z0-9]+((-|\s)[a-zA-Z0-9]+)*`, matched against all of `s`. */
  predicate Runs(s: string)
    decreases |s|
  {
    |s| >= 1 && IsAlnum(s[0]) &&
    (|s| == 1 || Runs(s[1..]) || (IsSeparator(s[1]) && Runs(s[2..])))
  }

  /** `domainNameRegex`: `^[a-zA-Z](-?[a-zA-Z0-9]+((-|\s)[a-zA-Z0-9]+)*)?$`. */
  predicate DomainNameRegex(s: string)
  {
    |s| >= 1 && IsLetter(s[0]) &&
    (|s| == 1 || Runs(s[1..]) || (s[1] == '-' && Runs(s[2..])))
  }

  /** Every character is alphanumeric or a separator. */
  ghost predicate OnlyAllowedChars(s: string)
  {
    forall i :: 0 <= i < |s| ==> IsAlnum(s[i]) || IsSeparator(s[i])
  }

  /** No two separators stand next to each other. */
  ghost predicate NoDoubleSeparator(s: string)
  {
    forall i :: 0 <= i < |s| - 1 ==> !(IsSeparator(s[i]) && IsSeparator(s[i + 1]))
  }

  /** Alphanumeric runs joined by single separators, read as a shape. */
  ghost predicate RunShaped(s: string)
  {
    |s| >= 1 && IsAlnum(s[0]) && IsAlnum(s[|s| - 1]) &&
    OnlyAllowedChars(s) && NoDoubleSeparator(s)
  }

  lemma RunsIsRunShaped(s: string)
    ensures Runs(s) <==> RunShaped(s)
  {
    if Runs(s) {
      RunsAreShaped(s);
    }
    if RunShaped(s) {
      ShapedAreRuns(s);
    }
  }

  /** A run shape seen from its second or third character on: `t` is `s`
      without its first `k` characters. */
  lemma ShapedSuffix(s: string, k: nat)
    requires RunShaped(s) && 1 <= k < |s| && IsAlnum(s[k])
    ensures RunShaped(s[k..])
  {
    var t := s[k..];
    assert forall i :: 0 <= i < |t| ==> t[i] == s[i + k];
  }

  lemma {:induction false} RunsAreShaped(s: string)
    requires Runs(s)
    ensures RunShaped(s)
    decreases |s|
  {
    if |s| == 1 {
      return;
    }
    var k := if Runs(s[1..]) then 1 else 2;
    var t := s[k..];
    RunsAreShaped(t);
    assert forall i :: k <= i < |s| ==> s[i] == t[i - k];
    assert s[|s| - 1] == t[|t| - 1];
    forall i | 0 <= i < |s|
      ensures IsAlnum(s[i]) || IsSeparator(s[i])
    {
      if i >= k {
        assert s[i] == t[i - k];
      }
    }
    forall i | 0 <= i < |s| - 1
      ensures !(IsSeparator(s[i]) && IsSeparator(s[i + 1]))
    {
      if i >= k {
        assert s[i] == t[i - k] && s[i + 1] == t[i + 1 - k];
      } else {
        assert s[k] == t[0];
      }
    }
  }

  lemma {:induction false} ShapedAreRuns(s: string)
    requires RunShaped(s)
    ensures Runs(s)
    decreases |s|
  {
    if |s| == 1 {
      return;
    }
    if IsAlnum(s[1]) {
      ShapedSuffix(s, 1);
      ShapedAreRuns(s[1..]);
    } else {
      assert IsSeparator(s[1]);
      assert |s| >= 3 && IsAlnum(s[2]);
      ShapedSuffix(s, 2);
      ShapedAreRuns(s[2..]);
    }
  }

  /** The shape the regex describes, stated on the whole string: a letter
      first, a letter or digit last, only alphanumerics and separators, no two
      separators in a row, and no white space right after the first letter
      (the separator allowed there is only the `-?`). */
  ghost predicate DomainNameShaped(s: string)
  {
    |s| >= 1 && IsLetter(s[0]) && IsAlnum(s[|s| - 1]) &&
    OnlyAllowedChars(s) && NoDoubleSeparator(s) &&
    (|s| >= 2 ==> !IsWhitespace(s[1]))
  }

  /** `domainNameRegex` accepts exactly the strings of that shape. */
  lemma {:induction false} DomainNameShape(s: string)
    ensures DomainNameRegex(s) <==> DomainNameShaped(s)
  {
    if |s| < 2 || !IsLetter(s[0]) {
      return;
    }
    var t := s[1..];
    assert forall i :: 1 <= i < |s| ==> s[i] == t[i - 1];
    RunsIsRunShaped(t);
    if |s| >= 3 {
      var u := s[2..];
      assert forall i :: 2 <= i < |s| ==> s[i] == u[i - 2];
      RunsIsRunShaped(u);
      if s[1] == '-' && DomainNameShaped(s) {
        assert !IsSeparator(s[2]);
        assert RunShaped(u);
      }
      if s[1] == '-' && RunShaped(u) {
        assert DomainNameShaped(s);
      }
    }
    if IsAlnum(s[1]) && RunShaped(t) {
      assert DomainNameShaped(s);
    }
    if IsAlnum(s[1]) && DomainNameShaped(s) {
      assert RunShaped(t);
    }
  }

  // ---------------------------------------------------------------------
  // Decimal suffixes: `attempt.toString()`

  function DigitChar(d: nat): (c: char)
    requires d < 10
    ensures IsDigit(c) && c as int - '0' as int == d
  {
    ('0' as int + d) as char
  }

  function DigitValue(c: char): nat
    requires IsDigit(c)
  {
    c as int - '0' as int
  }

  ghost predicate AllDigits(s: string)
  {
    forall i :: 0 <= i < |s| ==> IsDigit(s[i])
  }

  /** The decimal numeral of `n`, without leading zeros. */
  function NatToString(n: nat): (s: string)
    ensures |s| >= 1 && AllDigits(s)
    decreases n
  {
    if n < 10 then [DigitChar(n)] else NatToString(n / 10) + [DigitChar(n % 10)]
  }

  /** The number a decimal numeral denotes. */
  function ParseNat(s: string): nat
    requires AllDigits(s)
    decreases |s|
  {
    if s == [] then 0 else ParseNat(s[..|s| - 1]) * 10 + DigitValue(s[|s| - 1])
  }

  /** Reading back the numeral of `n` gives `n`. */
  lemma {:induction false} ParseNatToString(n: nat)
    ensures ParseNat(NatToString(n)) == n
    decreases n
  {
    var s := NatToString(n);
    if n >= 10 {
      ParseNatToString(n / 10);
      assert s[..|s| - 1] == NatToString(n / 10);
    }
  }

  /** Distinct attempt numbers give distinct suffixes. */
  lemma NatToStringInjective(m: nat, n: nat)
    requires NatToString(m) == NatToString(n)
    ensures m == n
  {
    ParseNatToString(m);
    ParseNatToString(n);
  }

  // ---------------------------------------------------------------------
  // Slug candidates

  /** `.substring(0, 20)`. */
  function Truncate(s: string): (r: string)
    ensures |r| <= MaxBaseLength && |r| <= |s|
    ensures r == s[..|r|]
    ensures |s| <= MaxBaseLength ==> r == s
  {
    if |s| <= MaxBaseLength then s else s[..MaxBaseLength]
  }

  /** The name tried with a given `attempt`: the bare base while `attempt` is
      not positive, the base followed by the decimal attempt number after. */
  function Suffixed(base: string, attempt: int): (r: string)
    ensures attempt <= 0 ==> r == base
    ensures attempt > 0 ==> |r| > |base| && r[..|base|] == base
  {
    if attempt > 0 then base + NatToString(attempt) else base
  }

  /** Distinct positive attempts name distinct candidates, and none of them is
      the bare base. */
  lemma SuffixedInjective(base: string, i: int, j: int)
    requires Suffixed(base, i) == Suffixed(base, j)
    ensures i <= 0 <==> j <= 0
    ensures i > 0 ==> i == j
  {
    if i > 0 && j > 0 {
      var a, b := Suffixed(base, i), Suffixed(base, j);
      assert NatToString(i) == a[|base|..];
      assert NatToString(j) == b[|base|..];
      NatToStringInjective(i, j);
    }
  }

  /** Appending the collision suffix to a valid base keeps it valid. */
  lemma {:induction false} SuffixedKeepsDomainName(base: string, attempt: int)
    requires DomainNameRegex(base)
    ensures DomainNameRegex(Suffixed(base, attempt))
  {
    if attempt > 0 {
      var d := NatToString(attempt);
      var s := base + d;
      DomainNameShape(base);
      assert forall i :: |base| <= i < |s| ==> s[i] == d[i - |base|];
      assert forall i :: 0 <= i < |base| ==> s[i] == base[i];
      assert OnlyAllowedChars(s) by {
        forall i | 0 <= i < |s| ensures IsAlnum(s[i]) || IsSeparator(s[i]) {
          if i >= |base| {
            assert IsDigit(d[i - |base|]);
          }
        }
      }
      assert NoDoubleSeparator(s) by {
        forall i | 0 <= i < |s| - 1 ensures !(IsSeparator(s[i]) && IsSeparator(s[i + 1])) {
          if i + 1 >= |base| {
            assert IsDigit(d[i + 1 - |base|]);
          }
        }
      }
      assert IsDigit(s[|s| - 1]);
      assert DomainNameShaped(s);
      DomainNameShape(s);
    }
  }
}
