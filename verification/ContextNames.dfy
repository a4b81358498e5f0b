/** The first free context name (cmd/shared/login.go): base, or base-2, base-3, and so on. */
module ContextNames {
  import opened Wrappers

  // fmt's %d.
  function Decimal(n: nat): (digits: string)
    ensures digits != ""
  {
    (if n < 10 then "" else Decimal(n / 10)) + [Digit(n % 10)]
  }

  function Digit(d: nat): char
    requires d < 10
  {
    ('0' as int + d) as char
  }

  predicate Digits(s: string) {
    forall i | 0 <= i < |s| :: '0' <= s[i] <= '9'
  }

  // The number a string of digits is in base ten.
  function Value(digits: string): nat
    requires Digits(digits)
  {
    if digits == "" then 0
    else 10 * Value(digits[..|digits| - 1]) + (digits[|digits| - 1] as int - '0' as int)
  }

  // Decimal is the numeral of n in base ten, without a leading zero.
  lemma {:induction false} DecimalIsTheNumeral(n: nat)
    ensures Digits(Decimal(n))
    ensures Value(Decimal(n)) == n && (Decimal(n)[0] == '0' ==> Decimal(n) == "0")
  {
    var digits := Decimal(n);
    var rest := if n < 10 then "" else Decimal(n / 10);
    assert digits == rest + [Digit(n % 10)] && digits[..|digits| - 1] == rest;
    if n >= 10 {
      DecimalIsTheNumeral(n / 10);
      assert digits[0] == rest[0];
      assert Value("0") == 0;
    }
  }

  lemma {:induction false} DecimalInjective(m: nat, n: nat)
    requires Decimal(m) == Decimal(n)
    ensures m == n
  {
    var a, b := Decimal(m), Decimal(n);
    assert a[|a| - 1] == Digit(m % 10) && b[|b| - 1] == Digit(n % 10);
    assert a[..|a| - 1] == if m < 10 then "" else Decimal(m / 10);
    assert b[..|b| - 1] == if n < 10 then "" else Decimal(n / 10);
    if m >= 10 && n >= 10 {
      DecimalInjective(m / 10, n / 10);
    }
  }

  // The k-th name tried: base, then base-2, base-3, ...
  function Candidate(base: string, k: nat): string {
    if k == 0 then base else base + "-" + Decimal(k + 1)
  }

  lemma CandidateInjective(base: string, j: nat, k: nat)
    requires Candidate(base, j) == Candidate(base, k)
    ensures j == k
  {
    if j > 0 {
      assert |Candidate(base, j)| > |base|;
    }
    if k > 0 {
      assert |Candidate(base, k)| > |base|;
    }
    if j > 0 && k > 0 {
      assert Decimal(j + 1) == Candidate(base, j)[|base| + 1..];
      assert Decimal(k + 1) == Candidate(base, k)[|base| + 1..];
      DecimalInjective(j + 1, k + 1);
    }
  }

  function Candidates(base: string, k: nat): set<string> {
    set i | 0 <= i < k :: Candidate(base, i)
  }

  lemma {:induction false} CandidatesAreDistinct(base: string, k: nat)
    ensures |Candidates(base, k)| == k
  {
    if k > 0 {
      CandidatesAreDistinct(base, k - 1);
      assert Candidates(base, k) == Candidates(base, k - 1) + {Candidate(base, k - 1)};
      if Candidate(base, k - 1) in Candidates(base, k - 1) {
        var i :| 0 <= i < k - 1 && Candidate(base, i) == Candidate(base, k - 1);
        CandidateInjective(base, i, k - 1);
      }
    }
  }

  // However many names are registered, one of the first |registered| + 1 candidates is free.
  lemma OneIsFree(registered: set<string>, base: string, k: nat)
    requires forall i | 0 <= i < k :: Candidate(base, i) in registered
    ensures k <= |registered|
  {
    CandidatesAreDistinct(base, k);
    SubsetSize(Candidates(base, k), registered);
  }

  // The first candidate not registered, found after at most one more probe than there are registered names.
  method UniqueContextName(registered: set<string>, base: string) returns (name: string, probes: nat)
    ensures name !in registered
    ensures 0 < probes <= |registered| + 1 && name == Candidate(base, probes - 1)
    ensures forall i | 0 <= i < probes - 1 :: Candidate(base, i) in registered
  {
    name := base;
    var i := 2;
    while name in registered
      invariant i >= 2 && name == Candidate(base, i - 2)
      invariant forall k | 0 <= k < i - 2 :: Candidate(base, k) in registered
      decreases |registered| + 2 - i
    {
      OneIsFree(registered, base, i - 1);
      name := base + "-" + Decimal(i);
      i := i + 1;
    }
    OneIsFree(registered, base, i - 2);
    probes := i - 1;
  }
}
