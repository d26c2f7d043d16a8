/**
 The two loops that find a free tenant code, and the names derived from the code.
 */
module TenantCodes {
  import Saga

  /** str(n) */
  function Decimal(n: nat): string {
    if n < 10 then [Digit(n)] else Decimal(n / 10) + [Digit(n % 10)]
  }

  function Digit(d: nat): char
    requires d < 10
  {
    "0123456789"[d]
  }

  /** slugify(name)[:24] or "org", given the slug */
  function Base(slug: string): string {
    var cut := if |slug| > 24 then slug[..24] else slug;
    if cut == "" then "org" else cut
  }

  /** The candidates in the order they are tried: base, base2, base3, ... */
  function Candidate(base: string, suffix: nat): string {
    if suffix <= 1 then base else base + Decimal(suffix)
  }

  /** code is the first candidate not in existing, found at suffix. */
  predicate FirstFree(existing: set<string>, base: string, suffix: nat, code: string) {
    && 1 <= suffix && code == Candidate(base, suffix) && code !in existing
    && forall k :: 1 <= k < suffix ==> Candidate(base, k) in existing
  }

  lemma {:induction false} DecimalInjective(m: nat, n: nat)
    requires Decimal(m) == Decimal(n)
    ensures m == n
  {
    var s := Decimal(m);
    assert s[|s| - 1] == Digit(m % 10) && s[|s| - 1] == Digit(n % 10);
    if m >= 10 && n >= 10 {
      assert s[..|s| - 1] == Decimal(m / 10) && s[..|s| - 1] == Decimal(n / 10);
      DecimalInjective(m / 10, n / 10);
    } else {
      DecimalNotEmpty(m / 10);
      DecimalNotEmpty(n / 10);
    }
  }

  lemma DecimalNotEmpty(n: nat)
    ensures |Decimal(n)| >= 1
  {
  }

  /** The number a string of digits stands for. */
  function Value(s: string): nat
    requires AllDigits(s)
  {
    if s == "" then 0 else 10 * Value(s[..|s| - 1]) + (s[|s| - 1] as int - 48)
  }

  predicate AllDigits(s: string) {
    forall i :: 0 <= i < |s| ==> '0' <= s[i] <= '9'
  }

  /** str(n) is the decimal numeral of n: digits only, without a leading zero, and worth n. */
  lemma {:induction false} DecimalIsNumeral(n: nat)
    ensures AllDigits(Decimal(n))
    ensures |Decimal(n)| > 1 ==> Decimal(n)[0] != '0'
    ensures Value(Decimal(n)) == n
    decreases n
  {
    var d := n % 10;
    assert '0' <= Digit(d) <= '9' && Digit(d) as int - 48 == d;
    if n < 10 {
      assert Decimal(n) == [Digit(n)] && [Digit(n)][..0] == "";
    } else {
      DecimalIsNumeral(n / 10);
      DecimalNotEmpty(n / 10);
      assert Decimal(n)[..|Decimal(n)| - 1] == Decimal(n / 10);
      if n / 10 < 10 {
        assert Digit(n / 10) != '0';
      }
    }
  }

  /** Different suffixes give different candidates. */
  lemma CandidatesDiffer(base: string, j: nat, k: nat)
    requires 1 <= j < k
    ensures Candidate(base, j) != Candidate(base, k)
  {
    DecimalNotEmpty(k);
    if Candidate(base, j) == Candidate(base, k) && j > 1 {
      assert (base + Decimal(j))[|base|..] == Decimal(j) && (base + Decimal(k))[|base|..] == Decimal(k);
      DecimalInjective(j, k);
    }
  }

  function Tried(base: string, n: nat): set<string> {
    set k | 1 <= k <= n :: Candidate(base, k)
  }

  lemma {:induction false} TriedAreMany(base: string, n: nat)
    ensures |Tried(base, n)| == n
  {
    if n == 0 {
      assert Tried(base, 0) == {};
    } else {
      TriedAreMany(base, n - 1);
      assert Candidate(base, n) !in Tried(base, n - 1) by {
        forall k | 1 <= k <= n - 1 ensures Candidate(base, k) != Candidate(base, n) {
          CandidatesDiffer(base, k, n);
        }
      }
      assert Tried(base, n) == Tried(base, n - 1) + {Candidate(base, n)};
    }
  }

  lemma {:induction false} SubsetSize<T>(a: set<T>, b: set<T>)
    requires a <= b
    ensures |a| <= |b|
  {
    if a != {} {
      var x :| x in a;
      SubsetSize(a - {x}, b - {x});
    }
  }

  /** Pigeonhole: n codes in use leave no room for more than n candidates that are all taken. */
  lemma TakenAreFew(existing: set<string>, base: string, n: nat)
    requires forall k :: 1 <= k <= n ==> Candidate(base, k) in existing
    ensures n <= |existing|
  {
    TriedAreMany(base, n);
    SubsetSize(Tried(base, n), existing);
  }

  lemma FirstFreeIsUnique(existing: set<string>, base: string, j: nat, a: string, k: nat, b: string)
    requires FirstFree(existing, base, j, a) && FirstFree(existing, base, k, b)
    ensures j == k && a == b
  {
  }

  lemma {:induction false} DecimalLength(n: nat, digits: nat, bound: nat)
    requires 1 <= digits && n < bound && bound == PowerOfTen(digits)
    ensures |Decimal(n)| <= digits
  {
    if n >= 10 {
      assert digits > 1;
      DecimalLength(n / 10, digits - 1, PowerOfTen(digits - 1));
    }
  }

  function PowerOfTen(k: nat): nat { if k == 0 then 1 else 10 * PowerOfTen(k - 1) }

  lemma EightDigits(n: nat)
    requires n < 100_000_000
    ensures |Decimal(n)| <= 8
  {
    assert PowerOfTen(4) == 10_000;
    assert PowerOfTen(8) == 100_000_000;
    DecimalLength(n, 8, 100_000_000);
  }

  /** dashboard: _unique_tenant_code.  The search ends by suffix |existing| + 1, and the code fits the
      column while that number has at most eight digits. */
  method UniqueTenantCode(slug: string, existing: set<string>) returns (candidate: string, ghost found: nat)
    ensures FirstFree(existing, Base(slug), found, candidate) && found <= |existing| + 1
    ensures var base := if slug == "" then "org" else if |slug| <= 24 then slug else slug[..24];
            if base !in existing then candidate == base
            else
              found >= 2 && candidate == base + Decimal(found)
              && forall k :: 2 <= k < found ==> base + Decimal(k) in existing
    ensures |existing| + 1 < 100_000_000 ==> |candidate| <= 32
  {
    var code := Base(slug);
    candidate := code;
    var suffix := 1;
    while candidate in existing
      invariant 1 <= suffix && candidate == Candidate(code, suffix)
      invariant forall k :: 1 <= k < suffix ==> Candidate(code, k) in existing
      invariant suffix <= |existing| + 1
      decreases |existing| + 1 - suffix
    {
      TakenAreFew(existing, code, suffix);
      suffix := suffix + 1;
      candidate := code + Decimal(suffix);
    }
    found := suffix;
    forall k | 2 <= k < found ensures Base(slug) + Decimal(k) in existing {
      assert Candidate(Base(slug), k) in existing;
    }
    assert found >= 2 ==> Candidate(Base(slug), 1) in existing;
    if suffix < 100_000_000 {
      EightDigits(suffix);
    }
  }

  /** organizations: _suggest_tenant_code */
  method SuggestTenantCode(slug: string, existing: set<string>) returns (code: string, ghost found: nat)
    ensures FirstFree(existing, Base(slug), found, code) && found <= |existing| + 1
    ensures var base := if slug == "" then "org" else if |slug| <= 24 then slug else slug[..24];
            if base !in existing then code == base
            else
              found >= 2 && code == base + Decimal(found)
              && forall k :: 2 <= k < found ==> base + Decimal(k) in existing
    ensures |existing| + 1 < 100_000_000 ==> |code| <= 32
  {
    var base := if |slug| > 24 then slug[..24] else slug;
    if base == "" {
      base := "org";
    }
    code := base;
    var suffix := 1;
    while code in existing
      invariant 1 <= suffix && code == Candidate(base, suffix)
      invariant forall k :: 1 <= k < suffix ==> Candidate(base, k) in existing
      invariant suffix <= |existing| + 1
      decreases |existing| + 1 - suffix
    {
      TakenAreFew(existing, base, suffix);
      suffix := suffix + 1;
      code := base + Decimal(suffix);
    }
    found := suffix;
    forall k | 2 <= k < found ensures Base(slug) + Decimal(k) in existing {
      assert Candidate(Base(slug), k) in existing;
    }
    assert found >= 2 ==> Candidate(Base(slug), 1) in existing;
    if suffix < 100_000_000 {
      EightDigits(suffix);
    }
  }

  /** Codes handed out one after another are distinct, and so are the database names, roles and
      hostnames made from them. */
  lemma DerivedNamesDiffer(a: string, b: string)
    requires a != b
    ensures Saga.DefaultDbName(a) != Saga.DefaultDbName(b)
    ensures Saga.RoleName(Saga.DefaultDbName(a)) != Saga.RoleName(Saga.DefaultDbName(b))
    ensures Saga.Subdomain(a) != Saga.Subdomain(b)
  {
    var p, r, d := "tenant_", "_role", "." + Saga.BASE_DOMAIN;
    if |a| == |b| {
      var i :| 0 <= i < |a| && a[i] != b[i];
      assert (p + a)[|p| + i] != (p + b)[|p| + i];
      assert ((p + a) + r)[|p| + i] != ((p + b) + r)[|p| + i];
      assert (a + "." + Saga.BASE_DOMAIN)[i] != (b + "." + Saga.BASE_DOMAIN)[i];
    } else {
      assert |p + a| != |p + b|;
      assert |Saga.Subdomain(a)| == |a| + 1 + |Saga.BASE_DOMAIN|;
    }
  }
}
