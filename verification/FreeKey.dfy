/** The search for a free row key (frontend/src/lib/template-draft.ts). It has no
    bound of its own: it ends because the suffixed keys are all different and only
    finitely many are taken. */
module FreeKey {
  const RESERVED: set<string> := {"status", "config"}

  const BASE: nat := 10

  /** A number as JavaScript prints it. */
  function Decimal(n: nat): string {
    var digit := [('0' as int + n % BASE) as char];
    if n < BASE then digit else Decimal(n / BASE) + digit
  }

  predicate Digits(s: string) {
    forall i | 0 <= i < |s| :: '0' <= s[i] <= '9'
  }

  function NumberOf(s: string): nat
    requires Digits(s)
  {
    if s == [] then 0 else NumberOf(s[..|s| - 1]) * BASE + (s[|s| - 1] as int - '0' as int)
  }

  /** Decimal digits that read back as the number. */
  lemma {:induction false} DecimalReads(n: nat)
    ensures Decimal(n) != [] && Digits(Decimal(n)) && NumberOf(Decimal(n)) == n
  {
    if n >= BASE {
      DecimalReads(n / BASE);
      var s := Decimal(n);
      assert s[..|s| - 1] == Decimal(n / BASE);
    }
  }

  /** The `n`th key tried: the base itself, then base_2, base_3 and so on. */
  function Candidate(stem: string, n: nat): string
    requires n >= 1
  {
    if n == 1 then stem else stem + "_" + Decimal(n)
  }

  lemma CandidatesDiffer(stem: string, m: nat, n: nat)
    requires 1 <= m < n
    ensures Candidate(stem, m) != Candidate(stem, n)
  {
    var k := |stem + "_"|;
    assert Candidate(stem, n)[k..] == Decimal(n);
    if m == 1 {
      assert |Candidate(stem, n)| > |stem|;
    } else {
      assert Candidate(stem, m)[k..] == Decimal(m);
      DecimalsDiffer(m, n);
    }
  }

  lemma DecimalsDiffer(m: nat, n: nat)
    requires m != n
    ensures Decimal(m) != Decimal(n)
  {
    DecimalReads(m);
    DecimalReads(n);
  }

  predicate Blocked(used: set<string>, key: string) {
    key in used || key in RESERVED
  }

  /** The taken keys the search may still run into. */
  ghost function Ahead(stem: string, used: set<string>, n: nat): set<string>
    requires n >= 1
  {
    set key | key in used + RESERVED && exists m: nat :: n <= m && Candidate(stem, m) == key
  }

  lemma AheadShrinks(stem: string, used: set<string>, n: nat)
    requires n >= 1 && Blocked(used, Candidate(stem, n))
    ensures |Ahead(stem, used, n + 1)| < |Ahead(stem, used, n)|
  {
    var now, later := Ahead(stem, used, n), Ahead(stem, used, n + 1);
    var key := Candidate(stem, n);
    assert key in now;
    forall m: nat | n + 1 <= m
      ensures Candidate(stem, m) != key
    {
      CandidatesDiffer(stem, n, m);
    }
    assert key !in later && later <= now;
    assert later <= now - {key};
    SmallerSet(later, now - {key});
  }

  lemma SmallerSet<T>(a: set<T>, b: set<T>)
    requires a <= b
    ensures |a| <= |b|
  {
    assert b == a + (b - a);
  }

  /** The key found from the `n`th on. */
  function SearchFrom(stem: string, used: set<string>, n: nat): (k: nat)
    requires n >= 1
    ensures k >= n && !Blocked(used, Candidate(stem, k))
    ensures forall m | n <= m < k :: Blocked(used, Candidate(stem, m))
    decreases |Ahead(stem, used, n)|
  {
    if Blocked(used, Candidate(stem, n)) then AheadShrinks(stem, used, n); SearchFrom(stem, used, n + 1) else n
  }

  function FreeKeyOf(stem: string, used: set<string>): string {
    Candidate(stem, SearchFrom(stem, used, 1))
  }

  /** The first candidate that is neither used nor reserved. */
  method FindFreeKey(stem: string, used: set<string>) returns (key: string)
    ensures key !in used && key !in RESERVED
    ensures exists k: nat :: k >= 1 && key == Candidate(stem, k) && forall m | 1 <= m < k :: Blocked(used, Candidate(stem, m))
    ensures key == FreeKeyOf(stem, used)
  {
    key := stem;
    var n := 2;
    while key in used || key in RESERVED
      invariant n >= 2 && key == Candidate(stem, n - 1)
      invariant forall m | 1 <= m < n - 1 :: Blocked(used, Candidate(stem, m))
      invariant SearchFrom(stem, used, n - 1) == SearchFrom(stem, used, 1)
      decreases |Ahead(stem, used, n - 1)|
    {
      AheadShrinks(stem, used, n - 1);
      key := stem + "_" + Decimal(n);
      n := n + 1;
    }
  }

  /** The search tries at most one key more than are used or reserved. */
  lemma SearchIsShort(stem: string, used: set<string>)
    ensures SearchFrom(stem, used, 1) <= |used + RESERVED| + 1
  {
    SearchBound(stem, used, 1);
    SmallerSet(Ahead(stem, used, 1), used + RESERVED);
  }

  lemma {:induction false} SearchBound(stem: string, used: set<string>, n: nat)
    requires n >= 1
    ensures SearchFrom(stem, used, n) <= n + |Ahead(stem, used, n)|
    decreases |Ahead(stem, used, n)|
  {
    if Blocked(used, Candidate(stem, n)) {
      AheadShrinks(stem, used, n);
      SearchBound(stem, used, n + 1);
    }
  }
}
