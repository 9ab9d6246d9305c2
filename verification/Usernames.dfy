/** Deriving a free username from an email address. */
module Usernames {
  import opened Common
  import opened Decimals

  const MIN_LENGTH := 3
  const MAX_LENGTH := 50

  predicate Allowed(c: char) {
    'a' <= c <= 'z' || 'A' <= c <= 'Z' || '0' <= c <= '9' || c == '_' || c == '.' || c == '-'
  }

  /** The pattern every username must match. */
  predicate WellFormed(name: string) {
    MIN_LENGTH <= |name| <= MAX_LENGTH && forall i :: 0 <= i < |name| ==> Allowed(name[i])
  }

  /** What stands before the first at sign. */
  function LocalPart(email: string): string {
    if email == "" || email[0] == '@' then "" else [email[0]] + LocalPart(email[1..])
  }

  function Cleaned(s: string): (r: string)
    ensures forall i :: 0 <= i < |r| ==> Allowed(r[i])
  {
    if s == "" then "" else (if Allowed(s[0]) then [s[0]] else "") + Cleaned(s[1..])
  }

  function Cut(s: string): (r: string)
    ensures |r| == if |s| <= MAX_LENGTH then |s| else MAX_LENGTH
    ensures r <= s
  {
    if |s| <= MAX_LENGTH then s else s[..MAX_LENGTH]
  }

  function Base(email: string): (b: string)
    ensures WellFormed(b)
  {
    var local := Cleaned(LocalPart(email));
    Cut(if |local| >= MIN_LENGTH then local else "user" + local)
  }

  /** Cleaning works character by character: an allowed one is kept, any other dropped. */
  lemma {:induction false} CleanedJoins(a: string, b: string)
    ensures Cleaned(a + b) == Cleaned(a) + Cleaned(b)
    ensures |a| == 1 ==> Cleaned(a) == if Allowed(a[0]) then a else ""
  {
    hide Allowed, Cleaned;
    CleanedNothing();
    if a == "" {
      assert a + b == b;
      assert "" + Cleaned(b) == Cleaned(b);
    } else {
      CleanedJoins(a[1..], b);
      assert (a + b)[1..] == a[1..] + b;
      CleanedFirst(a);
      CleanedFirst(a + b);
      if |a| == 1 { assert a[1..] == "" && a == [a[0]]; }
    }
  }

  lemma CleanedNothing()
    ensures Cleaned("") == ""
  {
  }

  lemma CleanedFirst(s: string)
    requires s != ""
    ensures Cleaned(s) == (if Allowed(s[0]) then [s[0]] else "") + Cleaned(s[1..])
  {
  }

  /** The base is what cleaning leaves of the text before the first at sign, after "user" when that is
      too short, cut to the maximum length. */
  lemma {:induction false} BaseOf(local: string, rest: string)
    requires '@' !in local && (rest == "" || rest[0] == '@')
    ensures var kept := Cleaned(local);
      var full := if |kept| >= 3 then kept else "user" + kept;
      Base(local + rest) <= full && |Base(local + rest)| == if |full| <= 50 then |full| else 50
  {
    LocalPartIs(local, rest);
  }

  lemma {:induction false} LocalPartIs(local: string, rest: string)
    requires '@' !in local && (rest == "" || rest[0] == '@')
    ensures LocalPart(local + rest) == local
  {
    if local == "" {
      assert local + rest == rest;
    } else {
      LocalPartIs(local[1..], rest);
      assert (local + rest)[1..] == local[1..] + rest;
    }
  }

  /** The name tried at the k-th check: the base itself, then the base with 2, 3, ... appended. */
  function Candidate(base: string, k: nat): string
    requires k >= 1
  {
    if k == 1 then base else Cut(base + Decimal(k))
  }

  /** A later candidate is the base followed by its number when both fit, and what fits of them
      otherwise. */
  lemma CandidateReads(base: string, k: nat)
    requires k >= 2 && |base| <= 50
    ensures |Candidate(base, k)| <= 50 && base <= Candidate(base, k)
    ensures |Candidate(base, k)| < 50 ==> ParseDigits(Candidate(base, k)[|base|..]) == Some(k)
    ensures |Candidate(base, k)| == 50 ==>
      exists more :: ParseDigits(Candidate(base, k)[|base|..] + more) == Some(k)
  {
    hide Decimal, ParseDigits;
    DecimalRoundTrip(k);
    CutReads(base, Decimal(k));
  }

  lemma CutReads(base: string, digits: string)
    requires |base| <= 50
    ensures |Cut(base + digits)| <= 50 && base <= Cut(base + digits)
    ensures |Cut(base + digits)| < 50 ==> Cut(base + digits)[|base|..] == digits
    ensures exists more :: Cut(base + digits)[|base|..] + more == digits
  {
    var all := base + digits;
    if |all| <= 50 {
      assert all[|base|..] + [] == digits;
    } else {
      assert all[..50][|base|..] + all[50..] == digits;
    }
  }

  /** One of the first n names is free. */
  predicate FreeWithin(base: string, taken: set<string>, n: nat) {
    exists k :: 1 <= k <= n && Candidate(base, k) !in taken
  }

  /** The name that the loop ends with, if it ends within n checks. */
  function Search(base: string, taken: set<string>, k: nat, n: nat): Option<string>
    requires 1 <= k
    decreases n
  {
    if n == 0 then None
    else if Candidate(base, k) !in taken then Some(Candidate(base, k))
    else Search(base, taken, k + 1, n - 1)
  }

  /** The loop of the sign-up. It needs some name to be free and then takes the first free one. */
  method Generate(email: string, taken: set<string>) returns (name: string, ghost checks: nat)
    requires exists n: nat :: FreeWithin(Base(email), taken, n)
    ensures checks >= 1 && name == Candidate(Base(email), checks) && name !in taken && WellFormed(name)
    ensures forall j :: 1 <= j < checks ==> Candidate(Base(email), j) in taken
    ensures |Base(email)| + |Decimal(|taken| + 1)| <= MAX_LENGTH ==> checks <= |taken| + 1
  {
    hide Decimal, WellFormed, Cut;
    var base := Base(email);
    ghost var n: nat :| FreeWithin(base, taken, n);
    ghost var free :| 1 <= free <= n && Candidate(base, free) !in taken;
    var suffix: nat := 1;
    name := base;
    while name in taken
      invariant 1 <= suffix <= free && name == Candidate(base, suffix)
      invariant forall j :: 1 <= j < suffix ==> Candidate(base, j) in taken
      decreases free - suffix
    {
      suffix := suffix + 1;
      name := Cut(base + Decimal(suffix));
    }
    checks := suffix;
    CandidateWellFormed(base, suffix);
    if |base| + |Decimal(|taken| + 1)| <= MAX_LENGTH { EndsWithinUsers(base, taken); }
  }

  lemma CandidateWellFormed(base: string, k: nat)
    requires WellFormed(base) && k >= 1
    ensures WellFormed(Candidate(base, k))
  {
    DecimalDigits(k);
  }

  // ----- enough room for the suffix: the loop is short

  lemma DecimalInjective(a: nat, b: nat)
    requires Decimal(a) == Decimal(b)
    ensures a == b
  {
    DecimalRoundTrip(a);
    DecimalRoundTrip(b);
  }

  lemma CandidatesDiffer(base: string, i: nat, j: nat)
    requires 1 <= i < j && |base| + |Decimal(j)| <= MAX_LENGTH
    ensures Candidate(base, i) != Candidate(base, j)
  {
    LengthMonotone(i, j);
    if i > 1 && Candidate(base, i) == Candidate(base, j) {
      assert (base + Decimal(i))[|base|..] == Decimal(i);
      assert (base + Decimal(j))[|base|..] == Decimal(j);
      DecimalInjective(i, j);
    }
  }

  lemma {:induction false} SubsetSize(a: set<string>, b: set<string>)
    requires a <= b
    ensures |a| <= |b|
  {
    if x :| x in a {
      SubsetSize(a - {x}, b - {x});
    }
  }

  function Candidates(base: string, n: nat): set<string> {
    set k: nat | 1 <= k <= n :: Candidate(base, k)
  }

  lemma {:induction false} CandidatesCount(base: string, n: nat)
    requires |base| + |Decimal(n)| <= MAX_LENGTH
    ensures |Candidates(base, n)| == n
  {
    if n > 0 {
      LengthMonotone(n - 1, n);
      CandidatesCount(base, n - 1);
      forall k | 1 <= k < n ensures Candidate(base, k) != Candidate(base, n) { CandidatesDiffer(base, k, n); }
      assert Candidates(base, n) == Candidates(base, n - 1) + {Candidate(base, n)};
      assert Candidate(base, n) !in Candidates(base, n - 1);
    } else {
      assert Candidates(base, 0) == {};
    }
  }

  /** With room for the digits of one more than the number of users, one of the first names that
      many is free: the loop body runs at most once per user. */
  lemma EndsWithinUsers(base: string, taken: set<string>)
    requires |base| + |Decimal(|taken| + 1)| <= MAX_LENGTH
    ensures FreeWithin(base, taken, |taken| + 1)
  {
    var n := |taken| + 1;
    if !FreeWithin(base, taken, n) {
      assert Candidates(base, n) <= taken;
      CandidatesCount(base, n);
      SubsetSize(Candidates(base, n), taken);
      assert false;
    }
  }

  // ----- in general: truncated candidates repeat

  /** Dropping the last digit of a suffix that does not fit does not change the candidate. */
  lemma LastDigitLost(base: string, k: nat)
    requires k >= 20 && |base| + |Decimal(k / 10)| >= MAX_LENGTH && |base| <= MAX_LENGTH
    ensures Candidate(base, k) == Candidate(base, k / 10)
  {
  }

  /** Every candidate is one of the first 10^w, where w is the room left for digits. */
  lemma {:induction false} CandidatesRepeat(base: string, k: nat) returns (j: nat)
    requires |base| <= MAX_LENGTH && k >= 1
    ensures 1 <= j <= Power10(MAX_LENGTH - |base|) && Candidate(base, j) == Candidate(base, k)
  {
    var w := MAX_LENGTH - |base|;
    if k <= Power10(w) {
      j := k;
    } else if w == 0 {
      j := 1;
      assert (base + Decimal(k))[..MAX_LENGTH] == base;
    } else if k < 20 {
      PowerBounds(w);
      TeensRepeat(base, k);
      TeensRepeat(base, 10);
      j := 10;
    } else {
      DigitsBelowPower(k, w);
      assert |Decimal(k / 10)| >= w;
      LastDigitLost(base, k);
      j := CandidatesRepeat(base, k / 10);
    }
  }

  /** With room for one digit the suffixes 10 to 19 all become 1. */
  lemma TeensRepeat(base: string, k: nat)
    requires |base| == MAX_LENGTH - 1 && 10 <= k < 20
    ensures Candidate(base, k) == base + Decimal(1)
  {
  }

  lemma PowerBounds(w: nat)
    requires w >= 1
    ensures Power10(w) >= 10
    ensures w >= 2 ==> Power10(w) >= 100
  {
  }

  lemma {:induction false} SearchFinds(base: string, taken: set<string>, k: nat, n: nat)
    requires 1 <= k
    ensures Search(base, taken, k, n).Some? <==> exists j :: k <= j < k + n && Candidate(base, j) !in taken
    decreases n
  {
    if n > 0 && Candidate(base, k) in taken { SearchFinds(base, taken, k + 1, n - 1); }
  }

  /** Exactly when the loop ends: some name among the first 10^w is free, where w is the number of
      characters between the base and the maximum length. */
  lemma LoopEndsIff(base: string, taken: set<string>)
    requires WellFormed(base)
    ensures (exists n: nat :: Search(base, taken, 1, n).Some?) <==>
            FreeWithin(base, taken, Power10(MAX_LENGTH - |base|))
  {
    var m := Power10(MAX_LENGTH - |base|);
    if FreeWithin(base, taken, m) {
      SearchFinds(base, taken, 1, m);
      assert Search(base, taken, 1, m).Some?;
    }
    if n: nat :| Search(base, taken, 1, n).Some? {
      SearchFinds(base, taken, 1, n);
      var k :| 1 <= k < 1 + n && Candidate(base, k) !in taken;
      var j := CandidatesRepeat(base, k);
    }
  }

  /** A base of the maximum length leaves no room: the loop ends only if the base itself is free. */
  lemma FullBaseEndsIff(base: string, taken: set<string>)
    requires WellFormed(base) && |base| == MAX_LENGTH
    ensures (exists n: nat :: Search(base, taken, 1, n).Some?) <==> base !in taken
  {
    LoopEndsIff(base, taken);
    if FreeWithin(base, taken, 1) {
      var k :| 1 <= k <= 1 && Candidate(base, k) !in taken;
    }
    if base !in taken { assert Candidate(base, 1) !in taken; }
  }
}
