/** The failure circuit breaker and the bounded retry loop of the supervisor. */
module Circuit {
  datatype BreakerState = Healthy | CircuitOpen | RepeatedFailure | Blocked | IntegrityFailure | ScopeViolation

  /** How one attempt ended; some failures end the task at once. */
  datatype Attempt = Passed | Failed(fingerprint: string) | Fatal(fingerprint: string, verdict: BreakerState)

  datatype Final = VerifiedPass | Ended(state: BreakerState) | NeverTried

  class FailureCircuitBreaker {
    const threshold: nat
    const maximumRetries: nat
    var failureCounts: map<string, nat>
    var retriesAfterCircuit: nat
    var state: BreakerState

    constructor (threshold: nat, maximumRetries: nat)
      requires threshold >= 2
      ensures this.threshold == threshold && this.maximumRetries == maximumRetries
      ensures failureCounts == map[] && retriesAfterCircuit == 0 && state == Healthy
    {
      this.threshold, this.maximumRetries := threshold, maximumRetries;
      failureCounts, retriesAfterCircuit, state := map[], 0, Healthy;
    }

    function Count(fingerprint: string): nat
      reads this
    {
      if fingerprint in failureCounts then failureCounts[fingerprint] else 0
    }

    method RecordFailure(fingerprint: string)
      modifies this`failureCounts, this`state
      ensures failureCounts == old(failureCounts)[fingerprint := old(Count(fingerprint)) + 1]
      ensures state == if old(Count(fingerprint)) + 1 >= threshold then CircuitOpen else old(state)
    {
      var count := (if fingerprint in failureCounts then failureCounts[fingerprint] else 0) + 1;
      failureCounts := failureCounts[fingerprint := count];
      if count >= threshold { state := CircuitOpen; }
    }

    /** Only an open circuit asks, and only so many times. */
    method AuthorizeRetry() returns (ok: bool)
      modifies this`retriesAfterCircuit, this`state
      ensures ok <==> old(state).CircuitOpen? && old(retriesAfterCircuit) < maximumRetries
      ensures retriesAfterCircuit == old(retriesAfterCircuit) + (if ok then 1 else 0)
      ensures state == if ok then RepeatedFailure else if old(state).CircuitOpen? then Blocked else old(state)
    {
      if !state.CircuitOpen? { return false; }
      if retriesAfterCircuit >= maximumRetries {
        state := Blocked;
        return false;
      }
      retriesAfterCircuit := retriesAfterCircuit + 1;
      state := RepeatedFailure;
      ok := true;
    }
  }

  // ----- counting failures -----

  function Occurrences(fs: seq<string>, f: string): nat {
    if fs == [] then 0 else Occurrences(fs[..|fs| - 1], f) + (if fs[|fs| - 1] == f then 1 else 0)
  }

  /** How many of the failures opened the circuit: those that had occurred often enough by then. */
  function Opens(fs: seq<string>, threshold: nat): nat {
    if fs == [] then 0
    else Opens(fs[..|fs| - 1], threshold) + (if Occurrences(fs, fs[|fs| - 1]) >= threshold then 1 else 0)
  }

  function Distinct(fs: seq<string>): set<string> { set f | f in fs }

  /** The failures within a set of fingerprints that did not open the circuit. */
  function QuietIn(fs: seq<string>, threshold: nat, s: set<string>): nat {
    if fs == [] then 0
    else
      var f := fs[|fs| - 1];
      QuietIn(fs[..|fs| - 1], threshold, s) + (if f in s && Occurrences(fs, f) < threshold then 1 else 0)
  }

  lemma {:induction false} QuietOne(fs: seq<string>, threshold: nat, f: string)
    requires threshold >= 1
    ensures QuietIn(fs, threshold, {f}) <= threshold - 1 && QuietIn(fs, threshold, {f}) <= Occurrences(fs, f)
  {
    if fs != [] { QuietOne(fs[..|fs| - 1], threshold, f); }
  }

  lemma {:induction false} QuietSplits(fs: seq<string>, threshold: nat, s: set<string>, f: string)
    requires f in s
    ensures QuietIn(fs, threshold, s) == QuietIn(fs, threshold, s - {f}) + QuietIn(fs, threshold, {f})
  {
    if fs != [] { QuietSplits(fs[..|fs| - 1], threshold, s, f); }
  }

  /** Pigeonhole: each fingerprint is quiet fewer times than the threshold. */
  lemma {:induction false} QuietBound(fs: seq<string>, threshold: nat, s: set<string>)
    requires threshold >= 1
    ensures QuietIn(fs, threshold, s) <= |s| * (threshold - 1)
    decreases |s|
  {
    if s == {} {
      QuietNone(fs, threshold);
    } else {
      var f :| f in s;
      QuietSplits(fs, threshold, s, f);
      QuietOne(fs, threshold, f);
      QuietBound(fs, threshold, s - {f});
      Distribute(|s - {f}|, threshold - 1);
    }
  }

  lemma {:induction false} QuietNone(fs: seq<string>, threshold: nat)
    ensures QuietIn(fs, threshold, {}) == 0
  {
    if fs != [] { QuietNone(fs[..|fs| - 1], threshold); }
  }

  lemma Distribute(n: nat, m: nat)
    ensures (n + 1) * m == n * m + m
  {
  }

  /** Every failure opens the circuit or is quiet. */
  lemma {:induction false} OpensOrQuiet(fs: seq<string>, threshold: nat, s: set<string>)
    requires forall f | f in fs :: f in s
    ensures |fs| == Opens(fs, threshold) + QuietIn(fs, threshold, s)
  {
    if fs != [] {
      assert forall f | f in fs[..|fs| - 1] :: f in fs;
      OpensOrQuiet(fs[..|fs| - 1], threshold, s);
      assert fs[|fs| - 1] in fs;
    }
  }

  /** So a run of failures that opens the circuit `n` times has at most this length. */
  lemma LengthBound(fs: seq<string>, threshold: nat)
    requires threshold >= 1
    ensures |fs| <= |Distinct(fs)| * (threshold - 1) + Opens(fs, threshold)
  {
    OpensOrQuiet(fs, threshold, Distinct(fs));
    QuietBound(fs, threshold, Distinct(fs));
  }

  // ----- the loop -----

  /** The fingerprints of the failures among some attempts. */
  function Fingerprints(attempts: seq<Attempt>): seq<string> {
    if attempts == [] then []
    else
      var last := attempts[|attempts| - 1];
      Fingerprints(attempts[..|attempts| - 1]) + (if last.Passed? then [] else [last.fingerprint])
  }

  /** After these attempts the loop goes on: all of them failed, and every open circuit was excused. */
  predicate GoesOn(attempts: seq<Attempt>, threshold: nat, retries: nat) {
    && (forall a | a in attempts :: a.Failed?)
    && Opens(Fingerprints(attempts), threshold) <= retries
  }

  /** The attempts that are made: the loop stops at the first after which it does not go on. */
  ghost predicate Makes(attempts: seq<Attempt>, maximum: nat, threshold: nat, retries: nat, n: nat) {
    && n <= maximum <= |attempts|
    && (forall i | 0 <= i < n :: GoesOn(attempts[..i], threshold, retries))
    && (n < maximum ==> n > 0 && !GoesOn(attempts[..n], threshold, retries))
  }

  lemma FingerprintsNext(attempts: seq<Attempt>, i: nat)
    requires i < |attempts|
    ensures Fingerprints(attempts[..i + 1])
            == Fingerprints(attempts[..i]) + (if attempts[i].Passed? then [] else [attempts[i].fingerprint])
  {
    assert attempts[..i + 1][..i] == attempts[..i];
  }

  lemma {:induction false} AllFailed(attempts: seq<Attempt>)
    requires forall a | a in attempts :: !a.Passed?
    ensures |Fingerprints(attempts)| == |attempts|
  {
    if attempts != [] {
      assert forall a | a in attempts[..|attempts| - 1] :: a in attempts;
      AllFailed(attempts[..|attempts| - 1]);
      assert attempts[|attempts| - 1] in attempts;
    }
  }

  /**
   * The supervisor's loop over a fixed series of attempts. It passes with the first success,
   * stops at a fatal failure or a refused retry, and otherwise uses up its iterations.
   */
  method RunTaskBounded(attempts: seq<Attempt>, maximumIterations: nat, threshold: nat, retries: nat)
    returns (made: nat, final: Final, fingerprints: seq<string>)
    requires threshold >= 2 && |attempts| >= maximumIterations
    requires forall a | a in attempts && a.Fatal? :: a.verdict in {IntegrityFailure, ScopeViolation}
    ensures Makes(attempts, maximumIterations, threshold, retries, made)
    ensures fingerprints == Fingerprints(attempts[..made])
    ensures made == 0 <==> final.NeverTried?
    ensures made > 0 ==>
              (final.VerifiedPass? <==> attempts[made - 1].Passed?)
              && (attempts[made - 1].Fatal? ==> final == Ended(attempts[made - 1].verdict))
              && (attempts[made - 1].Failed? ==>
                    (final == Ended(Blocked) <==> Opens(fingerprints, threshold) > retries))
  {
    hide Occurrences, Opens, Fingerprints, GoesOn;
    LoopStart(attempts, threshold, retries);
    var breaker := new FailureCircuitBreaker(threshold, retries);
    made, final, fingerprints := 0, NeverTried, [];
    while made < maximumIterations
      invariant made <= maximumIterations && fresh(breaker)
      invariant breaker.threshold == threshold && breaker.maximumRetries == retries
      invariant fingerprints == Fingerprints(attempts[..made])
      invariant forall f :: breaker.Count(f) == Occurrences(fingerprints, f)
      invariant breaker.retriesAfterCircuit == Opens(fingerprints, threshold) <= retries
      invariant breaker.state in {Healthy, RepeatedFailure}
      invariant forall i | 0 <= i <= made :: GoesOn(attempts[..i], threshold, retries)
      invariant made == 0 <==> final.NeverTried?
      invariant made > 0 ==> attempts[made - 1].Failed? && final.Ended? && final.state in {Healthy, RepeatedFailure}
    {
      var attempt := attempts[made];
      FingerprintsNext(attempts, made);
      GoesOnNext(attempts, made, threshold, retries);
      assert attempt in attempts;
      made := made + 1;
      if attempt.Passed? {
        assert fingerprints + [] == fingerprints;
        final := VerifiedPass;
        return;
      }
      OccurrencesNext(fingerprints, attempt.fingerprint, threshold);
      fingerprints := fingerprints + [attempt.fingerprint];
      breaker.RecordFailure(attempt.fingerprint);
      if attempt.Fatal? {
        breaker.state := attempt.verdict;
        final := Ended(attempt.verdict);
        return;
      }
      if breaker.state.CircuitOpen? {
        var ok := breaker.AuthorizeRetry();
        if !ok {
          final := Ended(breaker.state);
          return;
        }
      }
      final := Ended(breaker.state);
    }
  }

  lemma LoopStart(attempts: seq<Attempt>, threshold: nat, retries: nat)
    ensures Fingerprints(attempts[..0]) == [] && GoesOn(attempts[..0], threshold, retries)
    ensures Opens([], threshold) == 0 && forall f :: Occurrences([], f) == 0
  {
  }

  lemma OccurrencesNext(fs: seq<string>, f: string, threshold: nat)
    ensures forall g :: Occurrences(fs + [f], g) == Occurrences(fs, g) + (if g == f then 1 else 0)
    ensures Opens(fs + [f], threshold) == Opens(fs, threshold) + (if Occurrences(fs, f) + 1 >= threshold then 1 else 0)
  {
    assert (fs + [f])[..|fs|] == fs;
  }

  lemma GoesOnNext(attempts: seq<Attempt>, i: nat, threshold: nat, retries: nat)
    requires i < |attempts| && GoesOn(attempts[..i], threshold, retries)
    ensures GoesOn(attempts[..i + 1], threshold, retries)
            <==> attempts[i].Failed? && Opens(Fingerprints(attempts[..i + 1]), threshold) <= retries
  {
    assert attempts[..i + 1] == attempts[..i] + [attempts[i]];
  }

  // ----- how many attempts -----

  /** A series of attempts determines how many are made. */
  lemma MakesUnique(attempts: seq<Attempt>, maximum: nat, threshold: nat, retries: nat, m: nat, n: nat)
    requires Makes(attempts, maximum, threshold, retries, m) && Makes(attempts, maximum, threshold, retries, n)
    ensures m == n
  {
  }

  /**
   * With k distinct failures, threshold t and R permitted retries, a task makes at most
   * k·(t−1)+R+1 attempts, and never more than its maximum.
   */
  lemma AttemptBound(attempts: seq<Attempt>, maximum: nat, threshold: nat, retries: nat, n: nat)
    requires threshold >= 2 && Makes(attempts, maximum, threshold, retries, n)
    ensures n <= maximum
    ensures n <= |Distinct(Fingerprints(attempts[..n]))| * (threshold - 1) + retries + 1
  {
    if n > 0 {
      var front := attempts[..n - 1];
      assert GoesOn(front, threshold, retries);
      var fs, all := Fingerprints(front), Fingerprints(attempts[..n]);
      AllFailed(front);
      LengthBound(fs, threshold);
      FingerprintsNext(attempts, n - 1);
      DistinctGrows(fs, all, threshold);
    }
  }

  lemma DistinctGrows(fs: seq<string>, all: seq<string>, threshold: nat)
    requires fs <= all && threshold >= 1
    ensures |Distinct(fs)| * (threshold - 1) <= |Distinct(all)| * (threshold - 1)
  {
    assert Distinct(fs) <= Distinct(all) by { assert forall f | f in fs :: f in all; }
    Subset(Distinct(fs), Distinct(all));
    Scale(|Distinct(fs)|, |Distinct(all)|, threshold - 1);
  }

  lemma Subset(a: set<string>, b: set<string>)
    requires a <= b
    ensures |a| <= |b|
  {
    assert b == a + (b - a);
  }

  lemma Scale(a: nat, b: nat, m: nat)
    requires a <= b
    ensures a * m <= b * m
  {
  }

  // ----- the bound is attained -----

  function Repeated(f: string, n: nat): seq<string> { if n == 0 then [] else Repeated(f, n - 1) + [f] }

  /** A different name for every number. */
  function Name(k: nat): string { if k == 0 then "" else Name(k - 1) + "x" }

  /** Each of `k` failures as often as it can stay quiet. */
  function Rounds(k: nat, quiet: nat): seq<string> {
    if k == 0 then [] else Rounds(k - 1, quiet) + Repeated(Name(k - 1), quiet)
  }

  lemma {:induction false} NameLength(k: nat)
    ensures |Name(k)| == k
  {
    if k > 0 { NameLength(k - 1); }
  }

  /** More of one failure that stays quiet, or that opens the circuit every time. */
  lemma {:induction false} OpensRepeated(fs: seq<string>, f: string, n: nat, threshold: nat)
    ensures forall g :: Occurrences(fs + Repeated(f, n), g) == Occurrences(fs, g) + (if g == f then n else 0)
    ensures Occurrences(fs, f) + n < threshold ==> Opens(fs + Repeated(f, n), threshold) == Opens(fs, threshold)
    ensures Occurrences(fs, f) + 1 >= threshold ==> Opens(fs + Repeated(f, n), threshold) == Opens(fs, threshold) + n
    ensures |fs + Repeated(f, n)| == |fs| + n
  {
    if n == 0 {
      assert fs + [] == fs;
    } else {
      OpensRepeated(fs, f, n - 1, threshold);
      assert fs + Repeated(f, n) == fs + Repeated(f, n - 1) + [f];
      OccurrencesNext(fs + Repeated(f, n - 1), f, threshold);
    }
  }

  lemma {:induction false} RoundsQuiet(k: nat, threshold: nat)
    requires threshold >= 2
    ensures var fs := Rounds(k, threshold - 1);
      && Opens(fs, threshold) == 0
      && |fs| == k * (threshold - 1)
      && (forall j: nat :: Occurrences(fs, Name(j)) == if j < k then threshold - 1 else 0)
  {
    if k > 0 {
      RoundsQuiet(k - 1, threshold);
      var fs := Rounds(k - 1, threshold - 1);
      OpensRepeated(fs, Name(k - 1), threshold - 1, threshold);
      Distribute(k - 1, threshold - 1);
      forall j: nat ensures Name(j) == Name(k - 1) <==> j == k - 1 {
        NameLength(j);
        NameLength(k - 1);
      }
    }
  }

  function Failures(fs: seq<string>): seq<Attempt> {
    if fs == [] then [] else Failures(fs[..|fs| - 1]) + [Attempt.Failed(fs[|fs| - 1])]
  }

  lemma {:induction false} FailuresFail(fs: seq<string>)
    ensures |Failures(fs)| == |fs| && (forall a | a in Failures(fs) :: a.Failed?)
    ensures Fingerprints(Failures(fs)) == fs
  {
    if fs != [] {
      var front := fs[..|fs| - 1];
      FailuresFail(front);
      assert Failures(fs)[..|front|] == Failures(front);
      assert front + [fs[|fs| - 1]] == fs;
    }
  }

  lemma {:induction false} FailuresPrefix(fs: seq<string>, i: nat)
    requires i <= |fs| && |Failures(fs)| == |fs|
    ensures Failures(fs)[..i] == Failures(fs[..i])
  {
    if i < |fs| {
      var front := fs[..|fs| - 1];
      FailuresFail(front);
      FailuresPrefix(front, i);
      assert front[..i] == fs[..i] && Failures(fs)[..i] == Failures(front)[..i];
    } else {
      assert fs[..i] == fs && Failures(fs)[..i] == Failures(fs);
    }
  }

  /** For all numbers there is a series of attempts that needs every one of them. */
  lemma BoundAttained(k: nat, threshold: nat, retries: nat)
    requires k >= 1 && threshold >= 2
    ensures var n := k * (threshold - 1) + retries + 1;
      exists attempts :: |attempts| == n
        && Makes(attempts, n, threshold, retries, n)
        && |Distinct(Fingerprints(attempts))| == k
        && !GoesOn(attempts, threshold, retries)
  {
    hide Rounds, Repeated, Opens, Occurrences, GoesOn, Failures, Fingerprints, Distinct;
    var rounds := Rounds(k, threshold - 1);
    var fs := rounds + Repeated(Name(0), retries + 1);
    var attempts := Failures(fs);
    RoundsQuiet(k, threshold);
    OpensRepeated(rounds, Name(0), retries + 1, threshold);
    FailuresFail(fs);
    forall i | 0 <= i < |attempts| ensures GoesOn(attempts[..i], threshold, retries) {
      FailuresPrefix(fs, i);
      PrefixGoesOn(k, threshold, retries, i);
    }
    RoundsDistinct(k, threshold, retries);
    assert !GoesOn(attempts, threshold, retries) by { TooManyOpens(attempts, threshold, retries); }
    assert Makes(attempts, |attempts|, threshold, retries, |attempts|);
  }

  lemma TooManyOpens(attempts: seq<Attempt>, threshold: nat, retries: nat)
    requires Opens(Fingerprints(attempts), threshold) > retries
    ensures !GoesOn(attempts, threshold, retries)
  {
  }

  lemma PrefixGoesOn(k: nat, threshold: nat, retries: nat, i: nat)
    requires k >= 1 && threshold >= 2
    requires var fs := Rounds(k, threshold - 1) + Repeated(Name(0), retries + 1);
      i < |fs| && |fs| == k * (threshold - 1) + retries + 1
    ensures var fs := Rounds(k, threshold - 1) + Repeated(Name(0), retries + 1);
      GoesOn(Failures(fs[..i]), threshold, retries)
  {
    var fs := Rounds(k, threshold - 1) + Repeated(Name(0), retries + 1);
    FailuresFail(fs[..i]);
    PrefixOpens(k, threshold, retries, i);
  }

  lemma PrefixOpens(k: nat, threshold: nat, retries: nat, i: nat)
    requires k >= 1 && threshold >= 2
    requires i < k * (threshold - 1) + retries + 1
    ensures |Rounds(k, threshold - 1) + Repeated(Name(0), retries + 1)| == k * (threshold - 1) + retries + 1
    ensures Opens((Rounds(k, threshold - 1) + Repeated(Name(0), retries + 1))[..i], threshold) <= retries
  {
    var rounds := Rounds(k, threshold - 1);
    var fs := rounds + Repeated(Name(0), retries + 1);
    RoundsQuiet(k, threshold);
    OpensRepeated(rounds, Name(0), retries, threshold);
    OpensRepeated(rounds, Name(0), retries + 1, threshold);
    var most := fs[..|fs| - 1];
    assert most == rounds + Repeated(Name(0), retries);
    OpensMonotone(most, i, threshold);
    assert most[..i] == fs[..i];
  }

  lemma {:induction false} OpensMonotone(fs: seq<string>, i: nat, threshold: nat)
    requires i <= |fs|
    ensures Opens(fs[..i], threshold) <= Opens(fs, threshold)
  {
    if i == |fs| {
      assert fs[..i] == fs;
    } else {
      OpensMonotone(fs[..|fs| - 1], i, threshold);
      assert fs[..|fs| - 1][..i] == fs[..i];
    }
  }

  function Names(k: nat): set<string> { if k == 0 then {} else Names(k - 1) + {Name(k - 1)} }

  lemma {:induction false} NamesAre(k: nat)
    ensures |Names(k)| == k && forall s | s in Names(k) :: |s| < k
  {
    if k > 0 {
      NamesAre(k - 1);
      NameLength(k - 1);
    }
  }

  lemma {:induction false} RepeatedIn(f: string, n: nat)
    ensures forall g | g in Repeated(f, n) :: g == f
    ensures n > 0 ==> f in Repeated(f, n)
  {
    if n > 0 { RepeatedIn(f, n - 1); }
  }

  lemma {:induction false} RoundsNames(k: nat, quiet: nat)
    requires quiet >= 1
    ensures Distinct(Rounds(k, quiet)) == Names(k)
  {
    if k > 0 {
      RoundsNames(k - 1, quiet);
      RepeatedIn(Name(k - 1), quiet);
      var a, b := Rounds(k - 1, quiet), Repeated(Name(k - 1), quiet);
      assert forall f :: f in a + b <==> f in a || f in b;
      assert Distinct(b) == {Name(k - 1)};
    }
  }

  lemma RoundsDistinct(k: nat, threshold: nat, retries: nat)
    requires k >= 1 && threshold >= 2
    ensures |Distinct(Rounds(k, threshold - 1) + Repeated(Name(0), retries + 1))| == k
  {
    RoundsNames(k, threshold - 1);
    NamesAre(k);
    RepeatedIn(Name(0), retries + 1);
    FirstName(k);
    var a, b := Rounds(k, threshold - 1), Repeated(Name(0), retries + 1);
    assert forall f :: f in a + b <==> f in a || f in b;
    assert Distinct(a + b) == Names(k);
  }

  lemma {:induction false} FirstName(k: nat)
    requires k >= 1
    ensures Name(0) in Names(k)
  {
    if k > 1 { FirstName(k - 1); }
  }
}
