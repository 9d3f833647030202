/** The in-process login limiter: two sliding windows and an exponential backoff
    (src/auth/ratelimit.py `MemoryLoginRateLimiter`, and its use by the login route in src/api/routes.py). */
module LoginRateLimit {

  datatype Attempt = Attempt(account: string, ip: string, at: real, ok: bool)

  /** Attempts are counted per account and per client address. */
  datatype Dimension = ByAccount | ByIp

  function KeyOf(d: Dimension, a: Attempt): string {
    match d
    case ByAccount => a.account
    case ByIp => a.ip
  }

  /** All recorded times of one key, oldest first. */
  function Times(log: seq<Attempt>, d: Dimension, k: string): seq<real> {
    if log == [] then []
    else
      var n := |log| - 1;
      Times(log[..n], d, k) + if KeyOf(d, log[n]) == k then [log[n].at] else []
  }

  ghost predicate Sorted(ts: seq<real>) {
    forall i, j :: 0 <= i < j < |ts| ==> ts[i] <= ts[j]
  }

  // ----- windows -----

  /** What is left of the times after pruning at `now`: a suffix, and everything dropped is older than the window. */
  ghost predicate Kept(d: seq<real>, ts: seq<real>, now: real, window: real) {
    && |d| <= |ts| && d == ts[|ts| - |d|..]
    && forall i :: 0 <= i < |ts| - |d| ==> now - ts[i] > window
  }

  ghost function InWindow(ts: seq<real>, now: real, window: real): nat {
    |set i | 0 <= i < |ts| && now - ts[i] <= window|
  }

  /** Any two times more than `n` apart in the list are more than a window apart on the clock. */
  ghost predicate Spaced(ts: seq<real>, n: nat, window: real) {
    forall i, j :: 0 <= i <= j < |ts| && i + n <= j ==> ts[j] - ts[i] > window
  }

  ghost function Range(lo: nat, hi: nat): (r: set<int>)
    requires lo <= hi
    ensures |r| == hi - lo && forall i :: i in r <==> lo <= i < hi
  {
    if lo == hi then {} else Range(lo, hi - 1) + {hi - 1}
  }

  /** The length of a freshly pruned deque is the number of attempts in the closed window. */
  lemma PrunedLength(d: seq<real>, ts: seq<real>, now: real, window: real)
    requires Kept(d, ts, now, window) && Sorted(ts) && (d != [] ==> now - d[0] <= window)
    ensures |d| == InWindow(ts, now, window)
  {
    var lo := |ts| - |d|;
    forall i | lo <= i < |ts|
      ensures now - ts[i] <= window
    {
      assert d[0] == ts[lo] && (i == lo || ts[lo] <= ts[i]);
    }
    assert (set i | 0 <= i < |ts| && now - ts[i] <= window) == Range(lo, |ts|);
  }

  lemma {:induction false} FirstAtLeast(ts: seq<real>, from: real) returns (lo: nat)
    requires Sorted(ts)
    ensures lo <= |ts| && forall i :: 0 <= i < |ts| ==> (ts[i] >= from <==> lo <= i)
  {
    lo := |ts|;
    while lo > 0 && ts[lo - 1] >= from
      invariant lo <= |ts| && forall i :: lo <= i < |ts| ==> ts[i] >= from
    {
      lo := lo - 1;
    }
  }

  /** Spaced times put at most `n` of them into any closed interval as long as the window. */
  lemma SpacedBoundsEveryInterval(ts: seq<real>, n: nat, window: real, from: real)
    requires Sorted(ts) && Spaced(ts, n, window)
    ensures |set i | 0 <= i < |ts| && from <= ts[i] <= from + window| <= n
  {
    var lo := FirstAtLeast(ts, from);
    var inside := set i | 0 <= i < |ts| && from <= ts[i] <= from + window;
    forall i | i in inside
      ensures lo <= i < lo + n
    {
      assert ts[i] - ts[lo] <= window;
    }
    SubsetSize(inside, Range(lo, lo + n));
  }

  lemma SubsetSize(a: set<int>, b: set<int>)
    requires a <= b
    ensures |a| <= |b|
  {
    assert b == a + (b - a);
  }

  /** One more attempt keeps the spacing when, at some reading before it, fewer than `n` were in the window. */
  lemma AppendKeepsSpaced(ts: seq<real>, n: nat, window: real, checked: real, now: real)
    requires Sorted(ts) && Spaced(ts, n, window) && checked <= now
    requires ts != [] ==> InWindow(ts, checked, window) < n
    requires n >= 1
    ensures Spaced(ts + [now], n, window)
  {
    var inside := set k | 0 <= k < |ts| && checked - ts[k] <= window;
    forall i | 0 <= i < |ts| && i + n <= |ts|
      ensures now - ts[i] > window
    {
      if now - ts[i] <= window {
        assert Range(i, |ts|) <= inside;
        SubsetSize(Range(i, |ts|), inside);
      }
    }
  }

  // ----- consecutive failures and backoff -----

  datatype Settings = Settings(window: real, accountLimit: int, ipLimit: int,
                               maxFailures: int, backoffBase: real, backoffMax: real)

  function Power2(n: nat): nat {
    if n == 0 then 1 else 2 * Power2(n - 1)
  }

  function Min(a: real, b: real): real {
    if a < b then a else b
  }

  /** How long an account is locked after `f` consecutive failures. */
  function Backoff(s: Settings, f: int): real
    requires f >= s.maxFailures
  {
    Min(s.backoffBase * Power2(f - s.maxFailures) as real, s.backoffMax)
  }

  /** Failures of an account since its last success. */
  function Streak(log: seq<Attempt>, account: string): nat {
    if log == [] then 0
    else
      var n := |log| - 1;
      if log[n].account != account then Streak(log[..n], account)
      else if log[n].ok then 0
      else Streak(log[..n], account) + 1
  }

  /** When the account's backoff ends; 0 when there is none. */
  function BackoffEnd(s: Settings, log: seq<Attempt>, account: string): real {
    if log == [] then 0.0
    else
      var n := |log| - 1;
      if log[n].account != account then BackoffEnd(s, log[..n], account)
      else if log[n].ok then 0.0
      else
        var f := Streak(log, account);
        if f >= s.maxFailures then log[n].at + Backoff(s, f) else BackoffEnd(s, log[..n], account)
  }

  /** Every attempt was recorded no earlier than the end of the backoff it found. */
  ghost predicate BackedOff(s: Settings, log: seq<Attempt>) {
    forall j :: 0 <= j < |log| ==> log[j].at >= BackoffEnd(s, log[..j], log[j].account)
  }

  lemma {:induction false} OthersDoNotMatter(s: Settings, log: seq<Attempt>, i: nat, account: string)
    requires i < |log| && log[i].account == account
    requires forall k :: i < k < |log| ==> log[k].account != account
    ensures BackoffEnd(s, log, account) == BackoffEnd(s, log[..i + 1], account)
    decreases |log|
  {
    if i == |log| - 1 {
      assert log[..i + 1] == log;
    } else {
      var shorter := log[..|log| - 1];
      OthersDoNotMatter(s, shorter, i, account);
      assert shorter[..i + 1] == log[..i + 1];
    }
  }

  // ----- the lock in plain terms -----

  /** 1, 2, 4, and so on. */
  ghost predicate Doubling(ps: seq<real>) {
    |ps| > 0 && ps[0] == 1.0 && forall i :: 0 < i < |ps| ==> ps[i] == 2.0 * ps[i - 1]
  }

  lemma {:induction false} PowersDouble(ps: seq<real>, n: nat)
    requires Doubling(ps) && n < |ps|
    ensures Power2(n) as real == ps[n]
  {
    if n > 0 {
      PowersDouble(ps, n - 1);
    }
  }

  /** The account's attempts from `start` on have all failed, the last of them at index `last`; the one before, if
      there is one, succeeded. */
  ghost predicate FailingSince(log: seq<Attempt>, account: string, start: int, last: int) {
    && 0 <= start <= last < |log| && log[last].account == account
    && (forall k :: last < k < |log| ==> log[k].account != account)
    && (forall k :: start <= k < |log| && log[k].account == account ==> !log[k].ok)
    && (start == 0 || (log[start - 1].account == account && log[start - 1].ok))
  }

  ghost function FailuresFrom(log: seq<Attempt>, account: string, start: int): nat {
    |set k | 0 <= start <= k < |log| && log[k].account == account|
  }

  lemma OneMoreFrom(log: seq<Attempt>, account: string, start: nat)
    requires start < |log|
    ensures FailuresFrom(log, account, start)
         == FailuresFrom(log[..|log| - 1], account, start) + if log[|log| - 1].account == account then 1 else 0
  {
    var n := |log| - 1;
    var shorter := log[..n];
    var before := set k | 0 <= start <= k < |shorter| && shorter[k].account == account;
    var mine := set k | 0 <= start <= k < |log| && log[k].account == account;
    if log[n].account == account {
      assert mine == before + {n};
    } else {
      assert mine == before;
    }
  }

  /** The streak is the number of these failures. */
  lemma {:induction false} StreakCounts(log: seq<Attempt>, account: string, start: nat)
    requires start <= |log| && (start == 0 || (log[start - 1].account == account && log[start - 1].ok))
    requires forall k :: start <= k < |log| && log[k].account == account ==> !log[k].ok
    ensures Streak(log, account) == FailuresFrom(log, account, start)
  {
    var mine := set k | 0 <= start <= k < |log| && log[k].account == account;
    if start == |log| {
      assert mine == {};
    } else {
      StreakCounts(log[..|log| - 1], account, start);
      OneMoreFrom(log, account, start);
    }
  }

  /** With fewer failures than the allowance there is no lock. */
  lemma {:induction false} FewFailuresNoLock(s: Settings, log: seq<Attempt>, account: string, start: nat)
    requires start <= |log| && (start == 0 || (log[start - 1].account == account && log[start - 1].ok))
    requires forall k :: start <= k < |log| && log[k].account == account ==> !log[k].ok
    requires FailuresFrom(log, account, start) < s.maxFailures || FailuresFrom(log, account, start) == 0
    ensures BackoffEnd(s, log, account) == 0.0
  {
    StreakCounts(log, account, start);
    if start < |log| {
      OneMoreFrom(log, account, start);
      FewFailuresNoLock(s, log[..|log| - 1], account, start);
    }
  }

  /** How long `f` failures lock an account: the base, doubled for every failure beyond the allowance, and at most the
      cap. */
  ghost predicate LocksFor(s: Settings, f: int, ps: seq<real>, lock: real)
    requires 0 <= f - s.maxFailures < |ps|
  {
    && lock <= s.backoffBase * ps[f - s.maxFailures] && lock <= s.backoffMax
    && (lock == s.backoffBase * ps[f - s.maxFailures] || lock == s.backoffMax)
  }

  /** From the allowance on, the account is locked from its last failure for exactly that long. */
  lemma LockIsPlain(s: Settings, log: seq<Attempt>, account: string, start: int, last: int, ps: seq<real>)
    requires FailingSince(log, account, start, last) && Doubling(ps)
    requires 0 <= FailuresFrom(log, account, start) - s.maxFailures < |ps|
    ensures LocksFor(s, FailuresFrom(log, account, start), ps, BackoffEnd(s, log, account) - log[last].at)
  {
    var f, upTo := FailuresFrom(log, account, start), log[..last + 1];
    StreakCounts(log, account, start);
    SameStreak(log, last, account);
    OthersDoNotMatter(s, log, last, account);
    LastFailureLocks(s, upTo, account);
    PowersDouble(ps, f - s.maxFailures);
  }

  lemma LastFailureLocks(s: Settings, log: seq<Attempt>, account: string)
    requires log != [] && log[|log| - 1].account == account && !log[|log| - 1].ok
    requires Streak(log, account) >= s.maxFailures
    ensures BackoffEnd(s, log, account) == log[|log| - 1].at + Backoff(s, Streak(log, account))
  {
  }

  lemma {:induction false} SameStreak(log: seq<Attempt>, i: nat, account: string)
    requires i < |log| && forall k :: i < k < |log| ==> log[k].account != account
    ensures Streak(log, account) == Streak(log[..i + 1], account)
    decreases |log|
  {
    if i == |log| - 1 {
      assert log[..i + 1] == log;
    } else {
      var shorter := log[..|log| - 1];
      SameStreak(shorter, i, account);
      assert shorter[..i + 1] == log[..i + 1];
    }
  }

  /** After `f` consecutive failures, `f` at least the allowance, the account's next attempt comes at least
      base * 2^(f - allowance) later, or at least the cap. */
  lemma BackoffSeparates(s: Settings, log: seq<Attempt>, start: int, i: nat, j: nat, ps: seq<real>)
    requires BackedOff(s, log) && i < j < |log| && log[i].account == log[j].account
    requires FailingSince(log[..j], log[j].account, start, i) && Doubling(ps)
    requires 0 <= FailuresFrom(log[..j], log[j].account, start) - s.maxFailures < |ps|
    ensures LastsAtLeast(s, FailuresFrom(log[..j], log[j].account, start), ps, log[j].at - log[i].at)
  {
    var before, account := log[..j], log[j].account;
    LockIsPlain(s, before, account, start, i, ps);
    assert log[j].at >= BackoffEnd(s, before, account);
    AtLeastLock(s, FailuresFrom(before, account, start), ps, BackoffEnd(s, before, account) - before[i].at,
                log[j].at - log[i].at);
  }

  /** The gap is at least the base doubled for every failure beyond the allowance, or at least the cap. */
  ghost predicate LastsAtLeast(s: Settings, f: int, ps: seq<real>, gap: real)
    requires 0 <= f - s.maxFailures < |ps|
  {
    gap >= s.backoffBase * ps[f - s.maxFailures] || gap >= s.backoffMax
  }

  lemma AtLeastLock(s: Settings, f: int, ps: seq<real>, lock: real, gap: real)
    requires 0 <= f - s.maxFailures < |ps| && LocksFor(s, f, ps, lock) && gap >= lock
    ensures LastsAtLeast(s, f, ps, gap)
  {
  }

  // ----- decisions -----

  datatype Decision =
    | Allowed
    | InBackoff(retryAfter: real)
    | AccountLimited
    | IpLimited

  function Limit(s: Settings, d: Dimension): int {
    match d
    case ByAccount => s.accountLimit
    case ByIp => s.ipLimit
  }

  /** A key that has attempts at all is full when the closed window holds its limit. */
  ghost predicate Full(s: Settings, log: seq<Attempt>, d: Dimension, k: string, now: real) {
    Times(log, d, k) != [] && InWindow(Times(log, d, k), now, s.window) >= Limit(s, d)
  }

  ghost function DecisionFor(s: Settings, log: seq<Attempt>, account: string, ip: string, now: real): Decision {
    if BackoffEnd(s, log, account) > now then InBackoff(BackoffEnd(s, log, account) - now)
    else if Full(s, log, ByAccount, account, now) then AccountLimited
    else if Full(s, log, ByIp, ip, now) then IpLimited
    else Allowed
  }

  /** How many of the account's attempts lie between two instants. */
  ghost function AccountAttempts(log: seq<Attempt>, account: string, from: real, to: real): nat {
    |set i | 0 <= i < |log| && log[i].account == account && from <= log[i].at <= to|
  }

  /** And of an address's. */
  ghost function IpAttempts(log: seq<Attempt>, ip: string, from: real, to: real): nat {
    |set i | 0 <= i < |log| && log[i].ip == ip && from <= log[i].at <= to|
  }

  /** The attempts of one key, counted in the log. */
  ghost function LogCount(log: seq<Attempt>, d: Dimension, k: string, from: real, to: real): nat {
    if d == ByAccount then AccountAttempts(log, k, from, to) else IpAttempts(log, k, from, to)
  }

  ghost function TimesCount(ts: seq<real>, from: real, to: real): nat {
    |set i | 0 <= i < |ts| && from <= ts[i] <= to|
  }

  lemma TimesCountAppend(ts: seq<real>, t: real, from: real, to: real)
    ensures TimesCount(ts + [t], from, to) == TimesCount(ts, from, to) + if from <= t <= to then 1 else 0
  {
    var ys := ts + [t];
    var before := set i | 0 <= i < |ts| && from <= ts[i] <= to;
    assert (set i | 0 <= i < |ys| && from <= ys[i] <= to) == if from <= t <= to then before + {|ts|} else before;
  }

  lemma AccountAttemptsAppend(log: seq<Attempt>, a: Attempt, k: string, from: real, to: real)
    ensures AccountAttempts(log + [a], k, from, to)
         == AccountAttempts(log, k, from, to) + if a.account == k && from <= a.at <= to then 1 else 0
  {
    var all, n := log + [a], |log|;
    var before := set i | 0 <= i < n && log[i].account == k && from <= log[i].at <= to;
    var after := set i | 0 <= i < |all| && all[i].account == k && from <= all[i].at <= to;
    assert after == before + if a.account == k && from <= a.at <= to then {n} else {};
  }

  lemma IpAttemptsAppend(log: seq<Attempt>, a: Attempt, k: string, from: real, to: real)
    ensures IpAttempts(log + [a], k, from, to)
         == IpAttempts(log, k, from, to) + if a.ip == k && from <= a.at <= to then 1 else 0
  {
    var all, n := log + [a], |log|;
    var before := set i | 0 <= i < n && log[i].ip == k && from <= log[i].at <= to;
    var after := set i | 0 <= i < |all| && all[i].ip == k && from <= all[i].at <= to;
    assert after == before + if a.ip == k && from <= a.at <= to then {n} else {};
  }

  /** The times of a key are its attempts in the log. */
  lemma {:induction false} TimesAreAttempts(log: seq<Attempt>, d: Dimension, k: string, from: real, to: real)
    ensures TimesCount(Times(log, d, k), from, to) == LogCount(log, d, k, from, to)
  {
    var ts := Times(log, d, k);
    var times := set i | 0 <= i < |ts| && from <= ts[i] <= to;
    var accounts := set i | 0 <= i < |log| && log[i].account == k && from <= log[i].at <= to;
    var ips := set i | 0 <= i < |log| && log[i].ip == k && from <= log[i].at <= to;
    if log == [] {
      assert times == {} && accounts == {} && ips == {};
    } else {
      var n := |log| - 1;
      TimesAreAttempts(log[..n], d, k, from, to);
      assert log == log[..n] + [log[n]];
      AccountAttemptsAppend(log[..n], log[n], k, from, to);
      IpAttemptsAppend(log[..n], log[n], k, from, to);
      TimesCountAppend(Times(log[..n], d, k), log[n].at, from, to);
      assert ts == if KeyOf(d, log[n]) == k then Times(log[..n], d, k) + [log[n].at] else Times(log[..n], d, k);
    }
  }

  lemma {:induction false} SomeTimes(log: seq<Attempt>, d: Dimension, k: string)
    ensures Times(log, d, k) != [] <==> exists a :: a in log && KeyOf(d, a) == k
  {
    if log != [] {
      var n := |log| - 1;
      SomeTimes(log[..n], d, k);
      assert log[n] in log;
      if a :| a in log && KeyOf(d, a) == k {
        assert a in log[..n] || a == log[n];
      }
      if a :| a in log[..n] && KeyOf(d, a) == k {
        assert a in log;
      }
    }
  }

  /** The verdict in plain terms. */
  ghost predicate VerdictIsPlain(s: Settings, log: seq<Attempt>, account: string, ip: string, now: real,
                                 decision: Decision) {
    && (decision.AccountLimited? <==>
          && !decision.InBackoff? && (exists a :: a in log && a.account == account)
          && AccountAttempts(log, account, now - s.window, now) >= s.accountLimit)
    && (decision.IpLimited? <==>
          && !decision.InBackoff? && !decision.AccountLimited? && (exists a :: a in log && a.ip == ip)
          && IpAttempts(log, ip, now - s.window, now) >= s.ipLimit)
  }

  /** What the account's failures make of the verdict: below the allowance there is no lock, and from there on it holds
      until that long after the last of them. */
  ghost predicate LockDecides(s: Settings, log: seq<Attempt>, account: string, start: int, last: int, ps: seq<real>,
                              now: real, decision: Decision)
    requires FailingSince(log, account, start, last)
  {
    var f := FailuresFrom(log, account, start);
    if f < s.maxFailures then decision.InBackoff? <==> now < 0.0
    else f - s.maxFailures < |ps| ==>
      exists lock :: LocksFor(s, f, ps, lock)
                     && (decision.InBackoff? <==> now < log[last].at + lock)
                     && (decision.InBackoff? ==> decision.retryAfter == log[last].at + lock - now)
  }

  lemma DecisionIsLocked(s: Settings, log: seq<Attempt>, account: string, ip: string, start: int, last: int,
                         ps: seq<real>, now: real)
    requires FailingSince(log, account, start, last) && Doubling(ps)
    ensures LockDecides(s, log, account, start, last, ps, now, DecisionFor(s, log, account, ip, now))
  {
    var f := FailuresFrom(log, account, start);
    if f < s.maxFailures {
      FewFailuresNoLock(s, log, account, start);
    } else if f - s.maxFailures < |ps| {
      LockIsPlain(s, log, account, start, last, ps);
      var lock := BackoffEnd(s, log, account) - log[last].at;
      assert LocksFor(s, f, ps, lock);
    }
  }

  lemma FullIsPlain(s: Settings, log: seq<Attempt>, d: Dimension, k: string, now: real)
    requires InTime(log, now)
    ensures Full(s, log, d, k, now)
       <==> (exists a :: a in log && KeyOf(d, a) == k) && LogCount(log, d, k, now - s.window, now) >= Limit(s, d)
  {
    var ts := Times(log, d, k);
    TimesAreAttempts(log, d, k, now - s.window, now);
    TimesSorted(log, d, k, now);
    SomeTimes(log, d, k);
    assert (set i | 0 <= i < |ts| && now - ts[i] <= s.window)
        == (set i | 0 <= i < |ts| && now - s.window <= ts[i] <= now);
  }

  lemma DecisionIsPlain(s: Settings, log: seq<Attempt>, account: string, ip: string, now: real)
    requires InTime(log, now)
    ensures VerdictIsPlain(s, log, account, ip, now, DecisionFor(s, log, account, ip, now))
    ensures forall start, last, ps :: FailingSince(log, account, start, last) && Doubling(ps) ==>
              LockDecides(s, log, account, start, last, ps, now, DecisionFor(s, log, account, ip, now))
    ensures (forall a :: a in log ==> a.account != account) ==>
              (DecisionFor(s, log, account, ip, now).InBackoff? <==> now < 0.0)
  {
    FullIsPlain(s, log, ByAccount, account, now);
    FullIsPlain(s, log, ByIp, ip, now);
    forall start, last, ps | FailingSince(log, account, start, last) && Doubling(ps)
      ensures LockDecides(s, log, account, start, last, ps, now, DecisionFor(s, log, account, ip, now))
    {
      DecisionIsLocked(s, log, account, ip, start, last, ps, now);
    }
    if forall a :: a in log ==> a.account != account {
      assert (set k | 0 <= 0 <= k < |log| && log[k].account == account) == {};
      FewFailuresNoLock(s, log, account, 0);
    }
  }

  /** A limit below one still lets the first attempt of a key through. */
  function Allowance(s: Settings, d: Dimension): nat {
    if Limit(s, d) < 1 then 1 else Limit(s, d)
  }

  ghost predicate KeyBounded(s: Settings, log: seq<Attempt>, d: Dimension, k: string) {
    Spaced(Times(log, d, k), Allowance(s, d), s.window)
  }

  ghost predicate RateBounded(s: Settings, log: seq<Attempt>) {
    forall d, k :: KeyBounded(s, log, d, k)
  }

  /** The log in order of time, up to a reading of the clock. */
  ghost predicate InTime(log: seq<Attempt>, latest: real) {
    && (forall i, j :: 0 <= i < j < |log| ==> log[i].at <= log[j].at)
    && (forall i :: 0 <= i < |log| ==> log[i].at <= latest)
  }

  lemma TimesAppend(log: seq<Attempt>, a: Attempt, d: Dimension, k: string)
    ensures Times(log + [a], d, k) == Times(log, d, k) + if KeyOf(d, a) == k then [a.at] else []
  {
    assert (log + [a])[..|log|] == log;
  }

  lemma {:induction false} TimesSorted(log: seq<Attempt>, d: Dimension, k: string, latest: real)
    requires InTime(log, latest)
    ensures Sorted(Times(log, d, k))
    ensures forall i :: 0 <= i < |Times(log, d, k)| ==> Times(log, d, k)[i] <= latest
  {
    if log != [] {
      var n := |log| - 1;
      TimesSorted(log[..n], d, k, log[n].at);
      var ts := Times(log[..n], d, k);
      assert Times(log, d, k) == if KeyOf(d, log[n]) == k then ts + [log[n].at] else ts;
    }
  }

  /** In any run of logins, an account has at most its limit, and an address at most its own, recorded attempts in
      any closed interval as long as the window (a limit below one counts as one). */
  lemma EveryWindowBounded(s: Settings, log: seq<Attempt>, k: string, from: real, latest: real)
    requires InTime(log, latest) && RateBounded(s, log)
    ensures AccountAttempts(log, k, from, from + s.window) <= if s.accountLimit < 1 then 1 else s.accountLimit
    ensures IpAttempts(log, k, from, from + s.window) <= if s.ipLimit < 1 then 1 else s.ipLimit
  {
    KeyWindowBounded(s, log, ByAccount, k, from, latest);
    KeyWindowBounded(s, log, ByIp, k, from, latest);
  }

  lemma KeyWindowBounded(s: Settings, log: seq<Attempt>, d: Dimension, k: string, from: real, latest: real)
    requires InTime(log, latest) && RateBounded(s, log)
    ensures LogCount(log, d, k, from, from + s.window) <= Allowance(s, d)
  {
    assert KeyBounded(s, log, d, k);
    TimesSorted(log, d, k, latest);
    TimesAreAttempts(log, d, k, from, from + s.window);
    SpacedBoundsEveryInterval(Times(log, d, k), Allowance(s, d), s.window, from);
  }

  lemma KeyStaysSpaced(s: Settings, log: seq<Attempt>, checked: real, a: Attempt, latest: real, d: Dimension, k: string)
    requires InTime(log, latest) && checked <= a.at && KeyBounded(s, log, d, k)
    requires !Full(s, log, d, KeyOf(d, a), checked)
    ensures KeyBounded(s, log + [a], d, k)
  {
    TimesSorted(log, d, k, latest);
    TimesAppend(log, a, d, k);
    if KeyOf(d, a) == k {
      AppendKeepsSpaced(Times(log, d, k), Allowance(s, d), s.window, checked, a.at);
    }
  }

  /** An attempt recorded after an allowed check keeps both bounds. */
  lemma AllowedKeepsBounds(s: Settings, log: seq<Attempt>, checked: real, a: Attempt, latest: real)
    requires InTime(log, latest) && latest <= checked <= a.at && RateBounded(s, log) && BackedOff(s, log)
    requires DecisionFor(s, log, a.account, a.ip, checked).Allowed?
    ensures RateBounded(s, log + [a]) && BackedOff(s, log + [a]) && InTime(log + [a], a.at)
  {
    AppendKeepsRate(s, log, checked, a, latest);
    AppendKeepsBackedOff(s, log, a);
  }

  lemma AppendKeepsRate(s: Settings, log: seq<Attempt>, checked: real, a: Attempt, latest: real)
    requires InTime(log, latest) && checked <= a.at && RateBounded(s, log)
    requires forall d :: !Full(s, log, d, KeyOf(d, a), checked)
    ensures RateBounded(s, log + [a])
  {
    forall d, k
      ensures KeyBounded(s, log + [a], d, k)
    {
      assert KeyBounded(s, log, d, k);
      KeyStaysSpaced(s, log, checked, a, latest, d, k);
    }
  }

  lemma AppendKeepsBackedOff(s: Settings, log: seq<Attempt>, a: Attempt)
    requires BackedOff(s, log) && a.at >= BackoffEnd(s, log, a.account)
    ensures BackedOff(s, log + [a])
  {
    var log' := log + [a];
    forall j | 0 <= j < |log'|
      ensures log'[j].at >= BackoffEnd(s, log'[..j], log'[j].account)
    {
      assert log'[..j] == log[..j];
    }
    assert log[..|log|] == log;
  }

  // ----- the limiter -----

  function AccountKey(tenantId: string, userId: string): string {
    tenantId + ":" + userId
  }

  class MemoryLoginRateLimiter {
    const s: Settings
    var accountAttempts: map<string, seq<real>>
    var ipAttempts: map<string, seq<real>>
    var failures: map<string, nat>
    var backoffUntil: map<string, real>

    ghost var log: seq<Attempt>
    ghost var latest: real

    /** Each deque is what its key's history leaves after its last pruning; the counters say what the log says. */
    ghost predicate Valid()
      reads this
    {
      && InTime(log, latest)
      && Tracks(ByAccount, accountAttempts, log, latest, s.window)
      && Tracks(ByIp, ipAttempts, log, latest, s.window)
      && (forall k :: Get(failures, k, 0) == Streak(log, k))
      && (forall k :: Get(backoffUntil, k, 0.0) == BackoffEnd(s, log, k))
    }

    ghost predicate Bounded()
      reads this
    {
      RateBounded(s, log) && BackedOff(s, log)
    }

    constructor (s: Settings, start: real)
      ensures Valid() && Bounded() && this.s == s && log == [] && latest == start
    {
      this.s := s;
      accountAttempts, ipAttempts, failures, backoffUntil := map[], map[], map[], map[];
      log, latest := [], start;
    }

    /** Drops from the left whatever has left the window. */
    static method Prune(d: seq<real>, now: real, window: real, ghost ts: seq<real>, ghost before: real)
      returns (pruned: seq<real>)
      requires Kept(d, ts, before, window) && before <= now
      ensures Kept(pruned, ts, now, window) && (pruned != [] ==> now - pruned[0] <= window)
    {
      pruned := d;
      while pruned != [] && now - pruned[0] > window
        invariant Kept(pruned, ts, now, window)
        decreases |pruned|
      {
        assert pruned[0] == ts[|ts| - |pruned|];
        pruned := pruned[1..];
      }
    }

    /** Looks one key up: prunes its deque and counts what is left. */
    method Count(d: Dimension, k: string, now: real) returns (full: bool)
      requires Valid() && latest <= now
      modifies this`accountAttempts, this`ipAttempts, this`latest
      ensures Valid() && latest == now
      ensures full == Full(s, log, d, k, now)
    {
      var attempts := if d == ByAccount then accountAttempts else ipAttempts;
      ghost var ts, before := Times(log, d, k), latest;
      latest := now;
      TracksLater(ByAccount, accountAttempts, log, before, now, s.window);
      TracksLater(ByIp, ipAttempts, log, before, now, s.window);
      assert TracksKey(d, attempts, log, before, s.window, k);
      if k !in attempts {
        return false;
      }
      TimesSorted(log, d, k, before);
      var pruned := Prune(attempts[k], now, s.window, ts, before);
      PrunedLength(pruned, ts, now, s.window);
      PruneKeepsTracks(d, attempts, log, before, now, s.window, k, pruned);
      if d == ByAccount {
        accountAttempts := accountAttempts[k := pruned];
      } else {
        ipAttempts := ipAttempts[k := pruned];
      }
      full := |pruned| >= Limit(s, d);
    }

    /** The verdict on an attempt; it changes nothing but what is already out of the window. */
    method Check(tenantId: string, userId: string, ip: string, now: real) returns (decision: Decision)
      requires Valid() && latest <= now
      modifies this`accountAttempts, this`ipAttempts, this`latest
      ensures Valid() && latest == now
      ensures decision == DecisionFor(s, log, tenantId + ":" + userId, ip, now)
      ensures VerdictIsPlain(s, log, tenantId + ":" + userId, ip, now, decision)
      ensures forall start, last, ps :: FailingSince(log, tenantId + ":" + userId, start, last) && Doubling(ps) ==>
                LockDecides(s, log, tenantId + ":" + userId, start, last, ps, now, decision)
      ensures (forall a :: a in log ==> a.account != tenantId + ":" + userId) ==>
                (decision.InBackoff? <==> now < 0.0)
    {
      decision := Decide(AccountKey(tenantId, userId), ip, now);
      DecisionIsPlain(s, log, AccountKey(tenantId, userId), ip, now);
    }

    method Decide(account: string, ip: string, now: real) returns (decision: Decision)
      requires Valid() && latest <= now
      modifies this`accountAttempts, this`ipAttempts, this`latest
      ensures Valid() && latest == now
      ensures decision == DecisionFor(s, log, account, ip, now)
    {
      var until := Get(backoffUntil, account, 0.0);
      if until > now {
        TracksLater(ByAccount, accountAttempts, log, latest, now, s.window);
        TracksLater(ByIp, ipAttempts, log, latest, now, s.window);
        latest := now;
        return InBackoff(until - now);
      }
      var full := Count(ByAccount, account, now);
      if full {
        return AccountLimited;
      }
      full := Count(ByIp, ip, now);
      if full {
        return IpLimited;
      }
      decision := Allowed;
    }

    /** Records an attempt, a success clearing the failures and a failure extending the backoff. */
    method Record(tenantId: string, userId: string, ip: string, ok: bool, now: real)
      requires Valid() && latest <= now
      modifies this
      ensures Valid() && latest == now
      ensures log == old(log) + [Attempt(tenantId + ":" + userId, ip, now, ok)]
    {
      var a := Attempt(AccountKey(tenantId, userId), ip, now, ok);
      accountAttempts := Append(ByAccount, accountAttempts, a);
      ipAttempts := Append(ByIp, ipAttempts, a);
      RecordOutcome(a);
      log, latest := log + [a], now;
    }

    method RecordOutcome(a: Attempt)
      requires forall k :: Get(failures, k, 0) == Streak(log, k)
      requires forall k :: Get(backoffUntil, k, 0.0) == BackoffEnd(s, log, k)
      modifies this`failures, this`backoffUntil
      ensures forall k :: Get(failures, k, 0) == Streak(log + [a], k)
      ensures forall k :: Get(backoffUntil, k, 0.0) == BackoffEnd(s, log + [a], k)
    {
      assert (log + [a])[..|log|] == log;
      if a.ok {
        failures := failures[a.account := 0];
        backoffUntil := backoffUntil - {a.account};
      } else {
        var fails := Get(failures, a.account, 0) + 1;
        failures := failures[a.account := fails];
        if fails >= s.maxFailures {
          backoffUntil := backoffUntil[a.account := a.at + Backoff(s, fails)];
        }
      }
    }

    method Append(d: Dimension, m: map<string, seq<real>>, a: Attempt) returns (m': map<string, seq<real>>)
      requires InTime(log, latest) && Tracks(d, m, log, latest, s.window) && latest <= a.at
      ensures Tracks(d, m', log + [a], a.at, s.window)
    {
      var k := KeyOf(d, a);
      assert TracksKey(d, m, log, latest, s.window, k);
      var pruned := Prune(Get(m, k, []), a.at, s.window, Times(log, d, k), latest);
      m' := m[k := pruned + [a.at]];
      AppendKeepsTracks(d, m, log, latest, s.window, a, pruned);
    }

    /** The login route: a check, then, if allowed, the credentials and a record, each with its own reading of
        the clock. Only recorded attempts move the log, and they keep both bounds. */
    method Login(tenantId: string, userId: string, ip: string, ok: bool, checked: real, recorded: real)
      returns (decision: Decision)
      requires Valid() && Bounded() && latest <= checked <= recorded
      modifies this
      ensures Valid() && Bounded() && latest <= recorded
      ensures decision == DecisionFor(s, old(log), tenantId + ":" + userId, ip, checked)
      ensures log ==
              old(log) + if decision.Allowed? then [Attempt(tenantId + ":" + userId, ip, recorded, ok)] else []
    {
      ghost var before := latest;
      decision := Check(tenantId, userId, ip, checked);
      if decision.Allowed? {
        AllowedKeepsBounds(s, log, checked, Attempt(AccountKey(tenantId, userId), ip, recorded, ok), before);
        Record(tenantId, userId, ip, ok, recorded);
      }
    }
  }

  /** `dict.get(key, default)` */
  function Get<T>(m: map<string, T>, k: string, default: T): T {
    if k in m then m[k] else default
  }

  lemma PruneKeepsTracks(d: Dimension, m: map<string, seq<real>>, log: seq<Attempt>, latest: real, now: real,
                         window: real, k: string, pruned: seq<real>)
    requires Tracks(d, m, log, latest, window) && latest <= now && k in m && Kept(pruned, Times(log, d, k), now, window)
    ensures Tracks(d, m[k := pruned], log, now, window)
  {
    var m' := m[k := pruned];
    forall j: string
      ensures TracksKey(d, m', log, now, window, j)
    {
      KeyTracksLater(d, m, log, latest, now, window, j);
    }
  }

  lemma KeyTracksLater(d: Dimension, m: map<string, seq<real>>, log: seq<Attempt>, latest: real, now: real,
                       window: real, k: string)
    requires Tracks(d, m, log, latest, window) && latest <= now
    ensures TracksKey(d, m, log, now, window, k)
  {
    assert TracksKey(d, m, log, latest, window, k);
  }

  lemma TracksLater(d: Dimension, m: map<string, seq<real>>, log: seq<Attempt>, latest: real, now: real, window: real)
    requires Tracks(d, m, log, latest, window) && latest <= now
    ensures Tracks(d, m, log, now, window)
  {
    forall j: string
      ensures TracksKey(d, m, log, now, window, j)
    {
      KeyTracksLater(d, m, log, latest, now, window, j);
    }
  }

  lemma AppendKeepsTracks(d: Dimension, m: map<string, seq<real>>, log: seq<Attempt>, latest: real, window: real,
                          a: Attempt, pruned: seq<real>)
    requires Tracks(d, m, log, latest, window) && latest <= a.at
    requires Kept(pruned, Times(log, d, KeyOf(d, a)), a.at, window)
    ensures Tracks(d, m[KeyOf(d, a) := pruned + [a.at]], log + [a], a.at, window)
  {
    var m', log' := m[KeyOf(d, a) := pruned + [a.at]], log + [a];
    forall j: string
      ensures TracksKey(d, m', log', a.at, window, j)
    {
      AppendKeepsKey(d, m, log, latest, window, a, pruned, j);
    }
  }

  lemma AppendKeepsKey(d: Dimension, m: map<string, seq<real>>, log: seq<Attempt>, latest: real, window: real,
                       a: Attempt, pruned: seq<real>, j: string)
    requires Tracks(d, m, log, latest, window) && latest <= a.at
    requires Kept(pruned, Times(log, d, KeyOf(d, a)), a.at, window)
    ensures TracksKey(d, m[KeyOf(d, a) := pruned + [a.at]], log + [a], a.at, window, j)
  {
    TimesAppend(log, a, d, j);
    if j == KeyOf(d, a) {
      KeptAppend(pruned, Times(log, d, j), a.at, window);
    } else {
      KeyTracksLater(d, m, log, latest, a.at, window, j);
    }
  }

  lemma KeptAppend(d: seq<real>, ts: seq<real>, now: real, window: real)
    requires Kept(d, ts, now, window)
    ensures Kept(d + [now], ts + [now], now, window)
  {
  }

  ghost predicate TracksKey(d: Dimension, m: map<string, seq<real>>, log: seq<Attempt>, latest: real, window: real,
                            k: string) {
    (k in m <==> Times(log, d, k) != []) && (k in m ==> Kept(m[k], Times(log, d, k), latest, window))
  }

  ghost predicate Tracks(d: Dimension, m: map<string, seq<real>>, log: seq<Attempt>, latest: real, window: real) {
    forall k :: TracksKey(d, m, log, latest, window, k)
  }
}
