/** Login lockout: five wrong passwords lock an account for two hours. Requests
    are serial; within one request the clock is read six times.

    Login finds the account whatever tenant the request is for, but counts a
    failure, and clears the count, through an update to which the tenant hook adds
    the request's tenant. */
module Lockout {
  import opened Wrappers

  type TenantId = nat

  const MAX_ATTEMPTS := 5
  const LOCK_TIME := 2 * 60 * 60 * 1000

  datatype Account = Account(tenant: Option<TenantId>, attempts: nat, lockUntil: Option<int>)

  datatype Outcome = StillLocked | WrongPassword | LoggedIn | ServerError

  /** The clock as one login sees it: at the expiry test, the lock test, the
      password comparison, and the three readings of the failure counter. */
  datatype Reads = Reads(expiry: int, locked: int, compared: int, incExpiry: int, incLocked: int, stamp: int) {
    ghost predicate Ordered() { expiry <= locked <= compared <= incExpiry <= incLocked <= stamp }
  }

  /** A login request: the tenant it was resolved to, if any, and its clock. */
  datatype Attempt = Attempt(context: Option<TenantId>, at: Reads)

  predicate LockExpired(a: Account, at: int) {
    a.lockUntil.Some? && a.lockUntil.value < at
  }

  predicate IsLocked(a: Account, at: int) {
    a.lockUntil.Some? && a.lockUntil.value > at
  }

  /** A hooked update made in this context finds the account. */
  predicate Reaches(context: Option<TenantId>, a: Account) {
    context.None? || context == a.tenant
  }

  function Cleared(a: Account): Account {
    a.(attempts := 0, lockUntil := None)
  }

  function Incremented(a: Account, x: Attempt): Account {
    if !Reaches(x.context, a) then a
    else if LockExpired(a, x.at.incExpiry) then a.(attempts := 1, lockUntil := None)
    else
      var locks := a.attempts + 1 >= MAX_ATTEMPTS && !IsLocked(a, x.at.incLocked);
      a.(attempts := a.attempts + 1, lockUntil := if locks then Some(x.at.stamp + LOCK_TIME) else a.lockUntil)
  }

  /** Saving an account without a tenant in some tenant's context first attaches
      that tenant and is then refused for it. */
  predicate SaveFails(a: Account, context: Option<TenantId>) {
    a.tenant.None? && context.Some?
  }

  function Login(a: Account, correct: bool, x: Attempt): (Account, Outcome) {
    if LockExpired(a, x.at.expiry) && SaveFails(a, x.context) then (a, ServerError)
    else if !LockExpired(a, x.at.expiry) && IsLocked(a, x.at.locked) then (a, StillLocked)
    else
      var unlocked := if LockExpired(a, x.at.expiry) then Cleared(a) else a;
      if correct then (if Reaches(x.context, a) then Cleared(unlocked) else unlocked, LoggedIn)
      else (Incremented(unlocked, x), WrongPassword)
  }

  /** Every account a run of logins can reach: unlocked below the limit, or
      locked at it. */
  ghost predicate Valid(a: Account) {
    if a.lockUntil.None? then a.attempts < MAX_ATTEMPTS else a.attempts >= MAX_ATTEMPTS
  }

  lemma LoginKeepsValid(a: Account, correct: bool, x: Attempt)
    requires Valid(a) && x.at.Ordered()
    ensures Valid(Login(a, correct, x).0) && Login(a, correct, x).0.tenant == a.tenant
  {
  }

  /** When a login is refused unseen, and what the others answer. */
  lemma LoginInFields(a: Account, correct: bool, x: Attempt)
    requires x.at.Ordered()
    ensures var outcome := Login(a, correct, x).1;
            && (outcome == StillLocked <==>
                  a.lockUntil.Some? && x.at.expiry <= a.lockUntil.value && x.at.locked < a.lockUntil.value)
            && (outcome == ServerError <==>
                  a.lockUntil.Some? && a.lockUntil.value < x.at.expiry && a.tenant.None? && x.context.Some?)
            && (outcome == LoggedIn ==> correct) && (outcome == WrongPassword ==> !correct)
            && (outcome in {StillLocked, ServerError} ==> Login(a, correct, x).0 == a)
  {
  }

  /** In a context that reaches the account a success clears it, and a failure
      counts one: from one again after a lock that has expired, and locking for two
      hours at the fifth, or anew when a lock runs out between the login's readings.
      In another context only an expired lock goes. */
  lemma LoginCountsInFields(a: Account, correct: bool, x: Attempt)
    requires Valid(a) && x.at.Ordered() && Login(a, correct, x).1 in {LoggedIn, WrongPassword}
    ensures var after := Login(a, correct, x).0;
            var expired := a.lockUntil.Some? && a.lockUntil.value < x.at.expiry;
            && after.tenant == a.tenant
            && (if x.context.Some? && x.context != a.tenant
                then after == if expired then Account(a.tenant, 0, None) else a
                else if correct then after == Account(a.tenant, 0, None)
                else if expired then after == Account(a.tenant, 1, None)
                else if a.lockUntil.None? then
                  after == Account(a.tenant, a.attempts + 1,
                                   if a.attempts + 1 >= 5 then Some(x.at.stamp + 7200000) else None)
                else if a.lockUntil.value < x.at.incExpiry then after == Account(a.tenant, 1, None)
                else after == Account(a.tenant, a.attempts + 1, Some(x.at.stamp + 7200000)))
  {
  }

  // ------------------------------------------------ a run of wrong passwords

  ghost predicate Serial(start: int, run: seq<Attempt>) {
    && (forall i :: 0 <= i < |run| ==> start <= run[i].at.expiry && run[i].at.Ordered())
    && (forall i, j :: 0 <= i < j < |run| ==> run[i].at.stamp <= run[j].at.expiry)
  }

  function After(a: Account, run: seq<Attempt>): Account {
    if run == [] then a else Login(After(a, run[..|run| - 1]), false, run[|run| - 1]).0
  }

  /** The moments at which a password was compared. */
  function Comparisons(a: Account, run: seq<Attempt>): seq<int> {
    if run == [] then []
    else
      var before, last := run[..|run| - 1], run[|run| - 1];
      Comparisons(a, before) +
      if Login(After(a, before), false, last).1 == WrongPassword then [last.at.compared] else []
  }

  predicate Counts(a: Account, x: Attempt) {
    Login(a, false, x).1 == WrongPassword && Reaches(x.context, a)
  }

  /** Those of them whose failure reached the counter. */
  function CountedComparisons(a: Account, run: seq<Attempt>): seq<int> {
    if run == [] then []
    else
      var before, last := run[..|run| - 1], run[|run| - 1];
      CountedComparisons(a, before) +
      if Counts(After(a, before), last) then [last.at.compared] else []
  }

  ghost predicate Sorted(times: seq<int>) {
    forall i, j :: 0 <= i < j < |times| ==> times[i] <= times[j]
  }

  /** Any six comparisons in a row take at least the lock time. */
  ghost predicate Spaced(times: seq<int>) {
    forall i :: 0 <= i && i + MAX_ATTEMPTS < |times| ==> times[i] + LOCK_TIME <= times[i + MAX_ATTEMPTS]
  }

  /** `a.attempts` counts the comparisons since the last lock, and all of them
      came after it ended; a lock in force ends late enough after the last. */
  ghost predicate Tracks(a: Account, times: seq<int>, now: int) {
    var n := |times|;
    match a.lockUntil
    case Some(until) => n > 0 ==> times[n - 1] + LOCK_TIME <= until
    case None =>
      n > a.attempts ==>
        && (forall j :: n - a.attempts <= j < n ==> times[n - a.attempts - 1] + LOCK_TIME <= times[j])
        && (a.attempts == 0 ==> times[n - 1] + LOCK_TIME <= now)
  }

  ghost predicate Upto(times: seq<int>, now: int) {
    forall i :: 0 <= i < |times| ==> times[i] <= now
  }

  lemma AppendKeepsSorted(times: seq<int>, c: int)
    requires Sorted(times) && Upto(times, c)
    ensures Sorted(times + [c]) && Upto(times + [c], c)
  {
  }

  /** The new comparison ends a group of six only if it waited for a lock. */
  lemma AppendKeepsSpaced(times: seq<int>, c: int, since: nat)
    requires Sorted(times) && Spaced(times) && since < MAX_ATTEMPTS
    requires |times| > since ==> times[|times| - since - 1] + LOCK_TIME <= c
    ensures Spaced(times + [c])
  {
  }

  /** A counted failure while unlocked below the limit, or at a lock's end. */
  lemma CountedStepTracks(a: Account, times: seq<int>, x: Attempt)
    requires Valid(a) && x.at.Ordered() && Reaches(x.context, a)
    requires Sorted(times) && Tracks(a, times, x.at.expiry) && Upto(times, x.at.expiry)
    requires Login(a, false, x).1 == WrongPassword
    ensures Tracks(Login(a, false, x).0, times + [x.at.compared], x.at.stamp)
  {
  }

  lemma UncountedStepTracks(a: Account, times: seq<int>, x: Attempt)
    requires Valid(a) && x.at.Ordered() && Tracks(a, times, x.at.expiry)
    requires !Reaches(x.context, a) || Login(a, false, x).1 != WrongPassword
    ensures Tracks(Login(a, false, x).0, times, x.at.stamp)
  {
  }

  ghost predicate TracksRun(a: Account, times: seq<int>, now: int) {
    Valid(a) && Sorted(times) && Spaced(times) && Upto(times, now) && Tracks(a, times, now)
  }

  lemma TracksLater(a: Account, times: seq<int>, now: int, later: int)
    requires TracksRun(a, times, now) && now <= later
    ensures TracksRun(a, times, later)
  {
  }

  lemma AttemptTracks(a: Account, times: seq<int>, x: Attempt)
    requires TracksRun(a, times, x.at.expiry) && x.at.Ordered()
    ensures TracksRun(Login(a, false, x).0, times + if Counts(a, x) then [x.at.compared] else [], x.at.stamp)
  {
    LoginKeepsValid(a, false, x);
    if Counts(a, x) {
      CountedStepTracks(a, times, x);
      AppendKeepsSorted(times, x.at.compared);
      AppendKeepsSpaced(times, x.at.compared, if a.lockUntil.None? then a.attempts else 0);
    } else {
      UncountedStepTracks(a, times, x);
      assert times + [] == times;
    }
  }

  lemma {:induction false} RunIsSpaced(a: Account, start: int, run: seq<Attempt>)
    requires Valid(a) && Serial(start, run)
    ensures After(a, run).tenant == a.tenant
    ensures TracksRun(After(a, run), CountedComparisons(a, run), if run == [] then start else run[|run| - 1].at.stamp)
  {
    if run != [] {
      var before, last := run[..|run| - 1], run[|run| - 1];
      RunIsSpaced(a, start, before);
      var b, times := After(a, before), CountedComparisons(a, before);
      TracksLater(b, times, if before == [] then start else before[|before| - 1].at.stamp, last.at.expiry);
      AttemptTracks(b, times, last);
      LoginKeepsValid(b, false, last);
    }
  }

  // ---------------------------------------------------------- the rate bound

  /** How many of the moments fall in the closed window. */
  function CountIn(times: seq<int>, from: int, to: int): nat {
    if times == [] then 0
    else
      var last := times[|times| - 1];
      CountIn(times[..|times| - 1], from, to) + if from <= last <= to then 1 else 0
  }

  lemma {:induction false} CountedAreContiguous(times: seq<int>, from: int, to: int) returns (i: nat)
    requires Sorted(times) && CountIn(times, from, to) > 0
    ensures var k := CountIn(times, from, to);
            i + k <= |times| && from <= times[i] && times[i + k - 1] <= to
  {
    var before, last := times[..|times| - 1], times[|times| - 1];
    if CountIn(before, from, to) > 0 {
      i := CountedAreContiguous(before, from, to);
    } else {
      i := |times| - 1;
    }
  }

  lemma {:induction false} SpacedFar(times: seq<int>, i: nat, groups: nat)
    requires Spaced(times) && i + MAX_ATTEMPTS * groups < |times|
    ensures times[i] + groups * LOCK_TIME <= times[i + MAX_ATTEMPTS * groups]
  {
    if groups > 0 {
      SpacedFar(times, i, groups - 1);
      assert i + MAX_ATTEMPTS * groups == (i + MAX_ATTEMPTS * (groups - 1)) + MAX_ATTEMPTS;
    }
  }

  lemma SpacedWindow(times: seq<int>, from: int, to: int, groups: nat)
    requires Sorted(times) && Spaced(times) && to - from < groups * LOCK_TIME
    ensures CountIn(times, from, to) <= MAX_ATTEMPTS * groups
  {
    var k := CountIn(times, from, to);
    if k > MAX_ATTEMPTS * groups {
      var i := CountedAreContiguous(times, from, to);
      SpacedFar(times, i, groups);
    }
  }

  lemma GroupsCover(w: nat)
    ensures w < (w / LOCK_TIME + 1) * LOCK_TIME
  {
  }

  ghost predicate WithinRate(times: seq<int>) {
    forall from, to :: from <= to ==> CountIn(times, from, to) <= 5 * ((to - from) / 7200000 + 1)
  }

  lemma SpacedIsWithinRate(times: seq<int>)
    requires Sorted(times) && Spaced(times)
    ensures WithinRate(times)
  {
    forall from, to | from <= to ensures CountIn(times, from, to) <= MAX_ATTEMPTS * ((to - from) / LOCK_TIME + 1) {
      GroupsCover(to - from);
      SpacedWindow(times, from, to, (to - from) / LOCK_TIME + 1);
    }
  }

  /** In any serial run of wrong passwords, whatever tenants the requests are for,
      every window of length w sees at most 5 * (w / 2h + 1) comparisons whose
      failure reached the counter; so of all comparisons, when every request's
      context reaches the account. */
  lemma LockoutRateBound(a: Account, start: int, run: seq<Attempt>)
    requires Valid(a) && Serial(start, run)
    ensures WithinRate(CountedComparisons(a, run))
    ensures (forall x :: x in run ==> Reaches(x.context, a)) ==> WithinRate(Comparisons(a, run))
  {
    RunIsSpaced(a, start, run);
    SpacedIsWithinRate(CountedComparisons(a, run));
    if forall x :: x in run ==> Reaches(x.context, a) {
      AllAreCounted(a, start, run);
    }
  }

  lemma {:induction false} AllAreCounted(a: Account, start: int, run: seq<Attempt>)
    requires Valid(a) && Serial(start, run)
    requires forall x :: x in run ==> Reaches(x.context, a)
    ensures CountedComparisons(a, run) == Comparisons(a, run)
  {
    if run != [] {
      assert run[|run| - 1] in run;
      RunIsSpaced(a, start, run[..|run| - 1]);
      AllAreCounted(a, start, run[..|run| - 1]);
    }
  }

  // --------------------------------------------- the exact condition for it

  /** In a context that does not reach the account nothing is counted: any number
      of comparisons go through at one instant. */
  lemma {:induction false} UncountedComparisons(a: Account, x: Attempt, run: seq<Attempt>)
    requires a.lockUntil.None? && !Reaches(x.context, a)
    requires forall i :: 0 <= i < |run| ==> run[i] == x
    ensures After(a, run) == a && CountIn(Comparisons(a, run), x.at.compared, x.at.compared) == |run|
  {
    if run != [] {
      UncountedComparisons(a, x, run[..|run| - 1]);
      var before := Comparisons(a, run[..|run| - 1]);
      assert (before + [x.at.compared])[..|before|] == before;
    }
  }

  /** Every serial run of wrong passwords on an account of this tenant, with
      requests in these contexts, compares within the rate. */
  ghost predicate RateHolds(tenant: Option<TenantId>, contexts: iset<Option<TenantId>>) {
    forall a: Account, start, run: seq<Attempt> ::
      a.tenant == tenant && Valid(a) && Serial(start, run) && (forall x :: x in run ==> x.context in contexts) ==>
        WithinRate(Comparisons(a, run))
  }

  /** The rate bound holds exactly when requests come for no tenant or for the
      account's own. */
  lemma RateHoldsExactlyWhen(tenant: Option<TenantId>, contexts: iset<Option<TenantId>>)
    ensures RateHolds(tenant, contexts) <==> forall c :: c in contexts ==> c.None? || c == tenant
  {
    if c :| c in contexts && c.Some? && c != tenant {
      var x, account := Attempt(c, Reads(0, 0, 0, 0, 0, 0)), Account(tenant, 0, None);
      var run := [x, x, x, x, x, x];
      UncountedComparisons(account, x, run);
      assert CountIn(Comparisons(account, run), 0, 0) > MAX_ATTEMPTS * ((0 - 0) / LOCK_TIME + 1);
      assert !WithinRate(Comparisons(account, run));
      assert Serial(0, run);
    } else {
      forall a: Account, start, run: seq<Attempt> |
        a.tenant == tenant && Valid(a) && Serial(start, run) && (forall x :: x in run ==> x.context in contexts)
        ensures WithinRate(Comparisons(a, run))
      {
        LockoutRateBound(a, start, run);
      }
    }
  }

  lemma WrongBelowTheLimit(a: Account, x: Attempt)
    requires a.attempts < MAX_ATTEMPTS && a.lockUntil.None? && Reaches(x.context, a)
    ensures var n := a.attempts + 1;
            Login(a, false, x) ==
            (a.(attempts := n, lockUntil := if n == MAX_ATTEMPTS then Some(x.at.stamp + LOCK_TIME) else None),
             WrongPassword)
  {
  }

  /** The bound is reached: on a fresh account five comparisons go through at one
      instant, and lock it. */
  lemma {:induction false} FiveThenLocked(tenant: Option<TenantId>, x: Attempt, run: seq<Attempt>)
    requires Reaches(x.context, Account(tenant, 0, None))
    requires x.at.Ordered() && |run| <= MAX_ATTEMPTS && forall i :: 0 <= i < |run| ==> run[i] == x
    ensures var a := Account(tenant, 0, None);
            && CountIn(Comparisons(a, run), x.at.compared, x.at.compared) == |run|
            && After(a, run) ==
                 Account(tenant, |run|, if |run| == MAX_ATTEMPTS then Some(x.at.stamp + LOCK_TIME) else None)
  {
    if run != [] {
      var a := Account(tenant, 0, None);
      FiveThenLocked(tenant, x, run[..|run| - 1]);
      WrongBelowTheLimit(After(a, run[..|run| - 1]), x);
      var before := Comparisons(a, run[..|run| - 1]);
      assert (before + [x.at.compared])[..|before|] == before;
    }
  }

  /** From then on a login in any context, even with the right password, is refused
      unseen for exactly two hours; afterwards the right password logs in, and
      clears all if its context reaches the account. */
  lemma LockHoldsForTwoHours(tenant: Option<TenantId>, x: Attempt, run: seq<Attempt>, correct: bool, y: Attempt)
    requires Reaches(x.context, Account(tenant, 0, None))
    requires x.at.Ordered() && |run| == MAX_ATTEMPTS && forall i :: 0 <= i < |run| ==> run[i] == x
    requires y.at.Ordered()
    ensures var locked, until := After(Account(tenant, 0, None), run), x.at.stamp + 7200000;
            && (Login(locked, correct, y).1 == StillLocked <==> y.at.locked < until)
            && (y.at.locked < until ==> Login(locked, correct, y).0 == locked)
            && (y.at.locked >= until && correct && Reaches(y.context, locked) ==>
                  Login(locked, correct, y) == (Account(tenant, 0, None), LoggedIn))
  {
    FiveThenLocked(tenant, x, run);
  }

  // ---------------------------------------------------- the stored document

  /** The admin document, as the login route and its own methods update it. */
  class Admin {
    const tenant: Option<TenantId>
    var loginAttempts: nat
    var lockUntil: Option<int>

    function View(): Account
      reads this
    {
      Account(tenant, loginAttempts, lockUntil)
    }

    constructor (a: Account)
      ensures View() == a
    {
      tenant, loginAttempts, lockUntil := a.tenant, a.attempts, a.lockUntil;
    }

    method IncLoginAttempts(x: Attempt)
      modifies this
      ensures View() == Incremented(old(View()), x)
    {
      if x.context.Some? && x.context != tenant {
        return;
      }
      if lockUntil.Some? && lockUntil.value < x.at.incExpiry {
        loginAttempts := 1;
        lockUntil := None;
        return;
      }
      var locks := loginAttempts + 1 >= MAX_ATTEMPTS && !IsLocked(View(), x.at.incLocked);
      loginAttempts := loginAttempts + 1;
      if locks {
        lockUntil := Some(x.at.stamp + LOCK_TIME);
      }
    }

    method ResetLoginAttempts(context: Option<TenantId>)
      modifies this
      ensures View() == if Reaches(context, old(View())) then Cleared(old(View())) else old(View())
    {
      if context.Some? && context != tenant {
        return;
      }
      loginAttempts := 0;
      lockUntil := None;
    }

    method PostLogin(correct: bool, x: Attempt) returns (outcome: Outcome)
      modifies this
      ensures (View(), outcome) == Login(old(View()), correct, x)
    {
      if lockUntil.Some? && lockUntil.value < x.at.expiry {
        if tenant.None? && x.context.Some? {
          return ServerError;
        }
        loginAttempts := 0;
        lockUntil := None;
      } else if IsLocked(View(), x.at.locked) {
        return StillLocked;
      }
      if !correct {
        IncLoginAttempts(x);
        return WrongPassword;
      }
      ResetLoginAttempts(x.context);
      outcome := LoggedIn;
    }
  }
}
