/** Login with a per-account lockout: five failures in a row lock the account for fifteen minutes. */
module Lockout {
  import opened Tables

  const MAX_FAILED_LOGINS: int := 5
  const LOCKOUT_MINUTES: int := 15
  // Times are in microseconds, as the database stores them.
  const MINUTE: int := 60_000_000
  const WINDOW: int := LOCKOUT_MINUTES * MINUTE

  datatype Answer = LoggedIn | AccountLocked(minutes: int) | AccountInactive | InvalidCredentials

  /** The columns of a user row that logging in reads and writes. */
  datatype Guard = Guard(failed: int, lockedUntil: Option<int>, active: bool)

  datatype Try = Try(at: int, passwordOk: bool)

  predicate Locked(g: Guard, now: int) {
    g.lockedUntil.Some? && g.lockedUntil.value > now
  }

  /** Whole minutes told to a locked-out caller. */
  function Remaining(until: int, now: int): int {
    var minutes := (until - now) / MINUTE + 1;
    if minutes < 1 then 1 else minutes
  }

  /** The password is compared with the stored hash. */
  predicate Verifies(g: Guard, t: Try) {
    !Locked(g, t.at) && g.active
  }

  function Attempt(g: Guard, t: Try): (Guard, Answer) {
    if Locked(g, t.at) then (g, AccountLocked(Remaining(g.lockedUntil.value, t.at)))
    else if !g.active then (g, AccountInactive)
    else if t.passwordOk then (g.(failed := 0, lockedUntil := None), LoggedIn)
    else if g.failed + 1 < MAX_FAILED_LOGINS then (g.(failed := g.failed + 1), InvalidCredentials)
    else (g.(failed := 0, lockedUntil := Some(t.at + WINDOW)), AccountLocked(LOCKOUT_MINUTES))
  }

  // --- one attempt ------------------------------------------------------------

  /** Between calls the failure count is 0 to 4, and no lock reaches further than one window. */
  predicate Sound(g: Guard, now: int) {
    0 <= g.failed < MAX_FAILED_LOGINS && (g.lockedUntil.Some? ==> g.lockedUntil.value <= now + WINDOW)
  }

  lemma AttemptKeeps(g: Guard, t: Try, now: int)
    requires Sound(g, now) && now <= t.at
    ensures Sound(Attempt(g, t).0, t.at)
  {
  }

  /** Waiting the reported number of minutes always ends the lock, and is at most one minute too long. */
  lemma WaitEndsLock(g: Guard, t: Try, now: int)
    requires Sound(g, now) && now <= t.at && Attempt(g, t).1.AccountLocked?
    ensures var (after, answer) := Attempt(g, t);
            && Locked(after, t.at) && !Locked(after, t.at + answer.minutes * MINUTE)
            && 1 <= answer.minutes <= LOCKOUT_MINUTES + 1
            && (answer.minutes - 1) * MINUTE <= after.lockedUntil.value - t.at <= answer.minutes * MINUTE
  {
    var until := Attempt(g, t).0.lockedUntil.value;
    assert until - t.at == (until - t.at) / MINUTE * MINUTE + (until - t.at) % MINUTE;
  }

  /** Every answer of an attempt, and what it leaves in the row: a minute is 60 000 000 microseconds, and a lock
      lasts 900 000 000 of them. */
  lemma AttemptAnswers(g: Guard, t: Try)
    ensures var (after, answer) := Attempt(g, t);
            if g.lockedUntil.Some? && t.at < g.lockedUntil.value then
              && after == g && answer.AccountLocked?
              && (answer.minutes - 1) * 60_000_000 <= g.lockedUntil.value - t.at < answer.minutes * 60_000_000
            else if !g.active then
              after == g && answer == AccountInactive
            else if t.passwordOk then
              after == Guard(0, None, true) && answer == LoggedIn
            else if g.failed < 4 then
              after == Guard(g.failed + 1, g.lockedUntil, true) && answer == InvalidCredentials
            else
              after == Guard(0, Some(t.at + 900_000_000), true) && answer == AccountLocked(15)
  {
    if Locked(g, t.at) {
      var left := g.lockedUntil.value - t.at;
      assert left == left / MINUTE * MINUTE + left % MINUTE;
    }
  }

  // --- runs of attempts on one account ------------------------------------------

  /** Attempts one after another, none before `from` and none after `end`. */
  predicate Within(tries: seq<Try>, from: int, end: int) {
    tries == [] || (from <= tries[0].at <= end && Within(tries[1..], tries[0].at, end))
  }

  function After(g: Guard, tries: seq<Try>): Guard
    decreases |tries|
  {
    if tries == [] then g else After(Attempt(g, tries[0]).0, tries[1..])
  }

  predicate NeverSucceeds(g: Guard, tries: seq<Try>)
    decreases |tries|
  {
    tries == [] || (Attempt(g, tries[0]).1 != LoggedIn && NeverSucceeds(Attempt(g, tries[0]).0, tries[1..]))
  }

  function Successes(g: Guard, tries: seq<Try>): nat
    decreases |tries|
  {
    if tries == [] then 0
    else (if Attempt(g, tries[0]).1 == LoggedIn then 1 else 0) + Successes(Attempt(g, tries[0]).0, tries[1..])
  }

  /** How many passwords a run gets compared with the stored hash. */
  function Checked(g: Guard, tries: seq<Try>): nat
    decreases |tries|
  {
    if tries == [] then 0
    else (if Verifies(g, tries[0]) then 1 else 0) + Checked(Attempt(g, tries[0]).0, tries[1..])
  }

  /** The failure count stays in 0..4 over every run, successes included. */
  lemma {:induction false} CountStays(g: Guard, tries: seq<Try>, from: int, end: int)
    requires Sound(g, from) && Within(tries, from, end)
    ensures 0 <= After(g, tries).failed <= 4
    decreases |tries|
  {
    if tries != [] {
      AttemptKeeps(g, tries[0], from);
      CountStays(Attempt(g, tries[0]).0, tries[1..], tries[0].at, end);
    }
  }

  /** How many more passwords can be checked until `end` without a success. */
  function Budget(g: Guard, now: int, end: int): int {
    if Locked(g, now) then
      if g.lockedUntil.value > end then 0 else MAX_FAILED_LOGINS * ((end - g.lockedUntil.value) / WINDOW + 1)
    else MAX_FAILED_LOGINS - g.failed + MAX_FAILED_LOGINS * ((end - now) / WINDOW)
  }

  lemma WindowsShrink(a: int, b: int)
    requires 0 <= a <= b
    ensures 0 <= a / WINDOW <= b / WINDOW
    ensures b >= WINDOW ==> (b - WINDOW) / WINDOW == b / WINDOW - 1
  {
  }

  lemma WaitingBudget(g: Guard, now: int, at: int, end: int)
    requires 0 <= g.failed < MAX_FAILED_LOGINS && now <= at <= end
    ensures 0 <= Budget(g, at, end) <= Budget(g, now, end)
  {
    WindowsShrink(end - at, end - now);
    if Locked(g, now) && !Locked(g, at) {
      WindowsShrink(end - at, end - g.lockedUntil.value);
    }
    if Locked(g, at) && g.lockedUntil.value <= end {
      WindowsShrink(end - g.lockedUntil.value, end - now);
    }
  }

  lemma FailureSpends(g: Guard, t: Try, end: int)
    requires 0 <= g.failed < MAX_FAILED_LOGINS && t.at <= end && Attempt(g, t).1 != LoggedIn
    ensures Budget(Attempt(g, t).0, t.at, end) + (if Verifies(g, t) then 1 else 0) == Budget(g, t.at, end)
  {
    WindowsShrink(end - t.at, end - t.at);
  }

  lemma SuccessSpends(g: Guard, t: Try, end: int)
    requires 0 <= g.failed < MAX_FAILED_LOGINS && t.at <= end && Attempt(g, t).1 == LoggedIn
    ensures Budget(Attempt(g, t).0, t.at, end) + 1 <= Budget(g, t.at, end) + MAX_FAILED_LOGINS
  {
  }

  lemma {:induction false} SpentWithinBudget(g: Guard, tries: seq<Try>, from: int, end: int)
    requires 0 <= g.failed < MAX_FAILED_LOGINS && from <= end && Within(tries, from, end)
    ensures Checked(g, tries) <= Budget(g, from, end) + 5 * Successes(g, tries)
    decreases |tries|
  {
    WaitingBudget(g, from, from, end);
    if tries != [] {
      var t := tries[0];
      WaitingBudget(g, from, t.at, end);
      if Attempt(g, t).1 == LoggedIn {
        SuccessSpends(g, t, end);
      } else {
        FailureSpends(g, t, end);
      }
      SpentWithinBudget(Attempt(g, t).0, tries[1..], t.at, end);
    }
  }

  lemma {:induction false} NoSuccesses(g: Guard, tries: seq<Try>)
    ensures NeverSucceeds(g, tries) <==> Successes(g, tries) == 0
    decreases |tries|
  {
    if tries != [] {
      NoSuccesses(Attempt(g, tries[0]).0, tries[1..]);
    }
  }

  /** However the attempts are timed, at most five passwords are checked per started window of fifteen
      minutes, and five more per success; without a success, the windows alone. */
  lemma LockoutBound(g: Guard, tries: seq<Try>, from: int, end: int)
    requires Sound(g, from) && from <= end && Within(tries, from, end)
    ensures Checked(g, tries) <= 5 * ((end - from) / WINDOW + 1) + 5 * Successes(g, tries)
    ensures NeverSucceeds(g, tries) ==> Checked(g, tries) <= 5 * ((end - from) / WINDOW + 1)
  {
    SpentWithinBudget(g, tries, from, end);
    NoSuccesses(g, tries);
    if Locked(g, from) && g.lockedUntil.value <= end {
      WindowsShrink(end - g.lockedUntil.value, end - from);
    }
    WindowsShrink(end - from, end - from);
  }

  // --- what locks an account --------------------------------------------------------

  /** What the callers of a run are told, one after another. */
  function Replies(g: Guard, tries: seq<Try>): (r: seq<Answer>)
    ensures |r| == |tries|
    decreases |tries|
  {
    if tries == [] then [] else [Attempt(g, tries[0]).1] + Replies(Attempt(g, tries[0]).0, tries[1..])
  }

  /** The wrong passwords since somebody logged in or was told of a lock. */
  function Streak(replies: seq<Answer>): nat {
    if replies == [] then 0
    else
      match replies[|replies| - 1]
      case LoggedIn => 0
      case AccountLocked(_) => 0
      case AccountInactive => Streak(replies[..|replies| - 1])
      case InvalidCredentials => Streak(replies[..|replies| - 1]) + 1
  }

  lemma {:induction false} OneMore(g: Guard, tries: seq<Try>, t: Try)
    ensures After(g, tries + [t]) == Attempt(After(g, tries), t).0
    ensures Replies(g, tries + [t]) == Replies(g, tries) + [Attempt(After(g, tries), t).1]
    decreases |tries|
  {
    if tries != [] {
      assert (tries + [t])[1..] == tries[1..] + [t];
      OneMore(Attempt(g, tries[0]).0, tries[1..], t);
    }
  }

  /** No attempt is earlier than the one before it. */
  predicate InTime(tries: seq<Try>) {
    forall i, j :: 0 <= i <= j < |tries| ==> tries[i].at <= tries[j].at
  }

  /** Over every run the failure count is the streak, and while a lock lasts it is 0. */
  lemma {:induction false} CountIsStreak(tries: seq<Try>, active: bool)
    requires InTime(tries)
    ensures var g := Guard(0, None, active);
            var after := After(g, tries);
            && after.active == active && after.failed == Streak(Replies(g, tries)) <= 4
            && (forall at :: Locked(after, at) && (tries == [] || tries[|tries| - 1].at <= at) ==> after.failed == 0)
    decreases |tries|
  {
    if tries != [] {
      var g, before, t := Guard(0, None, active), tries[..|tries| - 1], tries[|tries| - 1];
      CountIsStreak(before, active);
      assert tries == before + [t];
      OneMore(g, before, t);
      assert Replies(g, tries)[..|tries| - 1] == Replies(g, before);
    }
  }

  /** An attempt locks a new account exactly when it is the fifth wrong password that is compared in a row:
      four were answered so since the last login or lock, and this one is the fifth. */
  lemma FifthInARowLocks(tries: seq<Try>, t: Try, active: bool)
    requires InTime(tries + [t])
    ensures var g := Guard(0, None, active);
            var was := After(g, tries);
            !Locked(was, t.at) && Locked(Attempt(was, t).0, t.at) <==>
            Verifies(was, t) && !t.passwordOk && Streak(Replies(g, tries)) == 4
  {
    assert InTime(tries) by {
      assert forall i :: 0 <= i < |tries| ==> (tries + [t])[i] == tries[i];
    }
    CountIsStreak(tries, active);
  }

  // --- the bound is reached ------------------------------------------------------

  /** Five wrong passwords at once, then again each time the lock ends, n times. */
  function Bursts(from: int, n: nat): seq<Try>
    decreases n
  {
    var wrong := Try(from, false);
    [wrong, wrong, wrong, wrong, wrong] + if n == 0 then [] else Bursts(from + WINDOW, n - 1)
  }

  lemma FiveTries(g: Guard, t: Try, rest: seq<Try>, end: int)
    requires g.active && g.failed == 0 && !Locked(g, t.at) && !t.passwordOk && t.at <= end
    requires Within(rest, t.at, end)
    requires NeverSucceeds(g.(lockedUntil := Some(t.at + WINDOW)), rest)
    ensures var tries := [t, t, t, t, t] + rest;
            && Within(tries, t.at, end) && NeverSucceeds(g, tries)
            && Checked(g, tries) == 5 + Checked(g.(lockedUntil := Some(t.at + WINDOW)), rest)
  {
    OneTry(g.(failed := 4), t, rest, end);
    OneTry(g.(failed := 3), t, [t] + rest, end);
    assert [t] + ([t] + rest) == [t, t] + rest;
    OneTry(g.(failed := 2), t, [t, t] + rest, end);
    assert [t] + ([t, t] + rest) == [t, t, t] + rest;
    OneTry(g.(failed := 1), t, [t, t, t] + rest, end);
    assert [t] + ([t, t, t] + rest) == [t, t, t, t] + rest;
    OneTry(g, t, [t, t, t, t] + rest, end);
    assert [t] + ([t, t, t, t] + rest) == [t, t, t, t, t] + rest;
  }

  lemma OneTry(g: Guard, t: Try, rest: seq<Try>, end: int)
    requires Verifies(g, t) && !t.passwordOk && t.at <= end
    requires Within(rest, t.at, end) && NeverSucceeds(Attempt(g, t).0, rest)
    ensures Within([t] + rest, t.at, end) && NeverSucceeds(g, [t] + rest)
    ensures Checked(g, [t] + rest) == 1 + Checked(Attempt(g, t).0, rest)
  {
    assert ([t] + rest)[1..] == rest;
  }

  lemma WithinEarlier(tries: seq<Try>, from: int, start: int, end: int)
    requires Within(tries, start, end) && from <= start
    ensures Within(tries, from, end)
  {
  }

  /** A run of n windows that gets exactly 5 * (n + 1) passwords checked: the bound cannot be improved. */
  lemma {:induction false} BoundIsReached(g: Guard, from: int, n: nat)
    requires g.active && g.failed == 0 && !Locked(g, from)
    ensures var end := from + n * WINDOW;
            && Within(Bursts(from, n), from, end) && NeverSucceeds(g, Bursts(from, n))
            && Checked(g, Bursts(from, n)) == 5 * (n + 1) && (end - from) / WINDOW == n
    decreases n
  {
    var wrong, end := Try(from, false), from + n * WINDOW;
    if n == 0 {
      FiveTries(g, wrong, [], end);
    } else {
      BoundIsReached(g.(lockedUntil := Some(from + WINDOW)), from + WINDOW, n - 1);
      assert from + WINDOW + (n - 1) * WINDOW == end;
      WithinEarlier(Bursts(from + WINDOW, n - 1), from, from + WINDOW, end);
      FiveTries(g, wrong, Bursts(from + WINDOW, n - 1), end);
    }
  }

  // --- the user rows as objects ------------------------------------------------------

  class User {
    var failedLoginCount: int
    var lockedUntil: Option<int>
    var isActive: bool

    constructor ()
      ensures State() == Guard(0, None, true)
    {
      failedLoginCount, lockedUntil, isActive := 0, None, true;
    }

    function State(): Guard
      reads this
    {
      Guard(failedLoginCount, lockedUntil, isActive)
    }

    method LogIn(now: int, passwordOk: bool) returns (answer: Answer)
      modifies this
      ensures (State(), answer) == Attempt(old(State()), Try(now, passwordOk))
    {
      if lockedUntil.Some? && lockedUntil.value > now {
        var minutes := (lockedUntil.value - now) / MINUTE + 1;
        return AccountLocked(if minutes < 1 then 1 else minutes);
      }
      if !isActive {
        return AccountInactive;
      }
      if !passwordOk {
        failedLoginCount := failedLoginCount + 1;
        if failedLoginCount >= MAX_FAILED_LOGINS {
          lockedUntil := Some(now + LOCKOUT_MINUTES * MINUTE);
          failedLoginCount := 0;
          return AccountLocked(LOCKOUT_MINUTES);
        }
        return InvalidCredentials;
      }
      failedLoginCount := 0;
      lockedUntil := None;
      return LoggedIn;
    }
  }

  /** An unknown phone is answered like a wrong password, and changes nobody's row. */
  method Authenticate(users: map<string, User>, phone: string, now: int, passwordOk: bool) returns (answer: Answer)
    modifies if phone in users then {users[phone]} else {}
    ensures phone !in users ==> answer == InvalidCredentials
    ensures phone in users ==>
              (users[phone].State(), answer) == Attempt(old(users[phone].State()), Try(now, passwordOk))
  {
    if phone !in users {
      return InvalidCredentials;
    }
    var user := users[phone];
    answer := user.LogIn(now, passwordOk);
  }
}
