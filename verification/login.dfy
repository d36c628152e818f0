/**
 * app/auth/login/page.tsx: after a successful `login` call the page stores
 * the e-mail, waits on iOS, and probes the session with `checkAuth` up to a
 * platform-dependent number of times before deciding where to go. The probe
 * is an oracle: `probe(i)` is the outcome of the call made on attempt `i`
 * (0-based); waiting is recorded as delays, not performed.
 */
module Login {
  import opened Wrappers
  import opened Session

  const UserEmailKey := "userEmail"
  const LoginFailedMessage := "로그인에 실패했습니다."
  const NotAuthenticatedMessage := "로그인에 실패했습니다. 다시 시도해주세요."

  /** The wait before the first probe on iOS, in milliseconds. */
  const IosInitialWaitMs := 3000

  /** What one `checkAuth()` call gave: an authenticated result, any other result, or a throw. */
  datatype Probe = Authenticated | NotAuthenticated | ProbeThrew

  /** `maxRetries`: three probes on iOS, one elsewhere. */
  function MaxRetries(ios: bool): nat {
    if ios then 3 else 1
  }

  /** The wait after failed attempt `k` (1-based), when another attempt follows. */
  function WaitAfter(ios: bool, k: nat): nat {
    if ios then (k + 1) * 1000 else 1000
  }

  /** The probe loop's record: how many probes were made, the waits between them, and whether one succeeded. */
  datatype ProbeRun = ProbeRun(attempts: nat, waits: seq<nat>, authenticated: bool)

  /** Some probe among the first `n` is authenticated. */
  predicate AuthenticatedWithin(probe: nat -> Probe, n: nat) {
    exists i: nat | i < n :: probe(i) == Authenticated
  }

  /** Attempt `n` (1-based) is the first authenticated probe. */
  predicate FirstSuccessAt(probe: nat -> Probe, n: nat) {
    1 <= n && probe(n - 1) == Authenticated && !AuthenticatedWithin(probe, n - 1)
  }

  /**
   * The `while (retryCount < maxRetries)` loop. It stops at the first
   * authenticated probe; a throw counts as a failed attempt; a wait follows
   * every failed attempt but the last.
   */
  method ProbeLoop(ios: bool, probe: nat -> Probe) returns (run: ProbeRun)
    ensures 1 <= run.attempts <= MaxRetries(ios)
    ensures run.authenticated <==> AuthenticatedWithin(probe, MaxRetries(ios))
    ensures run.authenticated ==> FirstSuccessAt(probe, run.attempts)
    ensures !run.authenticated ==> run.attempts == MaxRetries(ios)
    ensures |run.waits| == run.attempts - 1
    ensures forall k | 0 <= k < |run.waits| :: run.waits[k] == WaitAfter(ios, k + 1)
  {
    var maxRetries := MaxRetries(ios);
    var retryCount: nat := 0;
    var authenticated := false;
    var waits: seq<nat> := [];
    while retryCount < maxRetries && !authenticated
      invariant retryCount <= maxRetries
      invariant authenticated ==> FirstSuccessAt(probe, retryCount)
      invariant !authenticated ==> !AuthenticatedWithin(probe, retryCount)
      invariant |waits| == if authenticated || retryCount == maxRetries then retryCount - 1 else retryCount
      invariant forall k | 0 <= k < |waits| :: waits[k] == WaitAfter(ios, k + 1)
      decreases maxRetries - retryCount
    {
      var outcome := probe(retryCount);
      retryCount := retryCount + 1;
      if outcome == Authenticated {
        authenticated := true;
      } else if retryCount < maxRetries {
        waits := waits + [WaitAfter(ios, retryCount)];
      }
    }
    run := ProbeRun(retryCount, waits, authenticated);
  }

  /** On iOS the waits between probes strictly grow: 2000 ms, then 3000 ms. */
  lemma IosWaitsGrow(k: nat)
    requires 1 <= k
    ensures WaitAfter(true, k) < WaitAfter(true, k + 1)
    ensures WaitAfter(true, 1) == 2000 && WaitAfter(true, 2) == 3000
  {
  }

  /** How a submit of the login form ends. */
  datatype LoginEnd = LoginEnd(
    writes: seq<Write>,
    initialWaitMs: nat,
    run: Option<ProbeRun>,
    redirect: Option<string>,
    error: Option<string>)

  /** What the `login(email, password)` call did: it resolved, or it threw (with the message of an `Error`). */
  datatype LoginCall = LoggedIn | LoginThrew(message: Option<string>)

  /**
   * `handleSubmit`. A throwing `login` shows its message (or a default) and
   * probes nothing. Otherwise `userEmail` is stored first, then the probes
   * decide: `/main` exactly when one of them was authenticated.
   */
  method SubmitLogin(email: string, ios: bool, call: LoginCall, probe: nat -> Probe) returns (end: LoginEnd)
    ensures call.LoginThrew? ==>
      end == LoginEnd([], 0, None, None, Some(call.message.GetOr(LoginFailedMessage)))
    ensures call.LoggedIn? ==>
      && end.writes == [StoreItem(UserEmailKey, email)]
      && end.initialWaitMs == (if ios then IosInitialWaitMs else 0)
      && end.run.Some? && 1 <= end.run.value.attempts <= MaxRetries(ios)
      && (end.redirect.Some? ==> FirstSuccessAt(probe, end.run.value.attempts))
      && (end.redirect.None? ==> end.run.value.attempts == MaxRetries(ios))
      && (end.redirect == Some("/main") <==> AuthenticatedWithin(probe, MaxRetries(ios)))
      && (end.redirect.None? <==> end.error == Some(NotAuthenticatedMessage))
      && (end.redirect.Some? || end.error.Some?)
  {
    match call
    case LoginThrew(message) =>
      end := LoginEnd([], 0, None, None, Some(message.GetOr(LoginFailedMessage)));
    case LoggedIn =>
      var run := ProbeLoop(ios, probe);
      var initialWait := if ios then IosInitialWaitMs else 0;
      if run.authenticated {
        end := LoginEnd([StoreItem(UserEmailKey, email)], initialWait, Some(run), Some("/main"), None);
      } else {
        end := LoginEnd([StoreItem(UserEmailKey, email)], initialWait, Some(run), None, Some(NotAuthenticatedMessage));
      }
  }

  /** A probe that always throws (as a missing `checkAuth` export would) never lets the user in, however many tries. */
  method AlwaysThrowingProbeFails(email: string, ios: bool) returns (end: LoginEnd)
    ensures end.redirect.None? && end.error == Some(NotAuthenticatedMessage)
    ensures end.run.Some? && end.run.value.attempts == MaxRetries(ios)
  {
    var probe := (i: nat) => ProbeThrew;
    assert !AuthenticatedWithin(probe, MaxRetries(ios));
    end := SubmitLogin(email, ios, LoggedIn, probe);
  }
}
