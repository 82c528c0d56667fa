/**
 * The connection phase of `main`: strip the SSID from the callsign, try to
 * connect, and retry after a refused connection until `MAX_RETRIES` is
 * reached.  What each attempt gives is a parameter, `outcome(k)` for the
 * attempt after `k` earlier failures; the delay between attempts and the
 * printed progress lines are not modelled.
 */
module Session {
  import opened Wrappers
  import opened Validation

  /** What an attempt to connect gives. */
  datatype Outcome =
    | Accepted       // `client.connect` returned
    | Refused        // `irc.client.ServerConnectionError`
    | SocketFailure  // `socket.timeout` or `socket.error`

  /** How the connection phase ends. */
  datatype Connection =
    | Established(attempts: nat, nickname: string, username: string)
    | GaveUp(attempts: nat)       // maximum retries reached: `main` returns
    | SocketError(attempts: nat)  // `main` returns at once
    | BadCallsign                 // `re.match` gives None: `.group()` raises, uncaught

  /** The number of attempts `MAX_RETRIES` allows: the first attempt is made
      whatever its value. */
  function MaxAttempts(maxRetries: int): (n: nat)
    ensures n >= 1 && n >= maxRetries
    ensures maxRetries >= 1 ==> n == maxRetries
    ensures maxRetries < 1 ==> n == 1
  {
    if maxRetries < 1 then 1 else maxRetries
  }

  /** The attempts from attempt `k` on, every earlier one refused. */
  function Attempts(callsign: string, base: string, maxRetries: int,
                    outcome: nat -> Outcome, k: nat): Connection
    requires k < MaxAttempts(maxRetries)
    decreases MaxAttempts(maxRetries) - k
  {
    match outcome(k)
    case Accepted => Established(k + 1, callsign, base)
    case SocketFailure => SocketError(k + 1)
    case Refused => if k + 1 < maxRetries then Attempts(callsign, base, maxRetries, outcome, k + 1)
                    else GaveUp(k + 1)
  }

  /** The result of the connection phase of `main`, as a function of the callsign. */
  function ConnectionOf(callsign: string, maxRetries: int, outcome: nat -> Outcome): Connection
  {
    match BaseCall(callsign)
    case None => BadCallsign
    case Some(base) => Attempts(callsign, base, maxRetries, outcome, 0)
  }

  /** All attempts before `n` were refused. */
  predicate RefusedBefore(outcome: nat -> Outcome, n: nat) {
    forall k :: 0 <= k < n ==> outcome(k) == Refused
  }

  /** From attempt `k` on, the phase ends at the first attempt that is not
      refused, or gives up after the last allowed attempt. */
  lemma {:induction false} AttemptsMeaning(callsign: string, base: string, maxRetries: int,
                                           outcome: nat -> Outcome, k: nat)
    requires k < MaxAttempts(maxRetries) && RefusedBefore(outcome, k)
    decreases MaxAttempts(maxRetries) - k
    ensures var c := Attempts(callsign, base, maxRetries, outcome, k);
            && c != BadCallsign
            && k < c.attempts <= MaxAttempts(maxRetries)
            && RefusedBefore(outcome, c.attempts - 1)
            && (c.Established? ==> outcome(c.attempts - 1) == Accepted
                                    && c.nickname == callsign && c.username == base)
            && (c.SocketError? ==> outcome(c.attempts - 1) == SocketFailure)
            && (c.GaveUp? ==> outcome(c.attempts - 1) == Refused
                               && c.attempts == MaxAttempts(maxRetries))
  {
    if outcome(k) == Refused && k + 1 < maxRetries {
      AttemptsMeaning(callsign, base, maxRetries, outcome, k + 1);
    }
  }

  /** `main` never makes more attempts than `MAX_RETRIES` allows.  It connects
      at the first accepted attempt, every earlier one refused, registering
      the full callsign as nickname and its base call as user name; it stops
      at the first socket failure; and it gives up exactly when every allowed
      attempt was refused.  A callsign that does not start with a capital
      letter or digit ends it before any attempt. */
  lemma ConnectionMeaning(callsign: string, maxRetries: int, outcome: nat -> Outcome)
    ensures var c := ConnectionOf(callsign, maxRetries, outcome);
            && (c == BadCallsign <==> BaseCall(callsign).None?)
            && (c != BadCallsign ==>
                  && 1 <= c.attempts <= MaxAttempts(maxRetries)
                  && RefusedBefore(outcome, c.attempts - 1))
            && (c.Established? ==> outcome(c.attempts - 1) == Accepted
                                    && c.nickname == callsign && Some(c.username) == BaseCall(callsign))
            && (c.SocketError? ==> outcome(c.attempts - 1) == SocketFailure)
            && (c.GaveUp? <==> BaseCall(callsign).Some? && RefusedBefore(outcome, MaxAttempts(maxRetries)))
            && (c.GaveUp? ==> c.attempts == MaxAttempts(maxRetries))
  {
    if BaseCall(callsign).Some? {
      AttemptsMeaning(callsign, BaseCall(callsign).value, maxRetries, outcome, 0);
    }
  }

  /** Conversely, the first attempt that is not refused decides the outcome. */
  lemma FirstAnswerDecides(callsign: string, maxRetries: int, outcome: nat -> Outcome, j: nat)
    requires BaseCall(callsign).Some? && j < MaxAttempts(maxRetries)
    requires RefusedBefore(outcome, j) && outcome(j) != Refused
    ensures var c := ConnectionOf(callsign, maxRetries, outcome);
            && c != BadCallsign && c.attempts == j + 1
            && (outcome(j) == Accepted ==> c == Established(j + 1, callsign, BaseCall(callsign).value))
            && (outcome(j) == SocketFailure ==> c == SocketError(j + 1))
  {
    ConnectionMeaning(callsign, maxRetries, outcome);
  }

  /** With `MAX_RETRIES` of 3, two refusals and then an acceptance connect on
      the third attempt; a fourth refusal is never reached. */
  lemma ThreeRetries(outcome: nat -> Outcome)
    requires outcome(0) == Refused && outcome(1) == Refused && outcome(2) == Accepted
    ensures ConnectionOf("N0CALL-7", 3, outcome) == Established(3, "N0CALL-7", "N0CALL")
  {
    BaseCallDropsSsid();
    FirstAnswerDecides("N0CALL-7", 3, outcome, 2);
  }

  /** The retry loop of `main`. */
  method Connect(callsign: string, maxRetries: int, outcome: nat -> Outcome) returns (c: Connection)
    ensures c == ConnectionOf(callsign, maxRetries, outcome)
  {
    var retryCount: nat := 0;
    while true
      invariant retryCount < MaxAttempts(maxRetries)
      invariant retryCount > 0 ==>
                  && BaseCall(callsign).Some?
                  && ConnectionOf(callsign, maxRetries, outcome)
                     == Attempts(callsign, BaseCall(callsign).value, maxRetries, outcome, retryCount)
      decreases MaxAttempts(maxRetries) - retryCount
    {
      var base := BaseCall(callsign);
      if base.None? {
        return BadCallsign;
      }
      match outcome(retryCount) {
        case Accepted =>
          return Established(retryCount + 1, callsign, base.value);
        case SocketFailure =>
          return SocketError(retryCount + 1);
        case Refused =>
          retryCount := retryCount + 1;
          if !(retryCount < maxRetries) {
            return GaveUp(retryCount);
          }
      }
    }
  }
}
