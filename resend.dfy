/**
 * The verification-link resend throttle of src/routes/auth/routers/resend.ts: two
 * lookups, two time guards and an in-place update of the user's email-token row.
 * Time is integer milliseconds since the epoch; the store lookups, token generation
 * and email delivery are parameters.
 */
module Resend {
  import opened Wrappers

  const HourMs: int := 60 * 60 * 1000
  const DayMs: int := 24 * HourMs
  const FiveMinutesMs: int := 5 * 60 * 1000
  const FifteenMinutesMs: int := 15 * 60 * 1000

  /** After this many resends the daily cap applies. */
  const MaxResends: int := 3

  const NotFound := "Something went wrong."
  const Unable := "We're unable to resend a verification link at this time."
  const Wait := "Please wait 5 minutes before attempting to send another link."
  /** The handler's message for an error that is not an `ApiError`. */
  const Unexpected := "Something went wrong"

  /** Whether the daily cap rejects a request: three resends already, the last within 24 hours. */
  predicate CapReached(resends: int, lastSentAt: int, now: int)
  {
    resends >= MaxResends && lastSentAt + DayMs > now
  }

  /** Whether the cooldown rejects a request: the last link went out less than 5 minutes ago. */
  predicate TooSoon(lastSentAt: int, now: int)
  {
    lastSentAt + FiveMinutesMs > now
  }

  /**
   * The two guards in order: the daily cap first, then the cooldown. `None` means the
   * request may proceed; otherwise the message it is rejected with.
   */
  function Guard(resends: int, lastSentAt: int, now: int): (rejection: Option<string>)
    ensures rejection == Some(Unable) <==> CapReached(resends, lastSentAt, now)
    ensures rejection == Some(Wait) <==> !CapReached(resends, lastSentAt, now) && TooSoon(lastSentAt, now)
    ensures rejection.None? <==> !CapReached(resends, lastSentAt, now) && !TooSoon(lastSentAt, now)
  {
    if resends >= MaxResends && lastSentAt + DayMs > now then Some(Unable)
    else if lastSentAt + FiveMinutesMs > now then Some(Wait)
    else None
  }

  /** The `emailToken` row of one address. */
  class EmailToken {
    var token: string
    var resends: int
    var lastSentAt: int
    var expiresAt: int

    constructor (token: string, resends: int, lastSentAt: int, expiresAt: int)
      ensures this.token == token && this.resends == resends
      ensures this.lastSentAt == lastSentAt && this.expiresAt == expiresAt
    {
      this.token := token;
      this.resends := resends;
      this.lastSentAt := lastSentAt;
      this.expiresAt := expiresAt;
    }

    /** The `prisma.emailToken.update`: a new token, one more resend, sent now, valid for 15 minutes. */
    method Reissue(newToken: string, now: int)
      modifies this
      ensures token == newToken
      ensures resends == old(resends) + 1
      ensures lastSentAt == now
      ensures expiresAt == now + FifteenMinutesMs
    {
      token := newToken;
      resends := resends + 1;
      lastSentAt := now;
      expiresAt := now + FifteenMinutesMs;
    }
  }

  /** What the client is told. */
  datatype Outcome = Sent | Rejected(message: string)

  /**
   * The route handler. `userFound` and `existing` are the two lookups by address,
   * `freshToken` is the generated token and `delivered` whether sending succeeded.
   * Every rejection happens before the update; a failed delivery happens after it.
   */
  method HandleResend(userFound: bool, existing: EmailToken?, now: int, freshToken: string, delivered: bool)
    returns (outcome: Outcome)
    modifies existing
    ensures !userFound || existing == null ==> outcome == Rejected(NotFound)
    ensures existing != null && !userFound ==> unchanged(existing)
    ensures userFound && existing != null ==>
      var rejection := Guard(old(existing.resends), old(existing.lastSentAt), now);
      && (rejection.Some? ==> outcome == Rejected(rejection.value) && unchanged(existing))
      && (rejection.None? ==>
          && existing.token == freshToken
          && existing.resends == old(existing.resends) + 1
          && existing.lastSentAt == now
          && existing.expiresAt == now + FifteenMinutesMs
          && outcome == (if delivered then Sent else Rejected(Unexpected)))
  {
    if !userFound {
      return Rejected(NotFound);
    }
    if existing == null {
      return Rejected(NotFound);
    }
    var lastSentAt := existing.lastSentAt;
    if existing.resends >= MaxResends && lastSentAt + DayMs > now {
      return Rejected(Unable);
    }
    if lastSentAt + FiveMinutesMs > now {
      return Rejected(Wait);
    }
    existing.Reissue(freshToken, now);
    if !delivered {
      return Rejected(Unexpected);
    }
    return Sent;
  }

  /**
   * A request made less than 5 minutes after a successful one is rejected: by the
   * daily cap once the row has reached three resends, by the cooldown otherwise.
   */
  lemma {:induction false} ImmediateRetryRejected(resends: int, sentAt: int, now: int)
    requires sentAt <= now < sentAt + FiveMinutesMs
    ensures Guard(resends, sentAt, now).Some?
    ensures Guard(resends, sentAt, now) == if resends >= MaxResends then Some(Unable) else Some(Wait)
  {
  }

  /** A request that passes the guards comes at least 5 minutes after the previous link. */
  lemma {:induction false} PassMeansCooledDown(resends: int, lastSentAt: int, now: int)
    requires Guard(resends, lastSentAt, now).None?
    ensures now >= lastSentAt + FiveMinutesMs
    ensures resends >= MaxResends ==> now >= lastSentAt + DayMs
  {
  }

  /** One successful resend, as recorded in the row: the guards passed at `at`. */
  datatype Send = Send(at: int)

  /**
   * A history of successful resends, starting from a row with `resends0` resends
   * last sent at `last0`: each one passed the guards against the row the previous one
   * left behind.
   */
  predicate ValidHistory(resends0: int, last0: int, sends: seq<Send>)
    decreases |sends|
  {
    sends == [] ||
      (Guard(resends0, last0, sends[0].at).None? && ValidHistory(resends0 + 1, sends[0].at, sends[1..]))
  }

  /**
   * Successful resends are at least 5 minutes apart, and from the row's third resend
   * on they are at least a day apart.
   */
  lemma {:induction false} HistorySpacing(resends0: int, last0: int, sends: seq<Send>, i: int)
    requires ValidHistory(resends0, last0, sends)
    requires 0 <= i < |sends|
    ensures sends[i].at >= (if i == 0 then last0 else sends[i - 1].at) + FiveMinutesMs
    ensures resends0 + i >= MaxResends ==> sends[i].at >= (if i == 0 then last0 else sends[i - 1].at) + DayMs
    decreases i
  {
    PassMeansCooledDown(resends0, last0, sends[0].at);
    if i > 0 {
      HistorySpacing(resends0 + 1, sends[0].at, sends[1..], i - 1);
      assert sends[1..][i - 1] == sends[i];
      if i > 1 { assert sends[1..][i - 2] == sends[i - 1]; }
    }
  }

  /** A history of successful resends always moves forward in time. */
  lemma {:induction false} HistoryIncreasing(resends0: int, last0: int, sends: seq<Send>, i: int, j: int)
    requires ValidHistory(resends0, last0, sends)
    requires 0 <= i < j < |sends|
    ensures sends[j].at >= sends[i].at + (j - i) * FiveMinutesMs
    decreases j - i
  {
    HistorySpacing(resends0, last0, sends, j);
    if j > i + 1 {
      HistoryIncreasing(resends0, last0, sends, i, j - 1);
    }
  }
}
