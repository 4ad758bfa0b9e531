/**
 * When may an order be called again, and when is a shop's call window open?
 * Times are milliseconds since the epoch.
 */
module CallPolicy {
  import opened Options

  datatype CallStatus = CallPending | CallConfirmed | CallFailed | CallNoAnswer

  // Every value stored in calls.disposition. "Rejected" is not a declared VoiceDisposition, but
  // decideOutcome treats it as an answer and the callback stores it unchanged.
  datatype Disposition =
    | Completed | Confirmed | Declined | NoAnswer | Ambiguous | NeedsHuman | PolicyBlocked | Error
    | Rejected

  datatype CallRecord =
    CallRecord(attempt: nat, status: CallStatus, disposition: Option<Disposition>, completedAt: Option<int>)

  const MAX_ATTEMPTS: nat := 3
  const RETRY_DELAYS: seq<int> := [30 * 60_000, 2 * 60 * 60_000]

  predicate Retriable(disposition: Option<Disposition>) {
    disposition in {Some(NoAnswer), Some(Error), Some(Ambiguous)}
  }

  // The left-to-right reduction that keeps the call with the highest attempt.
  function LatestFrom(current: CallRecord, calls: seq<CallRecord>): CallRecord
    decreases |calls|
  {
    if calls == [] then current
    else LatestFrom(if calls[0].attempt > current.attempt then calls[0] else current, calls[1..])
  }

  function NextAttemptAt(calls: seq<CallRecord>): Option<int> {
    if calls == [] then None
    else
      var latest := LatestFrom(calls[0], calls[1..]);
      if || latest.attempt != |calls|
         || latest.attempt >= MAX_ATTEMPTS
         || !Retriable(latest.disposition)
         || latest.completedAt.None?
      then None
      else Some(latest.completedAt.value + RETRY_DELAYS[latest.attempt - 1])
  }

  function NextAttemptNumber(calls: seq<CallRecord>, now: int): Option<nat> {
    if |calls| >= MAX_ATTEMPTS then None
    else if calls == [] then Some(1)
    else
      var at := NextAttemptAt(calls);
      if at.Some? && now >= at.value then Some(|calls| + 1) else None
  }

  // The attempts listed are exactly 1..n, each once, in whatever order the query returns them.
  ghost predicate Listing(calls: seq<CallRecord>) {
    && (forall i :: 0 <= i < |calls| ==> 1 <= calls[i].attempt <= |calls|)
    && (forall i, j :: 0 <= i < j < |calls| ==> calls[i].attempt != calls[j].attempt)
  }

  lemma {:induction false} LatestIsHighest(current: CallRecord, calls: seq<CallRecord>)
    ensures var r := LatestFrom(current, calls);
      && (r == current || r in calls)
      && current.attempt <= r.attempt
      && forall c :: c in calls ==> c.attempt <= r.attempt
    decreases |calls|
  {
    if calls != [] {
      LatestIsHighest(if calls[0].attempt > current.attempt then calls[0] else current, calls[1..]);
      assert calls == [calls[0]] + calls[1..];
    }
  }

  /**
   * For the rows of an order in any order: if `last` is the row with the highest attempt, the next
   * attempt is due exactly when that row ended in a retriable way, fewer than three calls were made,
   * and its own delay has passed since its completion.
   */
  lemma NextAttemptDue(calls: seq<CallRecord>, last: CallRecord, now: int)
    requires Listing(calls) && last in calls && last.attempt == |calls|
    ensures NextAttemptAt(calls).Some? <==>
            |calls| < MAX_ATTEMPTS && Retriable(last.disposition) && last.completedAt.Some?
    ensures NextAttemptNumber(calls, now).Some? <==>
            && |calls| < MAX_ATTEMPTS && Retriable(last.disposition) && last.completedAt.Some?
            && now >= last.completedAt.value + (if |calls| == 1 then 30 * 60_000 else 2 * 60 * 60_000)
    ensures NextAttemptNumber(calls, now).Some? ==> NextAttemptNumber(calls, now) == Some(|calls| + 1)
  {
    LatestIsHighest(calls[0], calls[1..]);
    var r := LatestFrom(calls[0], calls[1..]);
    assert calls == [calls[0]] + calls[1..];
    assert r in calls;
    var i :| 0 <= i < |calls| && calls[i] == r;
    var j :| 0 <= j < |calls| && calls[j] == last;
    assert r.attempt >= last.attempt;
    assert i == j;
  }

  // ---------------------------------------------------------------- the call window

  predicate IsDigit(c: char) { '0' <= c <= '9' }

  function Digit(c: char): nat
    requires IsDigit(c)
  {
    c as int - '0' as int
  }

  // Accepts "HH:MM" only.
  function ParseClock(s: string): Option<nat> {
    if |s| == 5 && IsDigit(s[0]) && IsDigit(s[1]) && s[2] == ':' && IsDigit(s[3]) && IsDigit(s[4]) then
      var hour := 10 * Digit(s[0]) + Digit(s[1]);
      var minute := 10 * Digit(s[3]) + Digit(s[4]);
      if hour < 24 && minute < 60 then Some(hour * 60 + minute) else None
    else None
  }

  // `current` is the wall clock in the shop's time zone, in minutes since midnight.
  predicate IsWithinCallWindow(startTime: Option<string>, endTime: Option<string>, current: nat) {
    && startTime.Some? && endTime.Some?
    && var start, end := ParseClock(startTime.value), ParseClock(endTime.value);
    && start.Some? && end.Some?
    && start.value < end.value
    && start.value <= current < end.value
  }

  function DigitChar(d: nat): char
    requires d < 10
  {
    ('0' as int + d) as char
  }

  function FormatClock(minutes: nat): string
    requires minutes < 1440
  {
    var h, m := minutes / 60, minutes % 60;
    [DigitChar(h / 10), DigitChar(h % 10), ':', DigitChar(m / 10), DigitChar(m % 10)]
  }

  /** A clock text is accepted exactly when it is the two-digit spelling of a minute of the day. */
  lemma ParseClockExact(s: string, minutes: nat)
    ensures ParseClock(s) == Some(minutes) <==> minutes < 1440 && s == FormatClock(minutes)
  {
    if minutes < 1440 {
      var f := FormatClock(minutes);
      assert Digit(f[0]) == minutes / 60 / 10 && Digit(f[1]) == minutes / 60 % 10;
      assert Digit(f[3]) == minutes % 60 / 10 && Digit(f[4]) == minutes % 60 % 10;
      if ParseClock(s) == Some(minutes) {
        var h, m := 10 * Digit(s[0]) + Digit(s[1]), 10 * Digit(s[3]) + Digit(s[4]);
        assert h == minutes / 60 && m == minutes % 60;
        assert s[0] == f[0] && s[1] == f[1] && s[3] == f[3] && s[4] == f[4];
        assert s == f;
      }
    }
  }

  // The hours a and b, as minutes of the day, are spelled out and in order.
  predicate Hours(startTime: Option<string>, endTime: Option<string>, a: nat, b: nat) {
    a < b < 1440 && startTime == Some(FormatClock(a)) && endTime == Some(FormatClock(b))
  }

  lemma HoursParse(startTime: Option<string>, endTime: Option<string>, a: nat, b: nat)
    requires Hours(startTime, endTime, a, b)
    ensures ParseClock(startTime.value) == Some(a) && ParseClock(endTime.value) == Some(b)
  {
    ParseClockExact(startTime.value, a);
    ParseClockExact(endTime.value, b);
  }

  // A clock text that is accepted is the spelling of the minute it stands for.
  lemma ParsedIsSpelled(s: string)
    requires ParseClock(s).Some?
    ensures ParseClock(s).value < 1440 && s == FormatClock(ParseClock(s).value)
  {
    ParseClockExact(s, ParseClock(s).value);
  }

  /** A shop may be called from its opening minute up to, and not in, its closing minute, if both are well spelled. */
  lemma WindowExact(startTime: Option<string>, endTime: Option<string>, current: nat)
    ensures IsWithinCallWindow(startTime, endTime, current) <==>
      exists a: nat, b: nat :: Hours(startTime, endTime, a, b) && a <= current < b
  {
    if IsWithinCallWindow(startTime, endTime, current) {
      ParsedIsSpelled(startTime.value);
      ParsedIsSpelled(endTime.value);
      assert Hours(startTime, endTime, ParseClock(startTime.value).value, ParseClock(endTime.value).value);
    }
    if a: nat, b: nat :| Hours(startTime, endTime, a, b) && a <= current < b {
      HoursParse(startTime, endTime, a, b);
    }
  }

  /** Nine to six, for one: 540 minutes after midnight is in, 1080 is out. */
  lemma NineToSix(current: nat)
    ensures IsWithinCallWindow(Some("09:00"), Some("18:00"), current) <==> 540 <= current < 1080
    ensures FormatClock(545) == "09:05"
  {
    var open, close := "09:00", "18:00";
    assert Digit(open[0]) == 0 && Digit(open[1]) == 9 && Digit(open[3]) == 0 && Digit(open[4]) == 0;
    assert Digit(close[0]) == 1 && Digit(close[1]) == 8 && Digit(close[3]) == 0 && Digit(close[4]) == 0;
    assert ParseClock(open) == Some(540) && ParseClock(close) == Some(1080);
    assert FormatClock(545) == "09:05";
  }
}
