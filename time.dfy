/** The time codec of the notifier (`utils/time.ts`, duplicated inside
    `handlers.ts`): countdown text <-> seconds, the "HH:mm:ss" status stamp
    and elapsed seconds. `moment` is replaced by integer milliseconds since
    the epoch (UTC); the current instant is always a parameter `now`. */
module Time {
  import opened Wrappers
  import opened Text

  const MINUTE_IN_SECONDS: int := 60
  const SECOND_IN_MS: int := 1000
  const HOUR_IN_MS: int := 3600000
  const DAY_IN_MS: int := 86400000
  /** The devices display Korea Standard Time, UTC+09:00. */
  const KST_OFFSET_MS: int := 9 * HOUR_IN_MS

  // ---------------------------------------------------------------------
  // formatTime: moment.utc(seconds * 1000).format('m[분] s[초]')
  // ---------------------------------------------------------------------

  /** Minute-of-hour and second-of-minute of the instant `seconds` after the
      epoch, unpadded. Dafny's `/` and `%` floor for a positive divisor, as
      moment does for instants before the epoch. */
  function FormatTime(seconds: int): (r: string)
    ensures |r| >= 5 && r[|r| - 1] == '초'
  {
    NatToString((seconds / 60) % 60) + "분 " + NatToString(seconds % 60) + "초"
  }

  lemma FormatTimeBelowAnHour(seconds: int)
    requires 0 <= seconds < 3600
    ensures FormatTime(seconds) == NatToString(seconds / 60) + "분 " + NatToString(seconds % 60) + "초"
  {
  }

  // ---------------------------------------------------------------------
  // toSeconds: /(?<minutes>\d+(?=분))?\D*(?<seconds>\d+(?=초))/.exec(time)
  // ---------------------------------------------------------------------

  /** End of the longest run of digits starting at `i`. */
  function DigitRunEnd(s: string, i: nat): (j: nat)
    requires i <= |s|
    ensures i <= j <= |s|
    ensures forall k :: i <= k < j ==> IsDigit(s[k])
    ensures j == |s| || !IsDigit(s[j])
    decreases |s| - i
  {
    if i < |s| && IsDigit(s[i]) then DigitRunEnd(s, i + 1) else i
  }

  /** End of the longest run of non-digits starting at `i`. */
  function NonDigitRunEnd(s: string, i: nat): (j: nat)
    requires i <= |s|
    ensures i <= j <= |s|
    ensures forall k :: i <= k < j ==> !IsDigit(s[k])
    ensures j == |s| || IsDigit(s[j])
    decreases |s| - i
  {
    if i < |s| && !IsDigit(s[i]) then NonDigitRunEnd(s, i + 1) else i
  }

  /** The captured groups of a successful match. */
  datatype TimeMatch = TimeMatch(minutes: Option<string>, seconds: string)

  predicate WellFormedMatch(m: TimeMatch) {
    IsNumeral(m.seconds) && (m.minutes.Some? ==> IsNumeral(m.minutes.value))
  }

  /** `\D*(?<seconds>\d+(?=초))` tried at `i`. Greedy `\D*` can only be
      followed by a digit when it takes the whole run of non-digits, and
      `\d+` can only be followed by '초' when it takes the whole run of
      digits, so backtracking never finds another candidate. */
  function SecondsGroupAt(s: string, i: nat): (r: Option<(nat, nat)>)
    requires i <= |s|
    ensures r.Some? ==> i <= r.value.0 < r.value.1 < |s| && s[r.value.1] == '초'
    ensures r.Some? ==> IsNumeral(s[r.value.0..r.value.1])
  {
    var k := NonDigitRunEnd(s, i);
    var l := DigitRunEnd(s, k);
    if k < l < |s| && s[l] == '초' then Some((k, l)) else None
  }

  /** The whole pattern tried at `i`: the optional minutes group is tried
      first (greedy `?`), and dropped when the rest fails after it. */
  function MatchAt(s: string, i: nat): (r: Option<TimeMatch>)
    requires i <= |s|
    ensures r.Some? ==> WellFormedMatch(r.value)
  {
    var j := DigitRunEnd(s, i);
    if i < j < |s| && s[j] == '분' && SecondsGroupAt(s, j).Some? then
      var span := SecondsGroupAt(s, j).value;
      Some(TimeMatch(Some(s[i..j]), s[span.0..span.1]))
    else if SecondsGroupAt(s, i).Some? then
      var span := SecondsGroupAt(s, i).value;
      Some(TimeMatch(None, s[span.0..span.1]))
    else
      None
  }

  /** `RegExp.prototype.exec`: the match at the leftmost position from `i`. */
  function ExecFrom(s: string, i: nat): (r: Option<TimeMatch>)
    requires i <= |s|
    ensures r.Some? ==> WellFormedMatch(r.value)
    decreases |s| - i
  {
    match MatchAt(s, i)
    case Some(m) => Some(m)
    case None => if i == |s| then None else ExecFrom(s, i + 1)
  }

  /** Total seconds of a countdown text; 0 when the pattern does not match. */
  function ToSeconds(time: string): (r: nat)
  {
    match ExecFrom(time, 0)
    case None => 0
    case Some(m) =>
      (if m.minutes.Some? then DecimalValue(m.minutes.value) else 0) * 60 + DecimalValue(m.seconds)
  }

  lemma DigitRunEndIs(s: string, i: nat, j: nat)
    requires i <= j <= |s|
    requires forall k :: i <= k < j ==> IsDigit(s[k])
    requires j == |s| || !IsDigit(s[j])
    ensures DigitRunEnd(s, i) == j
  {
  }

  lemma NonDigitRunEndIs(s: string, i: nat, j: nat)
    requires i <= j <= |s|
    requires forall k :: i <= k < j ==> !IsDigit(s[k])
    requires j == |s| || IsDigit(s[j])
    ensures NonDigitRunEnd(s, i) == j
  {
  }

  /** "M분 S초" decodes to 60·M + S. */
  lemma ToSecondsOfMinutesAndSeconds(minutes: string, seconds: string)
    requires IsNumeral(minutes) && IsNumeral(seconds)
    ensures ToSeconds(minutes + "분 " + seconds + "초") == DecimalValue(minutes) * 60 + DecimalValue(seconds)
  {
    var s := minutes + "분 " + seconds + "초";
    var m, k, l := |minutes|, |minutes| + 2, |minutes| + 2 + |seconds|;
    assert s[m] == '분' && s[m + 1] == ' ' && s[l] == '초';
    assert forall x :: 0 <= x < m ==> s[x] == minutes[x];
    assert forall x :: k <= x < l ==> s[x] == seconds[x - k];
    DigitRunEndIs(s, 0, m);
    NonDigitRunEndIs(s, m, k);
    DigitRunEndIs(s, k, l);
    assert SecondsGroupAt(s, m) == Some((k, l));
    assert s[0..m] == minutes && s[k..l] == seconds;
    assert MatchAt(s, 0) == Some(TimeMatch(Some(minutes), seconds));
  }

  /** "S초" decodes to S. */
  lemma ToSecondsOfSecondsOnly(seconds: string)
    requires IsNumeral(seconds)
    ensures ToSeconds(seconds + "초") == DecimalValue(seconds)
  {
    var s := seconds + "초";
    var l := |seconds|;
    assert s[l] == '초';
    assert forall x :: 0 <= x < l ==> s[x] == seconds[x];
    DigitRunEndIs(s, 0, l);
    NonDigitRunEndIs(s, 0, 0);
    assert SecondsGroupAt(s, 0) == Some((0, l));
    assert s[0..l] == seconds;
    assert MatchAt(s, 0) == Some(TimeMatch(None, seconds));
  }

  /** No digit stands right before a '초'. */
  predicate NoSecondsUnit(s: string) {
    forall k :: 1 <= k < |s| && s[k] == '초' ==> !IsDigit(s[k - 1])
  }

  lemma {:induction false} NoMatchWithoutSecondsUnit(s: string, i: nat)
    requires i <= |s|
    requires NoSecondsUnit(s)
    ensures ExecFrom(s, i) == None
    decreases |s| - i
  {
    NoSecondsGroup(s, i);
    NoSecondsGroup(s, DigitRunEnd(s, i));
    assert MatchAt(s, i) == None;
    if i < |s| {
      NoMatchWithoutSecondsUnit(s, i + 1);
    }
  }

  lemma NoSecondsGroup(s: string, j: nat)
    requires j <= |s|
    requires NoSecondsUnit(s)
    ensures SecondsGroupAt(s, j) == None
  {
    var k := NonDigitRunEnd(s, j);
    var l := DigitRunEnd(s, k);
    assert k < l ==> IsDigit(s[l - 1]);
  }

  /** Without digits immediately followed by '초' the text decodes to 0,
      even when it has a minutes part. */
  lemma ToSecondsWithoutSecondsUnit(s: string)
    requires NoSecondsUnit(s)
    ensures ToSeconds(s) == 0
  {
    NoMatchWithoutSecondsUnit(s, 0);
  }

  /** Encoding then decoding a countdown keeps it modulo one hour: the
      minute field of the format wraps at 60. */
  lemma FormatTimeRoundTrip(seconds: int)
    ensures ToSeconds(FormatTime(seconds)) == seconds % 3600
  {
    var m, s := (seconds / 60) % 60, seconds % 60;
    ToSecondsOfMinutesAndSeconds(NatToString(m), NatToString(s));
    DecimalValueOfNatToString(m);
    DecimalValueOfNatToString(s);
    SplitMinutes(seconds);
  }

  /** Minute-of-hour and second-of-minute add up to the second of the hour. */
  lemma SplitMinutes(seconds: int)
    ensures ((seconds / 60) % 60) * 60 + seconds % 60 == seconds % 3600
  {
    var q := seconds / 60;
    assert seconds == q * 60 + seconds % 60;
    assert q == (q / 60) * 60 + q % 60;
    ModUnique(seconds, q / 60, (q % 60) * 60 + seconds % 60, 3600);
  }

  lemma FormatTimeRoundTripBelowAnHour(seconds: int)
    requires 0 <= seconds < 3600
    ensures ToSeconds(FormatTime(seconds)) == seconds
  {
    FormatTimeRoundTrip(seconds);
    ModUnique(seconds, 0, seconds, 3600);
  }

  // ---------------------------------------------------------------------
  // The status stamp: "HH:mm:ss 기준" in KST, and extractUpdatedTime
  // ---------------------------------------------------------------------

  /** Milliseconds since midnight KST of the instant `t` (floored to whole
      seconds, the precision of the stamp). */
  function KstClockMs(t: int): (r: int)
    ensures 0 <= r < DAY_IN_MS && r % SECOND_IN_MS == 0
  {
    var local := (t + KST_OFFSET_MS) % DAY_IN_MS;
    local - local % SECOND_IN_MS
  }

  /** "HH:mm:ss", each field zero-padded to two digits. */
  function ClockText(h: nat, m: nat, sec: nat): (r: string)
    requires h < 100 && m < 100 && sec < 100
    ensures |r| == 8
  {
    Pad2(h) + ":" + Pad2(m) + ":" + Pad2(sec)
  }

  /** `moment.utc(t).utcOffset('+09:00').format('HH:mm:ss') + ' 기준'`,
      the status text written with every new pair of countdowns. */
  function StatusText(t: int): (r: string)
    ensures |r| == 11
  {
    var c := KstClockMs(t) / SECOND_IN_MS;
    ClockText(c / 3600, (c / 60) % 60, c % 60) + " 기준"
  }

  /** `\d{2}:\d{2}:\d{2}` matches at `i`. */
  predicate ClockAt(s: string, i: int) {
    0 <= i && i + 8 <= |s|
    && IsDigit(s[i]) && IsDigit(s[i + 1]) && s[i + 2] == ':'
    && IsDigit(s[i + 3]) && IsDigit(s[i + 4]) && s[i + 5] == ':'
    && IsDigit(s[i + 6]) && IsDigit(s[i + 7])
  }

  /** Leftmost position at or after `i` where the clock pattern matches. */
  function FindClock(s: string, i: nat): (r: Option<nat>)
    ensures r.Some? ==> i <= r.value && ClockAt(s, r.value)
    ensures forall k :: i <= k && (r.None? || k < r.value) ==> !ClockAt(s, k)
    decreases |s| - i
  {
    if i + 8 > |s| then None
    else if ClockAt(s, i) then Some(i)
    else FindClock(s, i + 1)
  }

  /** Milliseconds since midnight named by the clock matched at `i`. */
  function ClockMs(s: string, i: int): (r: int)
    requires ClockAt(s, i)
    ensures r >= 0 && r % SECOND_IN_MS == 0
  {
    (DecimalValue(s[i..i + 2]) * 3600 + DecimalValue(s[i + 3..i + 5]) * 60
      + DecimalValue(s[i + 6..i + 8])) * SECOND_IN_MS
  }

  /** Midnight UTC of the day of `now`. */
  function DayStart(now: int): (r: int)
    ensures r <= now < r + DAY_IN_MS && r % DAY_IN_MS == 0
  {
    now - now % DAY_IN_MS
  }

  /** `moment.utc(clock, 'HH:mm:ss').subtract(9, 'hours')`: the clock is laid
      on the CURRENT UTC DATE and then shifted back nine hours. `None` when
      the status holds no `dd:dd:dd`. */
  function ExtractUpdatedTime(status: string, now: int): (r: Option<int>)
    ensures r.None? <==> forall k :: !ClockAt(status, k)
    ensures r.Some? ==>
      exists i :: ClockAt(status, i)
        && (forall k :: k < i ==> !ClockAt(status, k))
        && r.value == DayStart(now) + ClockMs(status, i) - KST_OFFSET_MS
  {
    match FindClock(status, 0)
    case None => None
    case Some(i) => Some(DayStart(now) + ClockMs(status, i) - KST_OFFSET_MS)
  }

  /** A clock text is matched where it stands and names its own time. */
  lemma ClockTextRead(h: nat, m: nat, sec: nat, suffix: string)
    requires h < 100 && m < 100 && sec < 100
    ensures ClockAt(ClockText(h, m, sec) + suffix, 0)
    ensures ClockMs(ClockText(h, m, sec) + suffix, 0) == (h * 3600 + m * 60 + sec) * SECOND_IN_MS
  {
    var s := ClockText(h, m, sec) + suffix;
    assert s[0..2] == Pad2(h) && s[3..5] == Pad2(m) && s[6..8] == Pad2(sec);
    assert s[2] == ':' && s[5] == ':';
    Pad2Value(h);
    Pad2Value(m);
    Pad2Value(sec);
  }

  /** Hours, minutes and seconds of a second count add back up to it. */
  lemma SplitClock(c: nat)
    ensures (c / 3600) * 3600 + ((c / 60) % 60) * 60 + c % 60 == c
  {
    var q := c / 60;
    assert c == q * 60 + c % 60;
    assert q == (q / 60) * 60 + q % 60;
    ModUnique(c, q / 60, (q % 60) * 60 + c % 60, 3600);
  }

  /** The clock of a status written at `t` is read back as KST time of day. */
  lemma StatusTextClock(t: int)
    ensures ClockAt(StatusText(t), 0)
    ensures FindClock(StatusText(t), 0) == Some(0)
    ensures ClockMs(StatusText(t), 0) == KstClockMs(t)
  {
    var k := KstClockMs(t);
    var c := k / SECOND_IN_MS;
    ClockTextRead(c / 3600, (c / 60) % 60, c % 60, " 기준");
    SplitClock(c);
    ModUnique(k, c, 0, SECOND_IN_MS);
  }

  /** As written, a stamp is laid on today's UTC date: it comes back as
      `t` only when the KST clock and the UTC date agree. */
  lemma StatusRoundTripAsWritten(t: int, now: int)
    ensures ExtractUpdatedTime(StatusText(t), now) == Some(DayStart(now) + KstClockMs(t) - KST_OFFSET_MS)
  {
    StatusTextClock(t);
  }

  /** Counterexample: a stamp written at 16:00 UTC (01:00 KST) and read one
      minute later is taken to be 24 hours and one minute old. */
  lemma StatusRoundTripLosesADay()
    ensures var t := 16 * HOUR_IN_MS;
      ExtractUpdatedTime(StatusText(t), t + 60000) == Some(t - DAY_IN_MS)
      && GetElapsedTime(t - DAY_IN_MS, t + 60000) == 86460
  {
    var t := 16 * HOUR_IN_MS;
    var now := t + 60000;
    StatusRoundTripAsWritten(t, now);
    ModUnique(t + KST_OFFSET_MS, 1, HOUR_IN_MS, DAY_IN_MS);
    ModUnique(HOUR_IN_MS, 3600, 0, SECOND_IN_MS);
    ModUnique(now, 0, now, DAY_IN_MS);
    ModUnique(now - (t - DAY_IN_MS), 86460, 0, 1000);
  }

  /** The evidently intended reading: the latest instant not after `now`
      whose KST time of day is the matched clock. */
  function ExtractUpdatedTimeKst(status: string, now: int): (r: Option<int>)
    ensures r.None? <==> forall k :: !ClockAt(status, k)
    ensures r.Some? ==> now - DAY_IN_MS < r.value <= now
  {
    match FindClock(status, 0)
    case None => None
    case Some(i) =>
      var localNow := (now + KST_OFFSET_MS) % DAY_IN_MS;
      Some(now - (localNow - ClockMs(status, i)) % DAY_IN_MS)
  }

  /** A stamp read back within a day of being written gives the instant it
      was written, to the second. */
  lemma StatusRoundTripKst(t: int, now: int)
    requires t <= now < t - t % SECOND_IN_MS + DAY_IN_MS
    ensures ExtractUpdatedTimeKst(StatusText(t), now) == Some(t - t % SECOND_IN_MS)
  {
    var s := StatusText(t);
    var written := t - t % SECOND_IN_MS;
    StatusTextClock(t);
    KstClockOfWrittenSecond(t);
    KstAge(ClockMs(s, 0), written, now);
  }

  /** Less than a day after `written`, the distance between the Korean
      wall-clock reading `clock` of `written` and that of `now` is the
      elapsed time. */
  lemma KstAge(clock: int, written: int, now: int)
    requires clock == (written + KST_OFFSET_MS) % DAY_IN_MS
    requires written <= now < written + DAY_IN_MS
    ensures ((now + KST_OFFSET_MS) % DAY_IN_MS - clock) % DAY_IN_MS == now - written
  {
    var local, localWritten := now + KST_OFFSET_MS, written + KST_OFFSET_MS;
    ModDifference(local, localWritten, DAY_IN_MS);
    assert local - localWritten == now - written;
    ModUnique(now - written, 0, now - written, DAY_IN_MS);
  }

  /** Euclidean division has one quotient and remainder. */
  lemma ModUnique(n: int, q: int, r: int, m: int)
    requires m > 0 && 0 <= r < m && n == q * m + r
    ensures n % m == r && n / m == q
  {
    var q', r' := n / m, n % m;
    assert (q - q') * m == r' - r;
    if q' != q {
      var k := if q > q' then q - q' else q' - q;
      assert k * m == r' - r || k * m == r - r';
      MultipleAtLeast(k, m);
    }
  }

  lemma MultipleAtLeast(k: int, m: int)
    requires k >= 1 && m > 0
    ensures k * m >= m
  {
    assert k * m == (k - 1) * m + m;
  }

  lemma ModDifference(a: int, b: int, m: int)
    requires m > 0
    ensures (a % m - b % m) % m == (a - b) % m
  {
    var d := a % m - b % m;
    var qd, rd := d / m, d % m;
    assert a - b == (a / m - b / m + qd) * m + rd;
    ModUnique(a - b, a / m - b / m + qd, rd, m);
  }

  /** The stamp of `t` names the KST time of day of `t` floored to the second. */
  lemma KstClockOfWrittenSecond(t: int)
    ensures KstClockMs(t) == (t - t % SECOND_IN_MS + KST_OFFSET_MS) % DAY_IN_MS
  {
    var local := (t + KST_OFFSET_MS) % DAY_IN_MS;
    var q := (t + KST_OFFSET_MS) / DAY_IN_MS;
    assert t + KST_OFFSET_MS == q * DAY_IN_MS + local;
    var tq, tr := t / SECOND_IN_MS, t % SECOND_IN_MS;
    assert local == (tq + 32400 - q * 86400) * SECOND_IN_MS + tr;
    ModUnique(local, tq + 32400 - q * 86400, tr, SECOND_IN_MS);
    ModUnique(t - t % SECOND_IN_MS + KST_OFFSET_MS, q, local - local % SECOND_IN_MS, DAY_IN_MS);
  }

  // ---------------------------------------------------------------------
  // getElapsedTime: Math.trunc((now - pastTime) / 1000)
  // ---------------------------------------------------------------------

  /** Whole seconds from `past` to `now` (both in milliseconds), as
      `Math.trunc((now - past) / 1000)`: truncated toward zero, so never
      rounded up, and negative for a stamp in the future. */
  function GetElapsedTime(past: int, now: int): (r: int)
    ensures past <= now ==> 0 <= r && r * SECOND_IN_MS <= now - past < r * SECOND_IN_MS + SECOND_IN_MS
    ensures now < past ==> r <= 0 && r * SECOND_IN_MS - SECOND_IN_MS < now - past <= r * SECOND_IN_MS
  {
    var d := now - past;
    if d >= 0 then d / 1000 else -((-d) / 1000)
  }

  lemma ElapsedTimeMonotonic(past: int, now1: int, now2: int)
    requires now1 <= now2
    ensures GetElapsedTime(past, now1) <= GetElapsedTime(past, now2)
  {
    var r1, r2 := GetElapsedTime(past, now1), GetElapsedTime(past, now2);
    assert r1 * SECOND_IN_MS - SECOND_IN_MS < now1 - past;
    assert now2 - past < r2 * SECOND_IN_MS + SECOND_IN_MS;
  }

}
