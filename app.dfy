/** The per-device state helpers of the notifier
    (`features/smartapp/helpers/app.ts`): the device record kept in the
    key-value store, the route numbers shown in announcements, the
    notification cadence and the notification button. */
module App {
  import opened Wrappers
  import opened Text
  import opened BusTypes
  import opened Handlers
  import Time

  // ---------------------------------------------------------------------
  // Preferences
  // ---------------------------------------------------------------------

  datatype Preferences = Preferences(notificationInterval: int, stopNameRequired: bool, routeNumberRequired: bool)

  /** `getPreferences`: an unset or zero interval falls back to 3 and an
      unset flag reads as false. */
  function GetPreferences(interval: Option<int>, stopNameRequired: Option<bool>, routeNumberRequired: Option<bool>): (r: Preferences)
    ensures r.notificationInterval == NotificationInterval(interval)
    ensures interval.None? || interval.value == 0 ==> r.notificationInterval == 3
    ensures r.stopNameRequired <==> stopNameRequired == Some(true)
    ensures r.routeNumberRequired <==> routeNumberRequired == Some(true)
  {
    Preferences(NotificationInterval(interval), stopNameRequired.GetOr(false), routeNumberRequired.GetOr(false))
  }

  // ---------------------------------------------------------------------
  // Route numbers
  // ---------------------------------------------------------------------

  /** The match of `/^[^(]+/` when there is one, '' otherwise: the longest
      prefix without an opening parenthesis. */
  function ParenFreePrefix(s: string): (r: string)
    ensures |r| <= |s| && r == s[..|r|]
    ensures '(' !in r
    ensures |r| < |s| ==> s[|r|] == '('
  {
    if s == [] || s[0] == '(' then []
    else [s[0]] + ParenFreePrefix(s[1..])
  }

  /** `extractRouteNumber`: the route name up to its first parenthesis,
      trimmed. */
  function ExtractRouteNumber(name: string): (r: string)
    ensures Contains(name, r)
    ensures '(' !in r
    ensures r == [] || (!IsJsWhitespace(r[0]) && !IsJsWhitespace(r[|r| - 1]))
    ensures name != [] && name[0] == '(' ==> r == []
    ensures r == Trim(ParenFreePrefix(name))
  {
    if name == "" then
      assert OccursAt(name, "", 0);
      ""
    else
      var prefix := ParenFreePrefix(name);
      if prefix == "" then
        assert OccursAt(name, "", 0);
        ""
      else
        TrimOfPrefix(name, prefix);
        Trim(prefix)
  }

  /** The trimmed prefix of a string is contained in the string and holds
      only characters of the prefix. */
  lemma TrimOfPrefix(name: string, prefix: string)
    requires |prefix| <= |name| && prefix == name[..|prefix|]
    ensures Contains(name, Trim(prefix))
    ensures forall c :: c in Trim(prefix) ==> c in prefix
  {
    var r := Trim(prefix);
    assert Contains(name[..|prefix|], r);
    ContainsInLonger(name, |prefix|, r);
    ContainedCharacters(prefix, r);
  }

  /** A route number followed by a parenthesised remark is shown without
      the remark. */
  lemma RouteNumberBeforeRemark(number: string, remark: string)
    requires number != [] && '(' !in number
    requires !IsJsWhitespace(number[0]) && !IsJsWhitespace(number[|number| - 1])
    ensures ExtractRouteNumber(number + "(" + remark) == number
  {
    var name := number + "(" + remark;
    var prefix := ParenFreePrefix(name);
    assert name[..|number|] == number;
    forall i | 0 <= i < |number|
      ensures name[i] != '('
    {
      assert name[i] == number[i];
    }
    assert name[|number|] == '(';
    assert |prefix| == |number|;
    assert prefix == name[..|prefix|];
    assert name[..|number|] == number;
  }

  /** `extractRouteNumbers`: the route numbers of the first two buses, ''
      for a missing second bus. */
  function ExtractRouteNumbers(buses: seq<BusArrivalInfo>): (r: seq<string>)
    requires |buses| > 0
    ensures |r| == 2
    ensures r[0] == ExtractRouteNumber(buses[0].name)
    ensures |buses| == 1 ==> r[1] == ""
    ensures |buses| > 1 ==> r[1] == ExtractRouteNumber(buses[1].name)
  {
    [ExtractRouteNumber(buses[0].name), if |buses| > 1 then ExtractRouteNumber(buses[1].name) else ""]
  }

  // ---------------------------------------------------------------------
  // Notification messages
  // ---------------------------------------------------------------------

  const FIRST_ORDINAL: string := "첫 번째"
  const SECOND_ORDINAL: string := "두 번째"
  const BUS_VERB: string := " 버스가 "

  /** The bus is named by its route number when one is known, by its
      ordinal otherwise. */
  function BusName(routeNumber: string, order: nat): (r: string)
    requires order < 2
    ensures routeNumber != "" ==> r == routeNumber + "번"
    ensures routeNumber == "" ==> r == (if order == 0 then FIRST_ORDINAL else SECOND_ORDINAL)
  {
    if routeNumber != "" then routeNumber + "번"
    else if order == 0 then FIRST_ORDINAL else SECOND_ORDINAL
  }

  /** `toArrivalMessage` of the device helpers: '' for a bus that is not
      coming. */
  function BusArrivalMessage(seconds: int, routeNumber: string, order: nat, minTime: int): (r: string)
    requires order < 2
    ensures r == "" <==> seconds <= 0
    ensures r != "" ==> |r| > |BusName(routeNumber, order)| && r[..|BusName(routeNumber, order)|] == BusName(routeNumber, order)
    ensures seconds > 0 ==> r == BusName(routeNumber, order) + (BUS_VERB + ToArrivalTime(seconds, minTime)) + ARRIVAL_PHRASE
  {
    var arrivalTime := ToArrivalTime(seconds, minTime);
    if arrivalTime == "" then ""
    else
      var busName := BusName(routeNumber, order);
      Framed(busName, BUS_VERB + arrivalTime, ARRIVAL_PHRASE);
      busName + (BUS_VERB + arrivalTime) + ARRIVAL_PHRASE
  }

  /** `toNotificationMessage`: '' when neither bus is coming, otherwise the
      stop name, the two bus messages and the closing phrase. */
  function ToNotificationMessage(firstSeconds: int, secondSeconds: int, stopName: string, routeNumbers: seq<string>, minTime: int): (r: string)
    requires |routeNumbers| == 2
    ensures r == "" <==> firstSeconds <= 0 && secondSeconds <= 0
    ensures r != "" ==> |r| >= |ANNOUNCEMENT_SUFFIX| && r[|r| - |ANNOUNCEMENT_SUFFIX|..] == ANNOUNCEMENT_SUFFIX
    ensures r != "" && stopName != "" ==> |r| >= |stopName| + 2 && r[..|stopName| + 2] == stopName + COMMA
    ensures firstSeconds > 0 && secondSeconds > 0 ==>
      r == stopName + (if stopName != "" then COMMA else "")
        + (BusArrivalMessage(firstSeconds, routeNumbers[0], 0, minTime) + COMMA
          + BusArrivalMessage(secondSeconds, routeNumbers[1], 1, minTime))
        + ANNOUNCEMENT_SUFFIX
    ensures firstSeconds > 0 && secondSeconds <= 0 ==>
      r == stopName + (if stopName != "" then COMMA else "")
        + BusArrivalMessage(firstSeconds, routeNumbers[0], 0, minTime) + ANNOUNCEMENT_SUFFIX
    ensures firstSeconds <= 0 && secondSeconds > 0 ==>
      r == stopName + (if stopName != "" then COMMA else "")
        + BusArrivalMessage(secondSeconds, if routeNumbers[0] != "" then routeNumbers[0] else routeNumbers[1], 1, minTime)
        + ANNOUNCEMENT_SUFFIX
  {
    var firstMessage := BusArrivalMessage(firstSeconds, routeNumbers[0], 0, minTime);
    var routeNumber := if firstMessage != "" then routeNumbers[1]
      else if routeNumbers[0] != "" then routeNumbers[0] else routeNumbers[1];
    var secondMessage := BusArrivalMessage(secondSeconds, routeNumber, 1, minTime);
    var delimiter := if firstMessage != "" && secondMessage != "" then COMMA else "";
    if firstMessage == "" && secondMessage == "" then ""
    else
      var prefix := stopName + (if stopName != "" then COMMA else "");
      var middle := firstMessage + delimiter + secondMessage;
      assert firstMessage == "" ==> middle == secondMessage;
      assert secondMessage == "" ==> middle == firstMessage;
      Framed(prefix, middle, ANNOUNCEMENT_SUFFIX);
      prefix + middle + ANNOUNCEMENT_SUFFIX
  }

  // ---------------------------------------------------------------------
  // The notification cadence and the button
  // ---------------------------------------------------------------------

  /** The stored progress counter; it starts as `Infinity`. */
  datatype Progress = Infinity | Steps(n: int)

  datatype ProgressResult = ProgressResult(notify: bool, next: Progress)

  /** The counter rule of `ensureNotifications`: notify when the
      incremented counter reaches the interval, and restart from 0. */
  function ProgressStep(progress: Progress, interval: int): (r: ProgressResult)
    ensures r.notify ==> r.next == Steps(0)
    ensures progress.Infinity? ==> r.notify
    ensures !r.notify ==> progress.Steps? && r.next == Steps(progress.n + 1) && progress.n + 1 < interval
  {
    match progress
    case Infinity => ProgressResult(true, Steps(0))
    case Steps(n) => if n + 1 < interval then ProgressResult(false, Steps(n + 1)) else ProgressResult(true, Steps(0))
  }

  /** The counter after `k` calls, with the number of notifications. */
  function Ticks(progress: Progress, interval: int, k: nat): (Progress, nat)
  {
    if k == 0 then (progress, 0)
    else
      var (p, count) := Ticks(progress, interval, k - 1);
      var step := ProgressStep(p, interval);
      (step.next, count + if step.notify then 1 else 0)
  }

  lemma {:induction false} TicksSplit(progress: Progress, interval: int, a: nat, b: nat)
    ensures Ticks(progress, interval, a + b) ==
      var (p, c) := Ticks(progress, interval, a);
      var (q, d) := Ticks(p, interval, b);
      (q, c + d)
  {
    if b > 0 {
      TicksSplit(progress, interval, a, b - 1);
    }
  }

  /** From a restarted counter the first `interval - 1` calls stay quiet. */
  lemma {:induction false} QuietWithinInterval(interval: int, k: nat)
    requires k < interval
    ensures Ticks(Steps(0), interval, k) == (Steps(k), 0)
  {
    if k > 0 {
      QuietWithinInterval(interval, k - 1);
    }
  }

  /** Announcements come exactly once every `interval` calls. */
  lemma {:induction false} NotifiesOncePerInterval(interval: int, m: nat)
    requires interval >= 1
    ensures Ticks(Steps(0), interval, m * interval) == (Steps(0), m)
  {
    if m > 0 {
      var k := (m - 1) * interval;
      NotifiesOncePerInterval(interval, m - 1);
      OneInterval(interval);
      TicksSplit(Steps(0), interval, k, interval);
      assert m * interval == k + interval;
    }
  }

  lemma OneInterval(interval: int)
    requires interval >= 1
    ensures Ticks(Steps(0), interval, interval) == (Steps(0), 1)
  {
    QuietWithinInterval(interval, interval - 1);
  }

  /** The first call after initialisation announces. */
  lemma FirstCallAnnounces(interval: int)
    ensures Ticks(Infinity, interval, 1) == (Steps(0), 1)
  {
  }

  function Rank(status: ButtonStatus): nat {
    match status
    case Ready => 0
    case Pushed => 1
    case Double => 2
  }

  /** The button rule of `ensureNotifications`. */
  function NextButton(status: ButtonStatus, firstSeconds: int, secondSeconds: int, minTime: int): (r: ButtonStatus)
    ensures Rank(r) >= Rank(status)
    ensures r == Pushed && status != Pushed ==> status == Ready && firstSeconds <= minTime
    ensures r == Double && status != Double ==> secondSeconds <= minTime
    ensures status == Ready && firstSeconds <= minTime ==> r == Pushed
    ensures !(status == Ready && firstSeconds <= minTime) && status != Double && secondSeconds <= minTime ==> r == Double
    ensures !(status == Ready && firstSeconds <= minTime) && !(status != Double && secondSeconds <= minTime) ==> r == status
  {
    if firstSeconds <= minTime && status == Ready then Pushed
    else if secondSeconds <= minTime && status != Double then Double
    else status
  }

  /** Once pushed the button never goes back to ready, and once double it
      stays double, whatever the countdowns. */
  lemma {:induction false} ButtonNeverReturns(status: ButtonStatus, firsts: seq<int>, seconds: seq<int>, minTime: int)
    requires |firsts| == |seconds|
    ensures Rank(Replay(status, firsts, seconds, minTime)) >= Rank(status)
    ensures status == Double ==> Replay(status, firsts, seconds, minTime) == Double
    decreases |firsts|
  {
    if firsts != [] {
      ButtonNeverReturns(NextButton(status, firsts[0], seconds[0], minTime), firsts[1..], seconds[1..], minTime);
    }
  }

  /** The button after a run of announcements. */
  function Replay(status: ButtonStatus, firsts: seq<int>, seconds: seq<int>, minTime: int): ButtonStatus
    requires |firsts| == |seconds|
    decreases |firsts|
  {
    if firsts == [] then status
    else Replay(NextButton(status, firsts[0], seconds[0], minTime), firsts[1..], seconds[1..], minTime)
  }

  datatype NotificationOutcome = NotificationOutcome(progress: Progress, buttonStatus: ButtonStatus, effects: seq<Command>)

  /** `ensureNotifications` as a function of the stored record: the new
      counter, the new button status and the commands sent. */
  function Notify(
    progress: Progress, interval: int, status: ButtonStatus,
    firstSeconds: int, secondSeconds: int, stopName: string, routeNumbers: seq<string>,
    minTime: int, hasSpeakers: bool): (r: NotificationOutcome)
    requires |routeNumbers| == 2
    ensures r.progress == ProgressStep(progress, interval).next
    ensures !ProgressStep(progress, interval).notify ==> r.buttonStatus == status && r.effects == []
    ensures ProgressStep(progress, interval).notify ==> r.buttonStatus == NextButton(status, firstSeconds, secondSeconds, minTime)
    ensures forall b :: SetButton(b) in r.effects <==> b == r.buttonStatus && b != status
    ensures (exists p :: Speak(p) in r.effects) <==> ProgressStep(progress, interval).notify && hasSpeakers
    ensures ProgressStep(progress, interval).notify && hasSpeakers ==>
      Speak(ToNotificationMessage(firstSeconds, secondSeconds, stopName, routeNumbers, minTime)) in r.effects
    ensures forall p :: Speak(p) in r.effects ==>
      p == ToNotificationMessage(firstSeconds, secondSeconds, stopName, routeNumbers, minTime)
  {
    var step := ProgressStep(progress, interval);
    if !step.notify then NotificationOutcome(step.next, status, [])
    else
      var message := ToNotificationMessage(firstSeconds, secondSeconds, stopName, routeNumbers, minTime);
      var speech := if hasSpeakers then [Speak(message)] else [];
      var next := NextButton(status, firstSeconds, secondSeconds, minTime);
      var button := if next != status then [SetButton(next)] else [];
      SpeechThenButton(message, hasSpeakers, button);
      NotificationOutcome(step.next, next, speech + button)
  }

  // ---------------------------------------------------------------------
  // The device record
  // ---------------------------------------------------------------------

  /** The attributes read back from the record (`getAttributes`). */
  datatype Attributes = Attributes(firstDisplayedTime: int, secondDisplayedTime: int, lastUpdatedTime: Option<int>, buttonStatus: ButtonStatus)

  /** The record `db.get(deviceId)` of one device. */
  class DeviceStates {
    var progress: Progress
    var errorCount: StoredCount
    var stopName: string
    var routeNumbers: seq<string>
    var arrivalTimes: (int, int)
    /** Absent until the first `sendTimes`. */
    var remainingTimes: Option<(int, int)>
    var updatedTime: Option<int>
    var buttonStatus: ButtonStatus
    var notificationInterval: int

    predicate Valid()
      reads this
    {
      |routeNumbers| == 2
    }

    /** `initializeStates`: a fresh record replacing whatever was stored,
        holding the first two arrival times of the sorted buses. */
    constructor Initialize(buses: seq<BusArrivalInfo>, stop: StopInfo, options: Preferences)
      requires |buses| > 0
      ensures Valid()
      ensures arrivalTimes == ArrivalPair(buses)
      ensures progress == Infinity && errorCount == Count(0) && buttonStatus == Ready
      ensures stopName == if options.stopNameRequired then stop.name else ""
      ensures routeNumbers == if options.routeNumberRequired then ExtractRouteNumbers(buses) else ["", ""]
      ensures notificationInterval == options.notificationInterval
      ensures remainingTimes == None && updatedTime == None
    {
      arrivalTimes := ArrivalPair(buses);
      progress := Infinity;
      errorCount := Count(0);
      stopName := if options.stopNameRequired then stop.name else "";
      routeNumbers := if options.routeNumberRequired then ExtractRouteNumbers(buses) else ["", ""];
      buttonStatus := Ready;
      notificationInterval := options.notificationInterval;
      remainingTimes := None;
      updatedTime := None;
    }

    /** `hasRouteNumber`. */
    predicate HasRouteNumber()
      requires Valid()
      reads this
    {
      routeNumbers[0] != "" || routeNumbers[1] != ""
    }

    /** `saveRouteNumbers`. */
    method SaveRouteNumbers(buses: seq<BusArrivalInfo>)
      requires |buses| > 0
      modifies this
      ensures Valid()
      ensures routeNumbers == ExtractRouteNumbers(buses)
      ensures HasRouteNumber() <==> ExtractRouteNumber(buses[0].name) != "" || (|buses| > 1 && ExtractRouteNumber(buses[1].name) != "")
      ensures progress == old(progress) && errorCount == old(errorCount) && stopName == old(stopName)
      ensures arrivalTimes == old(arrivalTimes) && remainingTimes == old(remainingTimes)
      ensures updatedTime == old(updatedTime) && buttonStatus == old(buttonStatus)
      ensures notificationInterval == old(notificationInterval)
    {
      routeNumbers := ExtractRouteNumbers(buses);
    }

    /** `getAttributes`: none before the first `sendTimes`, where the source
        throws reading the missing countdowns. */
    function GetAttributes(): (r: Option<Attributes>)
      reads this
      ensures r.Some? <==> remainingTimes.Some?
      ensures r.Some? ==> r.value.buttonStatus == buttonStatus && r.value.lastUpdatedTime == updatedTime
      ensures r.Some? ==> (r.value.firstDisplayedTime, r.value.secondDisplayedTime) == remainingTimes.value
    {
      match remainingTimes
      case None => None
      case Some((first, second)) => Some(Attributes(first, second, updatedTime, buttonStatus))
    }

    /** `sendError` over the record's error counter. */
    method SendError(message: Message, forced: bool, hasSpeakers: bool) returns (effects: seq<Command>)
      modifies this
      ensures var step := ErrorStep(old(errorCount), forced);
        && errorCount == step.count
        && effects == (if step.alert then ErrorEffects(message, hasSpeakers) else [])
      ensures progress == old(progress) && stopName == old(stopName) && routeNumbers == old(routeNumbers)
      ensures arrivalTimes == old(arrivalTimes) && remainingTimes == old(remainingTimes)
      ensures updatedTime == old(updatedTime) && buttonStatus == old(buttonStatus)
      ensures notificationInterval == old(notificationInterval)
    {
      if !forced && !errorCount.Truthy() {
        errorCount := errorCount.Incremented();
        return [];
      }
      effects := ErrorEffects(message, hasSpeakers);
    }

    /** `ensureNotifications`. */
    method EnsureNotifications(firstSeconds: int, secondSeconds: int, minTime: int, hasSpeakers: bool) returns (effects: seq<Command>)
      requires Valid()
      modifies this
      ensures Valid()
      ensures var outcome := Notify(old(progress), old(notificationInterval), old(buttonStatus),
          firstSeconds, secondSeconds, old(stopName), old(routeNumbers), minTime, hasSpeakers);
        progress == outcome.progress && buttonStatus == outcome.buttonStatus && effects == outcome.effects
      ensures errorCount == old(errorCount) && stopName == old(stopName) && routeNumbers == old(routeNumbers)
      ensures arrivalTimes == old(arrivalTimes) && remainingTimes == old(remainingTimes)
      ensures updatedTime == old(updatedTime) && notificationInterval == old(notificationInterval)
    {
      var next := match progress case Infinity => Infinity case Steps(n) => Steps(n + 1);
      if next.Steps? && next.n < notificationInterval {
        progress := next;
        return [];
      }
      progress := Steps(0);
      var message := ToNotificationMessage(firstSeconds, secondSeconds, stopName, routeNumbers, minTime);
      effects := if hasSpeakers then [Speak(message)] else [];
      if firstSeconds <= minTime && buttonStatus == Ready {
        buttonStatus := Pushed;
        effects := effects + [SetButton(Pushed)];
      } else if secondSeconds <= minTime && buttonStatus != Double {
        buttonStatus := Double;
        effects := effects + [SetButton(Double)];
      }
    }

    /** `sendTimes`: remember the countdowns and when they were sent,
        display them with the status stamp, and run the notifications. The
        attributes read back are exactly what was sent. */
    method SendTimes(firstSeconds: int, secondSeconds: int, now: int, minTime: int, hasSpeakers: bool) returns (effects: seq<Command>)
      requires Valid()
      modifies this
      ensures Valid()
      ensures remainingTimes == Some((firstSeconds, secondSeconds)) && updatedTime == Some(now)
      ensures GetAttributes() == Some(Attributes(firstSeconds, secondSeconds, Some(now), buttonStatus))
      ensures var outcome := Notify(old(progress), old(notificationInterval), old(buttonStatus),
          firstSeconds, secondSeconds, old(stopName), old(routeNumbers), minTime, hasSpeakers);
        && progress == outcome.progress && buttonStatus == outcome.buttonStatus
        && effects == TimesEffects(firstSeconds, secondSeconds, now) + outcome.effects
      ensures errorCount == old(errorCount) && stopName == old(stopName) && routeNumbers == old(routeNumbers)
      ensures arrivalTimes == old(arrivalTimes) && notificationInterval == old(notificationInterval)
    {
      updatedTime := Some(now);
      remainingTimes := Some((firstSeconds, secondSeconds));
      var notifications := EnsureNotifications(firstSeconds, secondSeconds, minTime, hasSpeakers);
      effects := TimesEffects(firstSeconds, secondSeconds, now) + notifications;
    }
  }
}
